/**
 The application controller: a job seeker applies to a job (with a freshly
 uploaded résumé or the one stored on their profile), each party lists the
 applications it has not withdrawn from, and either party withdraws. An
 application carries two soft-delete flags, one per party, and is removed
 from the collection by the withdrawal that sets the second one.
 */
module Applications {
  import opened Common
  import opened Query
  import Jobs
  import Users

  /** Snapshot of the applicant, taken when the application is filed. */
  datatype SeekerInfo = SeekerInfo(
    id: Id,
    name: string,
    email: string,
    phone: string,
    address: string,
    CV: string,
    role: string,
    resume: ResumeRef)

  datatype EmployerInfo = EmployerInfo(id: Id, role: string)

  datatype JobInfo = JobInfo(jobId: Id, jobTitle: string)

  /** Which parties have withdrawn. */
  datatype DeletedBy = DeletedBy(jobSeeker: bool, employer: bool)

  /** A stored application. */
  datatype Application = Application(
    id: Id,
    jobSeekerInfo: SeekerInfo,
    employerInfo: EmployerInfo,
    jobInfo: JobInfo,
    deletedBy: DeletedBy)

  /** The body of an application request. */
  datatype ApplicationForm = ApplicationForm(name: string, email: string, phone: string, address: string, CV: string)

  const AllFieldsRequired: string := "All fields are required."
  const JobNotFound: string := "Job not found."
  const AlreadyApplied: string := "You have already applied for this job."
  const UploadFailedMessage: string := "Failed to upload resume"
  const ResumeRequired: string := "Please upload your resume."
  const ApplicationNotFound: string := "Application not found."

  function AppId(a: Application): (r: Id) { a.id }

  /** The (job, applicant) pair the duplicate check looks for. */
  function PairOf(a: Application): (r: (Id, Id)) { (a.jobInfo.jobId, a.jobSeekerInfo.id) }

  /** Application.findOne({ "jobInfo.jobId": jobId, "jobSeekerInfo.id": seeker }). */
  predicate HasApplied(records: seq<Application>, jobId: Id, seeker: Id) {
    FindKey(records, PairOf, (jobId, seeker)).Some?
  }

  predicate FormComplete(f: ApplicationForm) {
    Present(f.name) && Present(f.email) && Present(f.phone) && Present(f.address) && Present(f.CV)
  }

  predicate FullyWithdrawn(d: DeletedBy) {
    d.jobSeeker && d.employer
  }

  /** The collection's invariant: ids are unique, at most one application
      per (job, applicant), and no stored application has both flags set. */
  ghost predicate WellFormed(records: seq<Application>) {
    && UniqueKeys(records, AppId)
    && UniqueKeys(records, PairOf)
    && forall i :: 0 <= i < |records| ==> !FullyWithdrawn(records[i].deletedBy)
  }

  /** The résumé an application gets: the upload's reference when a file
      was sent, the profile's stored one otherwise. */
  function ChosenResume(file: Option<UploadOutcome>, stored: ResumeRef): (r: ResumeRef)
    requires file.Some? ==> file.value.Uploaded?
  {
    if file.Some? then UploadedRef(file.value) else stored
  }

  /** The record a successful application stores: the applicant's id and
      role with the form's fields and the chosen résumé, the job's owner as
      the employer, the job's id and title, and no withdrawal yet. */
  predicate SubmittedFrom(a: Application, jobId: Id, me: Users.User, f: ApplicationForm,
                          file: Option<UploadOutcome>, job: Jobs.Job)
    requires file.Some? ==> file.value.Uploaded?
  {
    && a.jobSeekerInfo == SeekerInfo(me.id, f.name, f.email, f.phone, f.address, f.CV, JobSeeker,
                                     ChosenResume(file, me.resume))
    && a.employerInfo == EmployerInfo(job.postedBy, Employer)
    && a.jobInfo == JobInfo(jobId, job.title)
    && a.deletedBy == DeletedBy(false, false)
  }

  /** An application the employer has not withdrawn from. */
  function EmployerSees(employer: Id): (r: Application -> bool) {
    (a: Application) => a.employerInfo.id == employer && !a.deletedBy.employer
  }

  /** An application the applicant has not withdrawn from. */
  function SeekerSees(seeker: Id): (r: Application -> bool) {
    (a: Application) => a.jobSeekerInfo.id == seeker && !a.deletedBy.jobSeeker
  }

  /** The employer's list. */
  function EmployerApplications(records: seq<Application>, employer: Id): (r: seq<Application>)
    ensures forall a :: a in r <==> a in records && a.employerInfo.id == employer && !a.deletedBy.employer
    ensures forall a :: multiset(r)[a] == if a.employerInfo.id == employer && !a.deletedBy.employer then multiset(records)[a] else 0
  {
    Select(records, EmployerSees(employer))
  }

  /** The applicant's list. */
  function SeekerApplications(records: seq<Application>, seeker: Id): (r: seq<Application>)
    ensures forall a :: a in r <==> a in records && a.jobSeekerInfo.id == seeker && !a.deletedBy.jobSeeker
    ensures forall a :: multiset(r)[a] == if a.jobSeekerInfo.id == seeker && !a.deletedBy.jobSeeker then multiset(records)[a] else 0
  {
    Select(records, SeekerSees(seeker))
  }

  /** A new application appears at the end of its employer's and its
      applicant's lists, and no other party's list changes. */
  lemma SubmissionVisibleToBothParties(records: seq<Application>, a: Application)
    requires a.deletedBy == DeletedBy(false, false)
    ensures EmployerApplications(records + [a], a.employerInfo.id) == EmployerApplications(records, a.employerInfo.id) + [a]
    ensures SeekerApplications(records + [a], a.jobSeekerInfo.id) == SeekerApplications(records, a.jobSeekerInfo.id) + [a]
    ensures forall e :: e != a.employerInfo.id ==> EmployerApplications(records + [a], e) == EmployerApplications(records, e)
    ensures forall s :: s != a.jobSeekerInfo.id ==> SeekerApplications(records + [a], s) == SeekerApplications(records, s)
  {
    SelectAppend(records, a, EmployerSees(a.employerInfo.id));
    SelectAppend(records, a, SeekerSees(a.jobSeekerInfo.id));
    forall e | e != a.employerInfo.id
      ensures EmployerApplications(records + [a], e) == EmployerApplications(records, e)
    {
      SelectAppend(records, a, EmployerSees(e));
    }
    forall s | s != a.jobSeekerInfo.id
      ensures SeekerApplications(records + [a], s) == SeekerApplications(records, s)
    {
      SelectAppend(records, a, SeekerSees(s));
    }
  }

  /** Appending an application for a pair nobody applied for, under a fresh
      id and with no flag set, keeps the collection well formed. */
  lemma SubmitKeepsWellFormed(records: seq<Application>, a: Application, bound: Id)
    requires WellFormed(records) && KeysBelow(records, AppId, bound) && a.id == bound
    requires !HasApplied(records, a.jobInfo.jobId, a.jobSeekerInfo.id)
    requires a.deletedBy == DeletedBy(false, false)
    ensures WellFormed(records + [a]) && KeysBelow(records + [a], AppId, bound + 1)
  {
    AppendFreshKey(records, a, AppId, bound);
    assert forall j :: 0 <= j < |records| ==> PairOf(records[j]) != PairOf(a);
  }

  // ----- The withdrawal state machine -----

  /** The flag the acting role sets; any other role sets nothing. */
  function MarkWithdrawn(d: DeletedBy, role: string): (r: DeletedBy) {
    if role == JobSeeker then d.(jobSeeker := true)
    else if role == Employer then d.(employer := true)
    else d
  }

  /** deleteApplication on the collection: the answer and the new
      collection. The role's flag is set; the record is removed when both
      flags are then set. The actor is not compared with either party. */
  function Withdraw(records: seq<Application>, id: Id, role: string): (r: (Outcome<()>, seq<Application>))
    ensures r.0.Fail? <==> forall a :: a in records ==> a.id != id
    ensures r.0.Fail? ==> r.0.failure == Failure(404, ApplicationNotFound) && r.1 == records
    ensures r.0.Ok? ==> |records| - 1 <= |r.1| <= |records|
    ensures forall a :: a in r.1 && a.id != id ==> a in records
  {
    match FindKey(records, AppId, id)
    case None => (Fail(Failure(404, ApplicationNotFound)), records)
    case Some(i) =>
      var a := records[i].(deletedBy := MarkWithdrawn(records[i].deletedBy, role));
      if FullyWithdrawn(a.deletedBy) then (Ok(()), RemoveAt(records, i))
      else (Ok(()), records[i := a])
  }

  /** The lifecycle state of the application with a given id. */
  datatype Phase = Active | WithdrawnBySeeker | WithdrawnByEmployer | Destroyed

  /** Reads the phase off the stored flags; no record means Destroyed. */
  function PhaseOf(records: seq<Application>, id: Id): (r: Phase) {
    match FindKey(records, AppId, id)
    case None => Destroyed
    case Some(i) =>
      if records[i].deletedBy.jobSeeker then WithdrawnBySeeker
      else if records[i].deletedBy.employer then WithdrawnByEmployer
      else Active
  }

  /** The transition table of the two-party withdrawal. */
  function NextPhase(p: Phase, role: string): (r: Phase) {
    match p
    case Active =>
      if role == JobSeeker then WithdrawnBySeeker
      else if role == Employer then WithdrawnByEmployer
      else Active
    case WithdrawnBySeeker => if role == Employer then Destroyed else WithdrawnBySeeker
    case WithdrawnByEmployer => if role == JobSeeker then Destroyed else WithdrawnByEmployer
    case Destroyed => Destroyed
  }

  /** Withdraw moves an application along the transition table, and
      answers 404 exactly when there is no record. */
  lemma WithdrawFollowsStateMachine(records: seq<Application>, id: Id, role: string)
    requires WellFormed(records)
    ensures PhaseOf(Withdraw(records, id, role).1, id) == NextPhase(PhaseOf(records, id), role)
    ensures Withdraw(records, id, role).0.Fail? <==> PhaseOf(records, id) == Destroyed
    ensures Withdraw(records, id, role).0.Fail? ==> Withdraw(records, id, role) == (Fail(Failure(404, ApplicationNotFound)), records)
  {
    match FindKey(records, AppId, id)
    case None =>
    case Some(i) =>
      var a := records[i].(deletedBy := MarkWithdrawn(records[i].deletedBy, role));
      if FullyWithdrawn(a.deletedBy) {
        RemovedKeyGone(records, i, AppId);
      } else {
        UpdateKeepsKey(records, i, a, AppId);
      }
  }

  /** Withdraw changes nothing but the target: every other record stays,
      nothing new appears, and the target, if it stays, differs only in the
      acting role's flag. It is removed exactly when both flags are set. */
  lemma WithdrawTouchesOnlyTarget(records: seq<Application>, id: Id, role: string)
    requires WellFormed(records)
    ensures var after := Withdraw(records, id, role).1;
            && (forall b :: b in records && b.id != id ==> b in after)
            && (forall b :: b in after && b.id != id ==> b in records)
    ensures var after := Withdraw(records, id, role).1;
            FindKey(records, AppId, id).Some? ==>
              var old_ := records[FindKey(records, AppId, id).value];
              && (forall b :: b in after && b.id == id ==> b == old_.(deletedBy := MarkWithdrawn(old_.deletedBy, role)))
              && ((exists b :: b in after && b.id == id) <==> !FullyWithdrawn(MarkWithdrawn(old_.deletedBy, role)))
  {
    var after := Withdraw(records, id, role).1;
    match FindKey(records, AppId, id)
    case None =>
    case Some(i) =>
      var a := records[i].(deletedBy := MarkWithdrawn(records[i].deletedBy, role));
      if FullyWithdrawn(a.deletedBy) {
        assert after == RemoveAt(records, i);
        RemovedKeyGone(records, i, AppId);
        forall b | b in records && b.id != id ensures b in after {
          var k :| 0 <= k < |records| && records[k] == b;
          assert after[if k < i then k else k - 1] == b;
        }
      } else {
        assert after == records[i := a];
        UpdateKeepsKey(records, i, a, AppId);
        forall b | b in after && b.id == id ensures b == a {
          var k :| 0 <= k < |after| && after[k] == b;
          assert AppId(after[k]) == AppId(after[i]);
        }
        forall b | b in records && b.id != id ensures b in after {
          var k :| 0 <= k < |records| && records[k] == b;
          assert after[k] == b;
        }
        assert after[i] == a;
      }
  }

  /** Withdrawal keeps the collection well formed: in particular it never
      leaves a record with both flags set. */
  lemma WithdrawKeepsWellFormed(records: seq<Application>, id: Id, role: string, bound: Id)
    requires WellFormed(records) && KeysBelow(records, AppId, bound)
    ensures WellFormed(Withdraw(records, id, role).1) && KeysBelow(Withdraw(records, id, role).1, AppId, bound)
  {
    match FindKey(records, AppId, id)
    case None =>
    case Some(i) =>
      var a := records[i].(deletedBy := MarkWithdrawn(records[i].deletedBy, role));
      if FullyWithdrawn(a.deletedBy) {
        RemoveKeepsKeys(records, i, AppId, bound);
        RemoveKeepsUnique(records, i, PairOf);
        var r := RemoveAt(records, i);
        forall j | 0 <= j < |r| ensures !FullyWithdrawn(r[j].deletedBy) {
          assert r[j] == records[if j < i then j else j + 1];
        }
      } else {
        UpdateKeepsKey(records, i, a, AppId);
        UpdateKeepsKey(records, i, a, PairOf);
      }
  }

  /** Withdrawing twice with the same role leaves the collection as one
      withdrawal did; the second call still answers success unless the
      first one destroyed the record. */
  lemma WithdrawIdempotent(records: seq<Application>, id: Id, role: string)
    requires WellFormed(records)
    ensures var once := Withdraw(records, id, role).1;
            && Withdraw(once, id, role).1 == once
            && (PhaseOf(once, id) != Destroyed ==> Withdraw(once, id, role).0 == Ok(()))
  {
    match FindKey(records, AppId, id)
    case None =>
    case Some(i) =>
      var a := records[i].(deletedBy := MarkWithdrawn(records[i].deletedBy, role));
      if FullyWithdrawn(a.deletedBy) {
        RemovedKeyGone(records, i, AppId);
      } else {
        UpdateKeepsKey(records, i, a, AppId);
        assert MarkWithdrawn(a.deletedBy, role) == a.deletedBy;
        assert records[i := a][i := a] == records[i := a];
      }
  }

  /** Both parties withdrawing removes the record whatever the order, and
      the two orders end in the same collection. */
  lemma WithdrawBothOrdersDestroy(records: seq<Application>, id: Id)
    requires WellFormed(records) && FindKey(records, AppId, id).Some?
    ensures var gone := RemoveAt(records, FindKey(records, AppId, id).value);
            && Withdraw(Withdraw(records, id, JobSeeker).1, id, Employer).1 == gone
            && Withdraw(Withdraw(records, id, Employer).1, id, JobSeeker).1 == gone
  {
    var i := FindKey(records, AppId, id).value;
    var d := records[i].deletedBy;
    var s := records[i].(deletedBy := d.(jobSeeker := true));
    var e := records[i].(deletedBy := d.(employer := true));
    if d.employer {
      RemovedKeyGone(records, i, AppId);
    } else {
      UpdateKeepsKey(records, i, s, AppId);
      RemoveAfterUpdate(records, i, s);
    }
    if d.jobSeeker {
      RemovedKeyGone(records, i, AppId);
    } else {
      UpdateKeepsKey(records, i, e, AppId);
      RemoveAfterUpdate(records, i, e);
    }
  }

  /** Once both parties have withdrawn, the applicant may apply to the same
      job again: the duplicate check finds nothing. */
  lemma ReapplyAfterBothWithdraw(records: seq<Application>, id: Id)
    requires WellFormed(records) && FindKey(records, AppId, id).Some?
    ensures var a := records[FindKey(records, AppId, id).value];
            var final := Withdraw(Withdraw(records, id, JobSeeker).1, id, Employer).1;
            !HasApplied(final, a.jobInfo.jobId, a.jobSeekerInfo.id)
  {
    var i := FindKey(records, AppId, id).value;
    WithdrawBothOrdersDestroy(records, id);
    RemovedKeyGone(records, i, PairOf);
  }

  /** After a party withdraws, its own list no longer shows the
      application, while the other party's list still does until that
      party withdraws as well. */
  lemma WithdrawHidesFromOwnList(records: seq<Application>, id: Id, role: string)
    requires WellFormed(records) && FindKey(records, AppId, id).Some?
    ensures var a := records[FindKey(records, AppId, id).value];
            var after := Withdraw(records, id, role).1;
            && (role == JobSeeker ==> forall b :: b in SeekerApplications(after, a.jobSeekerInfo.id) ==> b.id != id)
            && (role == Employer ==> forall b :: b in EmployerApplications(after, a.employerInfo.id) ==> b.id != id)
            && (role == JobSeeker && !a.deletedBy.employer ==>
                  a.(deletedBy := a.deletedBy.(jobSeeker := true)) in EmployerApplications(after, a.employerInfo.id))
            && (role == Employer && !a.deletedBy.jobSeeker ==>
                  a.(deletedBy := a.deletedBy.(employer := true)) in SeekerApplications(after, a.jobSeekerInfo.id))
  {
    var i := FindKey(records, AppId, id).value;
    var a := records[i];
    var a' := a.(deletedBy := MarkWithdrawn(a.deletedBy, role));
    WithdrawTouchesOnlyTarget(records, id, role);
    if !FullyWithdrawn(a'.deletedBy) {
      assert Withdraw(records, id, role).1[i] == a';
    }
  }

  /** The application collection. */
  // ----- Withdrawal by a party only -----

  const NotAParty: string := "You are not a party to this application."

  /** The acting identity is the party its role names: the application's
      seeker when acting as a job seeker, its employer when acting as an
      employer. No other role is a party. */
  predicate IsParty(a: Application, actor: Id, role: string) {
    || (role == JobSeeker && a.jobSeekerInfo.id == actor)
    || (role == Employer && a.employerInfo.id == actor)
  }

  /** Withdrawal with the party check the design calls for: a caller who
      is not the party its role names is refused and nothing changes;
      a party's withdrawal is the ordinary one. */
  function PartyWithdraw(records: seq<Application>, id: Id, actor: Id, role: string): (r: (Outcome<()>, seq<Application>))
    ensures r.0.Fail? ==> r.1 == records
  {
    match FindKey(records, AppId, id)
    case None => (Fail(Failure(404, ApplicationNotFound)), records)
    case Some(i) =>
      if !IsParty(records[i], actor, role) then (Fail(Failure(403, NotAParty)), records)
      else Withdraw(records, id, role)
  }

  /** With the party check, only a party of the application can change
      it: a non-party is refused with 403 and changes nothing, and a
      party's request is exactly the ordinary withdrawal. */
  lemma PartyWithdrawIntended(records: seq<Application>, id: Id, actor: Id, role: string)
    requires WellFormed(records)
    ensures (forall a :: a in records && a.id == id ==> !IsParty(a, actor, role)) ==>
              PartyWithdraw(records, id, actor, role).1 == records
    ensures (exists a :: a in records && a.id == id && !IsParty(a, actor, role)) <==>
              PartyWithdraw(records, id, actor, role) == (Fail(Failure(403, NotAParty)), records)
    ensures (exists a :: a in records && a.id == id && IsParty(a, actor, role)) ==>
              PartyWithdraw(records, id, actor, role) == Withdraw(records, id, role)
  {
    match FindKey(records, AppId, id)
    case None =>
    case Some(i) =>
      forall a | a in records && a.id == id ensures a == records[i] {
        var k :| 0 <= k < |records| && records[k] == a;
        assert AppId(records[k]) == AppId(records[i]);
      }
  }

  /** As written, withdrawal never looks at who asks: once the employer
      has withdrawn, a job seeker who never applied destroys the
      application; the party check refuses that caller. */
  lemma WithdrawByStranger(a: Application, stranger: Id)
    requires a.deletedBy == DeletedBy(false, true) && stranger != a.jobSeekerInfo.id
    ensures Withdraw([a], a.id, JobSeeker) == (Ok(()), [])
    ensures PartyWithdraw([a], a.id, stranger, JobSeeker) == (Fail(Failure(403, NotAParty)), [a])
  {
    assert FindKey([a], AppId, a.id) == Some(0);
  }

  class ApplicationLedger {
    var records: seq<Application>
    var nextId: Id

    ghost predicate Valid()
      reads this
    {
      WellFormed(records) && KeysBelow(records, AppId, nextId)
    }

    constructor ()
      ensures Valid() && records == []
    {
      records := [];
      nextId := 0;
    }

    /** Files an application by the authenticated user `me` for the job
        `jobId`: required fields, the job's existence, no earlier
        application for the pair (withdrawn or not), then the résumé (an
        upload, else the profile's), and finally the insertion. */
    method PostApplication(jobId: Id, me: Users.User, f: ApplicationForm, file: Option<UploadOutcome>,
                           jobStore: Jobs.JobStore)
      returns (r: Outcome<Application>)
      requires Valid()
      modifies this
      ensures Valid()
      ensures !FormComplete(f) ==> r == Fail(Failure(400, AllFieldsRequired))
      ensures FormComplete(f) && Jobs.JobIndex(jobStore.jobs, jobId).None? ==>
                r == Fail(Failure(404, JobNotFound))
      ensures FormComplete(f) && Jobs.JobIndex(jobStore.jobs, jobId).Some? && HasApplied(old(records), jobId, me.id) ==>
                r == Fail(Failure(400, AlreadyApplied))
      ensures FormComplete(f) && Jobs.JobIndex(jobStore.jobs, jobId).Some? && !HasApplied(old(records), jobId, me.id) ==>
                && (file == Some(UploadFailed) ==> r == Fail(Failure(500, UploadFailedMessage)))
                && (file.None? && !Present(me.resume.url) ==> r == Fail(Failure(400, ResumeRequired)))
      ensures r.Ok? <==> && FormComplete(f) && Jobs.JobIndex(jobStore.jobs, jobId).Some?
                         && !HasApplied(old(records), jobId, me.id)
                         && (if file.Some? then file.value.Uploaded? else Present(me.resume.url))
      ensures r.Fail? ==> records == old(records) && nextId == old(nextId)
      ensures r.Ok? ==> && r.value.id == old(nextId)
                        && SubmittedFrom(r.value, jobId, me, f, file, jobStore.jobs[Jobs.JobIndex(jobStore.jobs, jobId).value])
                        && records == old(records) + [r.value] && nextId == old(nextId) + 1
    {
      if !FormComplete(f) {
        return Fail(Failure(400, AllFieldsRequired));
      }
      var seeker := SeekerInfo(me.id, f.name, f.email, f.phone, f.address, f.CV, JobSeeker, NoResume);
      var jobIdx := Jobs.JobIndex(jobStore.jobs, jobId);
      if jobIdx.None? {
        return Fail(Failure(404, JobNotFound));
      }
      var job := jobStore.jobs[jobIdx.value];
      if FindKey(records, PairOf, (jobId, me.id)).Some? {
        return Fail(Failure(400, AlreadyApplied));
      }
      if file.Some? {
        match file.value
        case UploadFailed =>
          return Fail(Failure(500, UploadFailedMessage));
        case Uploaded(publicId, secureUrl) =>
          seeker := seeker.(resume := ResumeRef(publicId, secureUrl));
      } else {
        if !Present(me.resume.url) {
          return Fail(Failure(400, ResumeRequired));
        }
        seeker := seeker.(resume := ResumeRef(me.resume.publicId, me.resume.url));
      }
      var application := Application(nextId, seeker, EmployerInfo(job.postedBy, Employer),
                                     JobInfo(jobId, job.title), DeletedBy(false, false));
      SubmitKeepsWellFormed(records, application, nextId);
      records := records + [application];
      nextId := nextId + 1;
      r := Ok(application);
    }

    /** The employer's applications that it has not withdrawn from. */
    method EmployerGetAllApplication(employer: Id) returns (list: seq<Application>)
      ensures forall a :: a in list <==> a in records && a.employerInfo.id == employer && !a.deletedBy.employer
      ensures list == EmployerApplications(records, employer)
    {
      list := EmployerApplications(records, employer);
    }

    /** The applicant's applications that they have not withdrawn from. */
    method JobSeekerGetAllApplication(seeker: Id) returns (list: seq<Application>)
      ensures forall a :: a in list <==> a in records && a.jobSeekerInfo.id == seeker && !a.deletedBy.jobSeeker
      ensures list == SeekerApplications(records, seeker)
    {
      list := SeekerApplications(records, seeker);
    }

    /** Withdraws the acting role from an application: sets that role's
        flag and saves, then removes the record if both flags are set. */
    method DeleteApplication(id: Id, role: string) returns (r: Outcome<()>)
      requires Valid()
      modifies this
      ensures Valid() && nextId == old(nextId)
      ensures (r, records) == Withdraw(old(records), id, role)
      ensures r.Fail? <==> forall a :: a in old(records) ==> a.id != id
      ensures r.Fail? ==> r == Fail(Failure(404, ApplicationNotFound)) && records == old(records)
    {
      WithdrawKeepsWellFormed(records, id, role, nextId);
      var idx := FindKey(records, AppId, id);
      if idx.None? {
        return Fail(Failure(404, ApplicationNotFound));
      }
      var i := idx.value;
      var application := records[i];
      ghost var before := records;
      if role == JobSeeker {
        application := application.(deletedBy := application.deletedBy.(jobSeeker := true));
        records := records[i := application];
      } else if role == Employer {
        application := application.(deletedBy := application.deletedBy.(employer := true));
        records := records[i := application];
      } else {
        assert records == before[i := application];
      }
      assert application == before[i].(deletedBy := MarkWithdrawn(before[i].deletedBy, role));
      if application.deletedBy.employer && application.deletedBy.jobSeeker {
        RemoveAfterUpdate(before, i, application);
        records := RemoveAt(records, i);
      }
      r := Ok(());
    }
  }
}
