/**
 Clients of the three stores. Each method drives a short sequence of
 requests and asserts what the contracts alone let a caller conclude.
 */
module Scenarios {
  import opened Common
  import opened Query
  import opened Jobs
  import opened Users
  import opened Applications

  function SampleJobForm(): JobForm {
    JobForm("Backend Engineer", "Full-time", "Pune", "Acme", "We build things.", "Write services.",
            "Two years of experience.", "", "50000", "", "", "", "IT")
  }

  function SampleSeeker(id: Id, resume: ResumeRef): User {
    User(id, "Asha", "asha@example.org", "5550100", "1 Main Street", "secret", JobSeeker,
         Categories("IT", "Design", "Sales"), "cv", resume)
  }

  function SampleApplicationForm(): ApplicationForm {
    ApplicationForm("Asha", "asha@example.org", "5550100", "1 Main Street", "cv")
  }

  /** Apply with the stored résumé, then apply again: the second
      application is refused as a duplicate and stores nothing. */
  method DuplicateRefused() {
    var jobs := new JobStore();
    var ledger := new ApplicationLedger();
    var posted := jobs.PostJob(7, SampleJobForm());
    var job := posted.value;
    assert JobIndex(jobs.jobs, job.id) == Some(0);

    var me := SampleSeeker(3, ResumeRef("r1", "https://cdn.example.org/r1"));
    var form := SampleApplicationForm();
    assert FindKey([], PairOf, (job.id, me.id)) == None;
    var first := ledger.PostApplication(job.id, me, form, None, jobs);
    var app := first.value;
    assert app.jobSeekerInfo.resume == me.resume;
    assert app.employerInfo.id == 7 && app.deletedBy == DeletedBy(false, false);

    assert PairOf(ledger.records[0]) == (job.id, me.id);
    var second := ledger.PostApplication(job.id, me, form, None, jobs);
    assert second == Fail(Failure(400, AlreadyApplied));
    assert ledger.records == [app];
  }

  /** The employer withdraws twice (the second call changes nothing), the
      seeker withdraws (the record is destroyed), and the seeker can apply
      to the same job again. */
  method WithdrawalLifecycle(ledger: ApplicationLedger, jobs: JobStore, me: User, jobId: Id)
    requires ledger.Valid() && ledger.records == []
    requires JobIndex(jobs.jobs, jobId).Some? && Present(me.resume.url)
    modifies ledger
  {
    var form := SampleApplicationForm();
    assert FindKey([], PairOf, (jobId, me.id)) == None;
    var first := ledger.PostApplication(jobId, me, form, None, jobs);
    var app := first.value;
    var flagged := app.(deletedBy := DeletedBy(false, true));

    assert app.deletedBy == DeletedBy(false, false);
    assert |Employer| != |JobSeeker|;
    assert MarkWithdrawn(app.deletedBy, Employer) == DeletedBy(false, true);
    assert FindKey([app], AppId, app.id) == Some(0);
    assert [app][0 := flagged] == [flagged];
    assert Withdraw([app], app.id, Employer) == (Ok(()), [flagged]);
    var w1 := ledger.DeleteApplication(app.id, Employer);
    assert EmployerApplications(ledger.records, app.employerInfo.id) == [];

    assert FindKey([flagged], AppId, app.id) == Some(0);
    assert [flagged][0 := flagged] == [flagged];
    assert Withdraw([flagged], app.id, Employer) == (Ok(()), [flagged]);
    var w2 := ledger.DeleteApplication(app.id, Employer);
    assert w2 == Ok(()) && ledger.records == [flagged];

    assert Withdraw([flagged], app.id, JobSeeker) == (Ok(()), []);
    var w3 := ledger.DeleteApplication(app.id, JobSeeker);
    assert w3 == Ok(()) && ledger.records == [];

    var third := ledger.PostApplication(jobId, me, form, None, jobs);
    assert third.Ok?;
  }

  /** A seeker without a stored résumé must upload one; the uploaded
      reference goes on the application and the profile keeps none. */
  method UploadOnSubmit() {
    var jobs := new JobStore();
    var ledger := new ApplicationLedger();
    var posted := jobs.PostJob(7, SampleJobForm());
    var job := posted.value;
    assert JobIndex(jobs.jobs, job.id) == Some(0);
    var me := SampleSeeker(3, NoResume);
    var form := SampleApplicationForm();
    assert FindKey([], PairOf, (job.id, me.id)) == None;

    var without := ledger.PostApplication(job.id, me, form, None, jobs);
    assert without == Fail(Failure(400, ResumeRequired));
    var failed := ledger.PostApplication(job.id, me, form, Some(UploadFailed), jobs);
    assert failed.Fail? && ledger.records == [];

    var uploaded := ledger.PostApplication(job.id, me, form, Some(Uploaded("r9", "https://cdn.example.org/r9")), jobs);
    assert uploaded.value.jobSeekerInfo.resume == ResumeRef("r9", "https://cdn.example.org/r9");
    assert me.resume == NoResume;
  }

  /** A profile edit after applying leaves the filed snapshot as it was. */
  method SnapshotIsolation() {
    var users := new UserStore();
    var jobs := new JobStore();
    var ledger := new ApplicationLedger();
    var registered := users.Register(
      RegisterForm("Asha", "asha@example.org", "5550100", "1 Main Street", "secret", JobSeeker,
                   "IT", "Design", "Sales", "cv"),
      Some(Uploaded("r1", "https://cdn.example.org/r1")));
    var me := registered.value;
    assert users.users == [me];
    var posted := jobs.PostJob(7, SampleJobForm());
    var job := posted.value;
    assert JobIndex(jobs.jobs, job.id) == Some(0);
    assert FindKey([], PairOf, (job.id, me.id)) == None;
    var filed := ledger.PostApplication(job.id, me, SampleApplicationForm(), None, jobs);
    assert ledger.records == [filed.value];

    assert UserIndex(users.users, me.id) == Some(0);
    var edited, calls := users.UpdateProfile(me.id,
      ProfileForm("Asha R", "asha@example.org", "5550100", "1 Main Street", "cv", "IT", "Design", "Sales"), None, true);
    assert edited.value.name == "Asha R" && calls == [];
    assert ledger.records == [filed.value] && filed.value.jobSeekerInfo.name == "Asha";
  }

  /** Replacing a stored résumé destroys the old blob before uploading; a
      failed upload leaves the profile pointing at the destroyed blob, and a
      refused destroy stops the request before any upload. */
  method ResumeReplacementOrder() {
    var users := new UserStore();
    var registered := users.Register(
      RegisterForm("Asha", "asha@example.org", "5550100", "1 Main Street", "secret", JobSeeker,
                   "IT", "Design", "Sales", "cv"),
      Some(Uploaded("r1", "https://cdn.example.org/r1")));
    var me := registered.value;
    assert UserIndex(users.users, me.id) == Some(0);
    var r, calls := users.UpdateProfile(me.id,
      ProfileForm("Asha", "asha@example.org", "5550100", "1 Main Street", "cv", "IT", "Design", "Sales"),
      Some(UploadFailed), true);
    assert r.Fail? && calls == [Destroy("r1"), Upload];
    assert users.users[0].resume.publicId == "r1";

    var refused, calls2 := users.UpdateProfile(me.id,
      ProfileForm("Asha", "asha@example.org", "5550100", "1 Main Street", "cv", "IT", "Design", "Sales"),
      Some(Uploaded("r2", "https://cdn.example.org/r2")), false);
    assert refused.Fail? && calls2 == [Destroy("r1")];
    assert users.users[0].resume.publicId == "r1";
  }
}
