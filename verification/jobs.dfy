/**
 The job controller: posting a job, the public job search, an employer's
 own jobs, deleting a job and fetching one job, over the job collection.
 */
module Jobs {
  import opened Common
  import opened Query

  datatype Website = Website(title: string, url: string)

  /** A stored job posting. */
  datatype Job = Job(
    id: Id,
    title: string,
    jobType: string,
    location: string,
    companyName: string,
    introduction: string,
    responsibilities: string,
    qualifications: string,
    offers: string,
    salary: string,
    hiringMultipleCandidates: string,
    personalWebsite: Website,
    jobCategory: string,
    postedBy: Id)

  /** The body of a job-posting request. */
  datatype JobForm = JobForm(
    title: string,
    jobType: string,
    location: string,
    companyName: string,
    introduction: string,
    responsibilities: string,
    qualifications: string,
    offers: string,
    salary: string,
    hiringMultipleCandidates: string,
    personalWebsiteTitle: string,
    personalWebsiteUrl: string,
    jobCategory: string)

  const AllFieldsRequired: string := "All fields are required"
  const WebsitePairRequired: string := "Provide both the website url and title, or leave both blank."
  const JobNotFound: string := "Job not found"
  const DeleteNotFound: string := "Oops! Job not found."
  const NotJobOwner: string := "You are not authorized to delete this job"

  function JobId(j: Job): (r: Id) { j.id }

  /** Job.findById: the position of the job with this id. */
  function JobIndex(jobs: seq<Job>, id: Id): (r: Option<nat>) {
    FindKey(jobs, JobId, id)
  }

  /** The nine fields a posting cannot do without; offers,
      hiringMultipleCandidates and the website are optional. */
  predicate RequiredFieldsPresent(f: JobForm) {
    && Present(f.title) && Present(f.jobType) && Present(f.location)
    && Present(f.companyName) && Present(f.introduction)
    && Present(f.responsibilities) && Present(f.qualifications)
    && Present(f.salary) && Present(f.jobCategory)
  }

  /** The website guard as the controller writes it: both disjuncts are
      the same clause, so only "title without URL" is caught. */
  predicate WebsiteCheckRejects(title: string, url: string) {
    (Present(title) && !Present(url)) || (Present(title) && !Present(url))
  }

  /** What the guard decides, in one line: only a title without a URL is refused. */
  lemma WebsiteCheckDecision(title: string, url: string)
    ensures WebsiteCheckRejects(title, url) <==> Present(title) && !Present(url)
  {
  }

  /** A URL sent without a title passes, although the error message asks
      for both or neither. */
  lemma WebsiteUrlWithoutTitleAccepted()
    ensures !WebsiteCheckRejects("", "https://example.org")
  {
  }

  /** The guard the message describes: the title and the URL must be
      given together or not at all. */
  predicate WebsitePairingMismatch(title: string, url: string) {
    Present(title) != Present(url)
  }

  /** The intended guard refuses both one-sided cases and is the written
      guard plus the "URL without title" case. */
  lemma WebsitePairingIntended(title: string, url: string)
    ensures WebsitePairingMismatch(title, url) <==>
              WebsiteCheckRejects(title, url) || (Present(url) && !Present(title))
  {
  }

  /** The stored job carries every field of the form, the website pair as
      sent, and the poster as its owner. */
  predicate PostedFrom(j: Job, f: JobForm, actor: Id) {
    && j.title == f.title && j.jobType == f.jobType && j.location == f.location
    && j.companyName == f.companyName && j.introduction == f.introduction
    && j.responsibilities == f.responsibilities && j.qualifications == f.qualifications
    && j.offers == f.offers && j.salary == f.salary
    && j.hiringMultipleCandidates == f.hiringMultipleCandidates
    && j.personalWebsite == Website(f.personalWebsiteTitle, f.personalWebsiteUrl)
    && j.jobCategory == f.jobCategory && j.postedBy == actor
  }

  /** The search a keyword runs: a case-insensitive match on the title,
      the company name or the introduction. `matches(pattern, text)` is the
      store's case-insensitive pattern match, left abstract. */
  predicate KeywordHit(matches: (string, string) -> bool, keyword: string, j: Job) {
    matches(keyword, j.title) || matches(keyword, j.companyName) || matches(keyword, j.introduction)
  }

  /** The query document built by the job search: each key is set only
      when its request parameter was given. */
  datatype JobQuery = JobQuery(location: Option<string>, jobCategory: Option<string>, keyword: Option<string>)

  /** How the store evaluates a query document: every key that is set must
      hold (an implicit conjunction); the keyword key is itself a disjunction. */
  predicate MatchesQuery(q: JobQuery, matches: (string, string) -> bool, j: Job) {
    && (q.location.Some? ==> j.location == q.location.value)
    && (q.jobCategory.Some? ==> j.jobCategory == q.jobCategory.value)
    && (q.keyword.Some? ==> KeywordHit(matches, q.keyword.value, j))
  }

  /** The jobs the search promises for the given parameters. */
  predicate Wanted(city: string, category: string, keyword: string,
                   matches: (string, string) -> bool, j: Job) {
    && (Present(city) ==> j.location == city)
    && (Present(category) ==> j.jobCategory == category)
    && (Present(keyword) ==> KeywordHit(matches, keyword, j))
  }

  /** Builds the query document key by key, as the search handler does. */
  method BuildJobQuery(city: string, category: string, searchKeyword: string,
                       ghost matches: (string, string) -> bool)
    returns (q: JobQuery)
    ensures forall j :: MatchesQuery(q, matches, j) <==> Wanted(city, category, searchKeyword, matches, j)
    ensures q.location.Some? <==> Present(city)
    ensures q.jobCategory.Some? <==> Present(category)
    ensures q.keyword.Some? <==> Present(searchKeyword)
  {
    q := JobQuery(None, None, None);
    if Present(city) {
      q := q.(location := Some(city));
    }
    if Present(category) {
      q := q.(jobCategory := Some(category));
    }
    if Present(searchKeyword) {
      q := q.(keyword := Some(searchKeyword));
    }
  }

  /** Job.find({ postedBy: actor }): the jobs this employer posted. */
  function MyJobs(jobs: seq<Job>, actor: Id): (r: seq<Job>)
    ensures forall j :: j in r <==> j in jobs && j.postedBy == actor
    ensures forall j :: multiset(r)[j] == if j.postedBy == actor then multiset(jobs)[j] else 0
  {
    Select(jobs, (j: Job) => j.postedBy == actor)
  }

  /** Job.findById for the single-job view. */
  function SingleJob(jobs: seq<Job>, id: Id): (r: Outcome<Job>)
    ensures r.Ok? ==> r.value in jobs && r.value.id == id
    ensures r.Fail? <==> forall j :: j in jobs ==> j.id != id
    ensures r.Fail? ==> r.failure == Failure(404, JobNotFound)
  {
    match JobIndex(jobs, id)
    case None => Fail(Failure(404, JobNotFound))
    case Some(i) => Ok(jobs[i])
  }

  /** A stored job is what the single-job view returns for its id. */
  lemma SingleJobReturnsStored(jobs: seq<Job>, i: nat)
    requires i < |jobs| && UniqueKeys(jobs, JobId)
    ensures SingleJob(jobs, jobs[i].id) == Ok(jobs[i])
  {
    FindByUniqueKey(jobs, i, JobId);
  }

  /** The job collection. */
  class JobStore {
    var jobs: seq<Job>
    var nextId: Id

    ghost predicate Valid()
      reads this
    {
      UniqueKeys(jobs, JobId) && KeysBelow(jobs, JobId, nextId)
    }

    constructor ()
      ensures Valid() && jobs == []
    {
      jobs := [];
      nextId := 0;
    }

    /** Validates the form and inserts one job owned by the actor. */
    method PostJob(actor: Id, f: JobForm) returns (r: Outcome<Job>)
      requires Valid()
      modifies this
      ensures Valid()
      ensures !RequiredFieldsPresent(f) ==> r == Fail(Failure(400, AllFieldsRequired))
      ensures RequiredFieldsPresent(f) && WebsiteCheckRejects(f.personalWebsiteTitle, f.personalWebsiteUrl) ==>
                r == Fail(Failure(400, WebsitePairRequired))
      ensures r.Ok? <==> RequiredFieldsPresent(f) && !WebsiteCheckRejects(f.personalWebsiteTitle, f.personalWebsiteUrl)
      ensures r.Fail? ==> jobs == old(jobs) && nextId == old(nextId)
      ensures r.Ok? ==> PostedFrom(r.value, f, actor) && r.value.id == old(nextId)
      ensures r.Ok? ==> jobs == old(jobs) + [r.value] && nextId == old(nextId) + 1
      ensures r.Ok? ==> forall j :: j in old(jobs) ==> j.id != r.value.id
    {
      if !RequiredFieldsPresent(f) {
        return Fail(Failure(400, AllFieldsRequired));
      }
      if WebsiteCheckRejects(f.personalWebsiteTitle, f.personalWebsiteUrl) {
        return Fail(Failure(400, WebsitePairRequired));
      }
      var job := Job(nextId, f.title, f.jobType, f.location, f.companyName, f.introduction,
                     f.responsibilities, f.qualifications, f.offers, f.salary,
                     f.hiringMultipleCandidates, Website(f.personalWebsiteTitle, f.personalWebsiteUrl),
                     f.jobCategory, actor);
      AppendFreshKey(jobs, job, JobId, nextId);
      jobs := jobs + [job];
      nextId := nextId + 1;
      r := Ok(job);
    }

    /** The public job search: the jobs that satisfy every parameter given,
        and their number. */
    method GetAllJobs(city: string, category: string, searchKeyword: string,
                      matches: (string, string) -> bool)
      returns (found: seq<Job>, count: nat)
      ensures count == |found|
      ensures forall j :: j in found <==> j in jobs && Wanted(city, category, searchKeyword, matches, j)
      ensures forall j :: multiset(found)[j] ==
                if Wanted(city, category, searchKeyword, matches, j) then multiset(jobs)[j] else 0
      ensures !Present(city) && !Present(category) && !Present(searchKeyword) ==> found == jobs
    {
      var q := BuildJobQuery(city, category, searchKeyword, matches);
      found := Select(jobs, (j: Job) => MatchesQuery(q, matches, j));
      count := |found|;
      if !Present(city) && !Present(category) && !Present(searchKeyword) {
        SelectAll(jobs, (j: Job) => MatchesQuery(q, matches, j));
      }
    }

    /** Deletes a job; only the employer who posted it may. */
    method DeleteJob(actor: Id, id: Id) returns (r: Outcome<()>)
      requires Valid()
      modifies this
      ensures Valid() && nextId == old(nextId)
      ensures (forall j :: j in old(jobs) ==> j.id != id) ==> r == Fail(Failure(404, DeleteNotFound))
      ensures forall j :: j in old(jobs) && j.id == id && j.postedBy != actor ==> r == Fail(Failure(403, NotJobOwner))
      ensures r.Fail? ==> jobs == old(jobs)
      ensures r.Ok? <==> exists j :: j in old(jobs) && j.id == id && j.postedBy == actor
      ensures r.Ok? ==> JobIndex(old(jobs), id).Some? && jobs == RemoveAt(old(jobs), JobIndex(old(jobs), id).value)
      ensures r.Ok? ==> forall j :: j in jobs <==> j in old(jobs) && j.id != id
    {
      var idx := JobIndex(jobs, id);
      if idx.None? {
        return Fail(Failure(404, DeleteNotFound));
      }
      var i := idx.value;
      FindByUniqueKey(jobs, i, JobId);
      if jobs[i].postedBy != actor {
        return Fail(Failure(403, NotJobOwner));
      }
      ghost var before := jobs;
      RemoveKeepsKeys(jobs, i, JobId, nextId);
      jobs := RemoveAt(jobs, i);
      r := Ok(());
      forall j ensures j in jobs <==> j in before && j.id != id {
        if j in before && j.id != id {
          var k :| 0 <= k < |before| && before[k] == j;
          assert k != i;
          assert jobs[if k < i then k else k - 1] == j;
        }
      }
    }
  }
}
