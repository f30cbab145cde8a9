/**
 Shared vocabulary of the job-portal controllers: identifiers, HTTP-style
 failures, JavaScript truthiness on request fields, résumé references and
 the outcome of a blob-store upload.
 */
module Common {

  /** A document identifier (a Mongo ObjectId). */
  type Id = nat

  datatype Option<T> = None | Some(value: T)

  /** An error handed to the error middleware: HTTP status and message. */
  datatype Failure = Failure(status: nat, message: string)

  /** What a controller answers: a value, or a failure. */
  datatype Outcome<T> = Ok(value: T) | Fail(failure: Failure)

  /** A request field is truthy when it was sent and is not the empty
      string; an absent field is modelled as "". */
  predicate Present(s: string) {
    s != ""
  }

  /** The role strings the controllers compare against. */
  const JobSeeker: string := "Job Seeker"
  const Employer: string := "Employer"

  /** A stored document in the blob store: its public id and its URL.
      An identity that never uploaded a résumé holds ResumeRef("", ""). */
  datatype ResumeRef = ResumeRef(publicId: string, url: string)

  const NoResume: ResumeRef := ResumeRef("", "")

  /** What the blob store answered to an upload of the request's file. */
  datatype UploadOutcome = Uploaded(publicId: string, secureUrl: string) | UploadFailed

  /** The reference a successful upload yields. */
  function UploadedRef(u: UploadOutcome): (r: ResumeRef)
    requires u.Uploaded?
  {
    ResumeRef(u.publicId, u.secureUrl)
  }
}
