# Job portal backend: a verified model of the controllers

This project models the three controllers of a job-board backend. Each one
works over its own document collection:

- **Jobs**: employers post jobs. The public can search them by city,
  category and keyword. An employer lists and deletes their own jobs.
- **Users**: people register (optionally uploading a résumé) and log in.
  They can update their profile, replacing the résumé, and change their
  password.
- **Applications**: a job seeker applies to a job. The résumé is a fresh
  upload or the one stored on their profile. Each party lists the
  applications it has not withdrawn from. Either party can withdraw. An
  application carries one soft-delete flag per party. It is removed by the
  withdrawal that sets the second flag.

Every request is one atomic step. A collection is a `seq` of records in
insertion order, held by a class (`JobStore`, `UserStore`,
`ApplicationLedger`). A `nextId` counter stands for the store's id
allocation. The store's own query operations are generic functions in
`Query` (`query.dfy`):
- `FindFirst`/`FindKey` stand for `findOne`/`findById`;
- `Select` stands for `find`;
- `RemoveAt` stands for `deleteOne`.

Request fields are strings. An absent field is `""`, which is falsy, as in
JavaScript.

Three collaborators are parameters:
- the blob store's answer to an upload is an `UploadOutcome` (`Uploaded(id, url)` or `UploadFailed`);
- the password comparison is a relation `matches(candidate, stored)`;
- the case-insensitive keyword match is a relation `matches(pattern, text)`.

Files:
- `common.dfy`: ids, failures, truthiness, résumé references.
- `query.dfy`: the generic collection functions.
- `jobs.dfy`, `users.dfy`, `applications.dfy`: one module per controller.
- `scenarios.dfy`: client methods that assert what the contracts give a
  caller. They cover duplicates, withdrawal by the employer (twice) and then the seeker (the
  opposite order is proved in `Applications.WithdrawBothOrdersDestroy`), reapplying,
  upload on submit, the snapshot surviving a profile edit, and the order of
  résumé replacement.

Where the code and the design intent differ, the model follows the code:

- Withdrawal never compares the actor with the application's seeker or
  employer. Only the actor's role string chooses the flag. So any job
  seeker can set the seeker flag of any application. `Withdraw` takes no
  actor at all. This is listed under Findings.
- An unrecognised role changes nothing and still answers success.
- The profile update destroys the old résumé blob *before* uploading the
  new one. If that upload fails, the request fails, and the profile still
  points at the destroyed blob (`Scenarios.ResumeReplacementOrder`).
- The website check on job posting refuses only "title without URL". The
  password change refuses a *matching* old password. Both are listed under
  Findings.

## Model

| member | source | states |
|---|---|---|
| `Query.FindFirst` | Backend/controllers/applicationController.js:37-40 | findOne: a found position holds a document the filter accepts and no earlier one does; nothing is found exactly when no document is accepted |
| `Query.FindKey` | Backend/controllers/applicationController.js:136 | findById/findOne on one key: a found position holds that key; nothing is found exactly when no document holds it |
| `Query.Select` | Backend/controllers/applicationController.js:109-112 | find: the result holds each document the filter accepts as often as the collection does, and nothing else |
| `Query.RemoveAt` | Backend/controllers/applicationController.js:160 | deleteOne: the collection loses exactly the document at that position; order is kept |
| `Query.SelectAppend` | Backend/controllers/applicationController.js:92-96 | a created document is added to the end of every find result whose filter it passes; other results are unchanged |
| `Query.SelectAll` | Backend/controllers/jobController.js:77-91 | an empty query matches every document, so find returns the whole collection |
| `Query.FindByUniqueKey` | Backend/controllers/jobController.js:122 | when keys are unique, the lookup by a stored document's key finds that document |
| `Query.RemovedKeyGone` | Backend/controllers/applicationController.js:160 | when keys are unique, a removed document's key is no longer found |
| `Jobs.JobStore.PostJob` | Backend/controllers/jobController.js:5-69 | missing title, jobType, location, companyName, introduction, responsibilities, qualifications, salary or jobCategory gives 400 "All fields are required"; a website title without a URL gives 400; both failures leave the store unchanged; success appends exactly one job with a fresh id, every form field, the website pair as sent and postedBy equal to the actor |
| `Jobs.WebsiteCheckDecision` | Backend/controllers/jobController.js:34-37 | the website guard as written refuses exactly "title present and URL absent" |
| `Jobs.WebsiteUrlWithoutTitleAccepted` | Backend/controllers/jobController.js:34-44 | a URL sent without a title passes the guard, although its message asks for both or neither |
| `Jobs.WebsitePairingIntended` | Backend/controllers/jobController.js:38-43 | the guard the message describes refuses both one-sided pairs: the written one plus "URL without title" |
| `Jobs.BuildJobQuery` | Backend/controllers/jobController.js:76-90 | the query has a location key exactly when a city is given, a category key exactly when a category is given, and a keyword key exactly when a keyword is given; a job matches it exactly when it satisfies every given condition |
| `Jobs.JobStore.GetAllJobs` | Backend/controllers/jobController.js:75-97 | returns exactly the stored jobs that satisfy every given parameter: location equals the city, jobCategory equals the category, the keyword matches the title, companyName or introduction; each matching job appears as often as it is stored and no other job appears, so count is the number of matching stored jobs; with no parameters, all jobs in order |
| `Jobs.MyJobs` | Backend/controllers/jobController.js:98-104 | exactly the stored jobs whose postedBy is the actor, with their multiplicity |
| `Jobs.JobStore.DeleteJob` | Backend/controllers/jobController.js:105-119 | an unknown id gives 404; a job posted by someone else gives 403; both leave the store unchanged; otherwise exactly that job is removed and every other job stays, in order |
| `Jobs.SingleJob` | Backend/controllers/jobController.js:120-132 | 404 "Job not found" exactly when no job has the id; otherwise a stored job with that id |
| `Jobs.SingleJobReturnsStored` | Backend/controllers/jobController.js:120-132 | with unique ids, the single-job view of a stored job's id returns that job unchanged |
| `Users.UserStore.Register` | Backend/controllers/userController.js:20-104 | checks in this order: a missing name, email, phone, address, password or role gives 400; a "Job Seeker" without all three categories gives 400; an already registered email gives 400; an upload failure gives 500; every failure leaves the store unchanged; success appends exactly one user with the form's fields and the uploaded résumé, if any; registration keeps emails unique |
| `Users.Login` | Backend/controllers/userController.js:108-130 | a missing role, email or password gives 400 first; an unknown email gives 400 next; success only for a stored user with that email whose password matches and whose role is the one claimed |
| `Users.LoginOfFoundUser` | Backend/controllers/userController.js:115-129 | in every state, a login with all credentials and a known email is decided by the first user with that email: success when the password matches and the role agrees, otherwise the wrong-password or wrong-role message |
| `Users.LoginOfStoredUser` | Backend/controllers/userController.js:115-129 | with unique emails, a stored user logs in exactly when the password matches and the role agrees; a wrong password and a wrong role each get their own message |
| `Users.UserStore.UpdateProfile` | Backend/controllers/userController.js:152-204 | a "Job Seeker" missing a category gives 400, with no blob calls; with a résumé file, the old blob (if any) is destroyed before the upload; a refused destroy fails with 500 before any upload; an upload failure leaves the user record unchanged, and so does a refused destroy; success replaces only the contact fields, CV, categories and, after an upload, the résumé |
| `Users.UserStore.UpdatePassword` | Backend/controllers/userController.js:206-220 | a matching old password gives 400 "Old password is incorrect." (the guard is inverted, as written); otherwise differing new and confirm passwords give 400; otherwise only the password changes; emails stay unique |
| `Users.PasswordChangeGuardInverted` | Backend/controllers/userController.js:209-212 | the written guard refuses the correct old password and accepts a wrong one |
| `Users.IntendedPasswordChangeRefusal` | Backend/controllers/userController.js:209-215 | the guard its message describes allows the change exactly when the old password matches and the two new ones agree |
| `Applications.ApplicationLedger.PostApplication` | Backend/controllers/applicationController.js:12-104 | checks in this order: a missing name, email, phone, address or CV gives 400; an unknown job gives 404; an earlier application for the same job and seeker (withdrawn or not) gives 400; an upload failure gives 500; no file and no stored résumé URL gives 400; every failure stores nothing; success appends exactly one record with the seeker snapshot and role "Job Seeker", the uploaded or stored résumé, the job's owner as employer, the job's id and title, and no flag set |
| `Applications.SubmitKeepsWellFormed` | Backend/controllers/applicationController.js:37-44 | a record appended after the duplicate check keeps at most one application per (job, seeker), unique ids, and no record with both flags set |
| `Applications.SubmissionVisibleToBothParties` | Backend/controllers/applicationController.js:106-126 | a new application appears at the end of its employer's and its seeker's lists; no other party's list changes |
| `Applications.EmployerApplications` | Backend/controllers/applicationController.js:106-118 | exactly the records whose employer is the actor and whose employer flag is unset, with their multiplicity |
| `Applications.SeekerApplications` | Backend/controllers/applicationController.js:120-132 | exactly the records whose seeker is the actor and whose seeker flag is unset, with their multiplicity |
| `Applications.ApplicationLedger.EmployerGetAllApplication` | Backend/controllers/applicationController.js:106-118 | returns the employer's list and changes nothing |
| `Applications.ApplicationLedger.JobSeekerGetAllApplication` | Backend/controllers/applicationController.js:120-132 | returns the seeker's list and changes nothing |
| `Applications.Withdraw` | Backend/controllers/applicationController.js:134-166 | the withdrawal answers 404 "Application not found." exactly when no record has the id, and then changes nothing; otherwise it removes at most one record and adds none with another id |
| `Applications.ApplicationLedger.DeleteApplication` | Backend/controllers/applicationController.js:134-166 | an unknown id gives 404 and changes nothing; otherwise the new collection and the answer are exactly those of the withdrawal function; the ledger invariant is kept |
| `Applications.WithdrawFollowsStateMachine` | Backend/controllers/applicationController.js:141-161 | withdrawal moves the application along the table Active, WithdrawnBySeeker, WithdrawnByEmployer, Destroyed: the other party's withdrawal destroys it, and the same party or an unknown role leaves the state as it was; the answer is 404 exactly when there is no record |
| `Applications.WithdrawTouchesOnlyTarget` | Backend/controllers/applicationController.js:141-161 | every other record stays and nothing new appears; the target, if it stays, differs only in the acting role's flag; it is removed exactly when both flags are then set |
| `Applications.WithdrawKeepsWellFormed` | Backend/controllers/applicationController.js:156-161 | withdrawal keeps ids and (job, seeker) pairs unique and never leaves a record with both flags set |
| `Applications.WithdrawIdempotent` | Backend/controllers/applicationController.js:141-154 | withdrawing twice with the same role gives the same collection as once; the second call still succeeds unless the first destroyed the record |
| `Applications.WithdrawBothOrdersDestroy` | Backend/controllers/applicationController.js:156-161 | seeker then employer and employer then seeker both end with exactly that record removed, the same collection either way |
| `Applications.WithdrawByStranger` | Backend/controllers/applicationController.js:134-161 | as written, once the employer has withdrawn, a job seeker who is not the applicant destroys the application; the party check refuses that caller with 403 and keeps the record |
| `Applications.PartyWithdraw` | Backend/controllers/applicationController.js:134-161 | the corrected withdrawal: any refusal leaves the collection unchanged |
| `Applications.PartyWithdrawIntended` | Backend/controllers/applicationController.js:140-161 | with the party check, a caller who is not the party its role names gets 403 exactly when the record exists, and changes nothing; a party's request is exactly the ordinary withdrawal |
| `Applications.ReapplyAfterBothWithdraw` | Backend/controllers/applicationController.js:37-44 | once both parties have withdrawn, the duplicate check no longer finds the (job, seeker) pair |
| `Applications.WithdrawHidesFromOwnList` | Backend/controllers/applicationController.js:122-126 | after a party withdraws, its own list no longer shows the application; the other party's list still shows it until that party withdraws too |

## Left out

- The server setup in `Backend/app.js` is not modelled: CORS, cookies, body parsing, configuration loading, the blob-store credentials, the newsletter job and the database connection. None of it has behaviour to state.
- The route wiring in `Backend/routes/userRouter.js` is not modelled, including the second registration of the register route.
- `frontend/src/pages/Home.jsx` is page layout only.
- The token issued at login and after a password change, its cookie, `logout` and `getUser` are not modelled. They only shape the HTTP response; the model returns the user record instead.
- File streaming, the upload folder name and the transport to the blob store are not modelled. An upload is its outcome only.
- Password hashing is not modelled. The comparison is an abstract relation, and a new password is stored as given.
- The store's regular-expression matching is an abstract relation on (keyword, text).
- The schemas are not part of this model, so their defaults and validators are not modelled. A new application starts with both flags unset. A user without an uploaded résumé holds an empty reference.
- Concurrency and the async steps are not modelled. Each request is one sequential step.
- `Applications.ApplicationLedger.PostApplication`: an upload failure is one outcome with the message "Failed to upload resume". The source has a second 500 path, for a response that carries an error field. It uses the message "Failed to upload resume to cloudinary.".
- `Users.UserStore.UpdateProfile`: an upload failure answers 500 "Internal Server Error". The thrown error's own message is not modelled. Fields absent from the body are written as empty strings. The store's update validators are not modelled. The email is not checked for uniqueness, so this member does not promise `EmailsUnique`.
- `Users.UserStore.Register`: errors raised by the store on insertion are not modelled. These are the ones the outer catch forwards.
- `Users.UserStore.UpdateProfile`: a refused destroy answers 500 "Internal Server Error", like a failed upload. The status and message the error middleware derives from the thrown error are not modelled, since the middleware is not part of this model.
- Ids are `nat`, so a malformed id in the request path cannot be represented. The store's cast failure on `findById` is not modelled: `Jobs.JobStore.DeleteJob`, `Jobs.SingleJob`, `Applications.ApplicationLedger.PostApplication` and `Applications.ApplicationLedger.DeleteApplication` answer 404 for every id that no record holds. The source would fail otherwise for an id it cannot cast.
- Store failures outside registration are not modelled. Every `create`, `save`, `findByIdAndUpdate` and `deleteOne` succeeds. This covers `Jobs.JobStore.PostJob`, `Applications.ApplicationLedger.PostApplication`, `Users.UserStore.UpdateProfile`, `Users.UserStore.UpdatePassword` and `Applications.ApplicationLedger.DeleteApplication`.
- `Applications.ApplicationLedger.DeleteApplication`: because `deleteOne` always succeeds, the model never keeps a record with both flags set. In the source, a `deleteOne` that fails after the save leaves such a record stored. `Applications.WellFormed` rules that state out, so it holds only under this assumption.
- `Jobs.JobStore.GetAllJobs`: the keyword match is a total relation. A keyword that is not a valid regular expression makes the source's `find` fail, and that failure is not modelled.
- `Users.UserStore.UpdateProfile` and `Users.UserStore.UpdatePassword` require the acting user to be stored. The authentication middleware loads that user before the handler runs.

## Findings

| source | as written | input that shows it | evidently intended | confidence | as-written member | corrected member |
|---|---|---|---|---|---|---|
| Backend/controllers/jobController.js:34-44 | both disjuncts of the website guard test "title present, URL absent" | website title "" with URL "https://example.org" is accepted | refuse when exactly one of title and URL is given, as the message says | high (not executed) | `Jobs.WebsiteCheckRejects`, shown by `Jobs.WebsiteUrlWithoutTitleAccepted` | `Jobs.WebsitePairingMismatch`, proved in `Jobs.WebsitePairingIntended` |
| Backend/controllers/applicationController.js:140-161 | the flag set is chosen by the caller's role only; the caller is never compared with the application's seeker or employer | an application its employer has withdrawn from, deleted by a different job seeker, is destroyed | only the application's own seeker or employer may set their flag; others are refused | medium (not executed) | `Applications.Withdraw`, shown by `Applications.WithdrawByStranger` | `Applications.PartyWithdraw`, proved in `Applications.PartyWithdrawIntended` |
| Backend/controllers/userController.js:209-212 | the change is refused when the old password matches | the correct old password p with new = confirm = q is refused; a wrong old password is accepted | refuse when the old password does not match | high (not executed) | `Users.PasswordChangeRefusal`, shown by `Users.PasswordChangeGuardInverted` | `Users.IntendedPasswordChangeRefusal` |

In every row, the store operations (`JobStore.PostJob`, `UserStore.UpdatePassword`, `ApplicationLedger.DeleteApplication`) keep the behaviour as written, because the model reproduces the controllers. The corrected definitions stand beside them with their properties proved.
