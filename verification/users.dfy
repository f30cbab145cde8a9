/**
 The user controller: registration with an optional résumé upload, login,
 profile update with résumé replacement, and password change, over the
 user collection. Password hashing is the abstract relation
 `matches(candidate, stored)` standing for `comparePassword`.
 */
module Users {
  import opened Common
  import opened Query

  datatype Categories = Categories(firstCategory: string, secondCategory: string, thirdCategory: string)

  /** A stored user. */
  datatype User = User(
    id: Id,
    name: string,
    email: string,
    phone: string,
    address: string,
    password: string,
    role: string,
    category: Categories,
    CV: string,
    resume: ResumeRef)

  datatype RegisterForm = RegisterForm(
    name: string,
    email: string,
    phone: string,
    address: string,
    password: string,
    role: string,
    firstCategory: string,
    secondCategory: string,
    thirdCategory: string,
    CV: string)

  datatype LoginForm = LoginForm(role: string, email: string, password: string)

  datatype ProfileForm = ProfileForm(
    name: string,
    email: string,
    phone: string,
    address: string,
    CV: string,
    firstCategory: string,
    secondCategory: string,
    thirdCategory: string)

  /** A call the profile update makes on the blob store, in order. */
  datatype BlobCall = Destroy(publicId: string) | Upload

  const AllFieldsRequired: string := "All fields are required."
  const CategoriesRequired: string := "Please provide your preferred job categories."
  const EmailTaken: string := "Email is already registered"
  const UploadError: string := "An error occurred while uploading the resume"
  const CredentialsRequired: string := "Email , password and role are required."
  const UnknownEmail: string := "Invalid email or password. FROM EMAIL"
  const WrongPassword: string := "Invalid email or password. FROM PASSWORD"
  const WrongRole: string := "Invalid user role."
  const PreferencesRequired: string := "Please provide your all job prefrences."
  const InternalError: string := "Internal Server Error"
  const OldPasswordIncorrect: string := "Old password is incorrect."
  const PasswordsDiffer: string := "New password & confirm password do not match."

  function UserId(u: User): (r: Id) { u.id }
  function UserEmail(u: User): (r: string) { u.email }

  /** User.findById. */
  function UserIndex(users: seq<User>, id: Id): (r: Option<nat>) {
    FindKey(users, UserId, id)
  }

  /** User.findOne({ email }). */
  function EmailIndex(users: seq<User>, email: string): (r: Option<nat>) {
    FindKey(users, UserEmail, email)
  }

  predicate CategoriesComplete(c: Categories) {
    Present(c.firstCategory) && Present(c.secondCategory) && Present(c.thirdCategory)
  }

  predicate RegisterFieldsPresent(f: RegisterForm) {
    && Present(f.name) && Present(f.email) && Present(f.phone)
    && Present(f.address) && Present(f.password) && Present(f.role)
  }

  function FormCategories(f: RegisterForm): (r: Categories) {
    Categories(f.firstCategory, f.secondCategory, f.thirdCategory)
  }

  /** Only a job seeker must name three preferred categories. */
  predicate CategoriesAcceptable(role: string, c: Categories) {
    role == JobSeeker ==> CategoriesComplete(c)
  }

  /** The user a registration stores: every form field, and the uploaded
      résumé when a file was sent (no résumé otherwise). */
  predicate RegisteredFrom(u: User, f: RegisterForm, file: Option<UploadOutcome>) {
    && u.name == f.name && u.email == f.email && u.phone == f.phone
    && u.address == f.address && u.password == f.password && u.role == f.role
    && u.category == FormCategories(f) && u.CV == f.CV
    && u.resume == (if file.Some? && file.value.Uploaded? then UploadedRef(file.value) else NoResume)
  }

  /** The login chain: credentials present, a user with that email, the
      password matching, and the stored role equal to the claimed one,
      checked in that order; the first failing check answers. */
  function Login(users: seq<User>, f: LoginForm, matches: (string, string) -> bool): (r: Outcome<User>)
    ensures !(Present(f.role) && Present(f.email) && Present(f.password)) ==>
              r == Fail(Failure(400, CredentialsRequired))
    ensures Present(f.role) && Present(f.email) && Present(f.password) && (forall u :: u in users ==> u.email != f.email) ==>
              r == Fail(Failure(400, UnknownEmail))
    ensures r.Fail? ==> r.failure.status == 400
    ensures r.Ok? ==> r.value in users && r.value.email == f.email
    ensures r.Ok? ==> matches(f.password, r.value.password) && r.value.role == f.role
    ensures r.Ok? ==> Present(f.role) && Present(f.email) && Present(f.password)
  {
    if !Present(f.role) || !Present(f.email) || !Present(f.password) then
      Fail(Failure(400, CredentialsRequired))
    else match EmailIndex(users, f.email)
      case None => Fail(Failure(400, UnknownEmail))
      case Some(i) =>
        if !matches(f.password, users[i].password) then Fail(Failure(400, WrongPassword))
        else if users[i].role != f.role then Fail(Failure(400, WrongRole))
        else Ok(users[i])
  }

  /** In every state, a login with all credentials and a known email is
      decided by the first user holding that email: it succeeds when the
      password matches and the role is the one claimed, and a wrong
      password or a wrong role is refused with its own message. */
  lemma LoginOfFoundUser(users: seq<User>, f: LoginForm, matches: (string, string) -> bool)
    requires Present(f.email) && Present(f.role) && Present(f.password)
    requires EmailIndex(users, f.email).Some?
    ensures var u := users[EmailIndex(users, f.email).value];
            && u.email == f.email
            && (matches(f.password, u.password) && u.role == f.role ==> Login(users, f, matches) == Ok(u))
            && (!matches(f.password, u.password) ==> Login(users, f, matches) == Fail(Failure(400, WrongPassword)))
            && (matches(f.password, u.password) && u.role != f.role ==>
                  Login(users, f, matches) == Fail(Failure(400, WrongRole)))
  {
  }

  /** With unique emails, a stored user whose password matches and whose
      role is the one claimed logs in as that user; a wrong password or a
      wrong role is refused with its own message. */
  lemma LoginOfStoredUser(users: seq<User>, i: nat, f: LoginForm, matches: (string, string) -> bool)
    requires i < |users| && UniqueKeys(users, UserEmail)
    requires f.email == users[i].email && Present(f.email) && Present(f.role) && Present(f.password)
    ensures matches(f.password, users[i].password) && users[i].role == f.role ==>
              Login(users, f, matches) == Ok(users[i])
    ensures !matches(f.password, users[i].password) ==>
              Login(users, f, matches) == Fail(Failure(400, WrongPassword))
    ensures matches(f.password, users[i].password) && users[i].role != f.role ==>
              Login(users, f, matches) == Fail(Failure(400, WrongRole))
  {
    FindByUniqueKey(users, i, UserEmail);
    LoginOfFoundUser(users, f, matches);
  }

  /** The old-password guard of the password change as written: it refuses
      when the old password MATCHES. Returns the refusal, if any. */
  function PasswordChangeRefusal(oldMatches: bool, newPassword: string, confirmPassword: string): (r: Option<Failure>) {
    if oldMatches then Some(Failure(400, OldPasswordIncorrect))
    else if newPassword != confirmPassword then Some(Failure(400, PasswordsDiffer))
    else None
  }

  /** The written guard refuses a user who types the right old password and
      accepts one who types a wrong one. */
  lemma PasswordChangeGuardInverted(p: string)
    ensures PasswordChangeRefusal(true, p, p) == Some(Failure(400, OldPasswordIncorrect))
    ensures PasswordChangeRefusal(false, p, p) == None
  {
  }

  /** The guard its message describes: refuse when the old password does
      NOT match. */
  function IntendedPasswordChangeRefusal(oldMatches: bool, newPassword: string, confirmPassword: string): (r: Option<Failure>)
    ensures r.None? <==> oldMatches && newPassword == confirmPassword
    ensures !oldMatches ==> r == Some(Failure(400, OldPasswordIncorrect))
  {
    if !oldMatches then Some(Failure(400, OldPasswordIncorrect))
    else if newPassword != confirmPassword then Some(Failure(400, PasswordsDiffer))
    else None
  }

  /** The profile a successful update stores: the form's contact fields,
      CV and categories; the new résumé if one was uploaded; the id,
      password and role untouched. */
  predicate ProfileUpdatedFrom(u': User, u: User, f: ProfileForm, files: Option<UploadOutcome>) {
    && u'.id == u.id && u'.password == u.password && u'.role == u.role
    && u'.name == f.name && u'.email == f.email && u'.phone == f.phone
    && u'.address == f.address && u'.CV == f.CV
    && u'.category == Categories(f.firstCategory, f.secondCategory, f.thirdCategory)
    && u'.resume == (if files.Some? && files.value.Uploaded? then UploadedRef(files.value) else u.resume)
  }

  /** The user collection. */
  class UserStore {
    var users: seq<User>
    var nextId: Id

    ghost predicate Valid()
      reads this
    {
      UniqueKeys(users, UserId) && KeysBelow(users, UserId, nextId)
    }

    /** No two users share an email. Registration keeps this; the profile
        update does not check it. */
    ghost predicate EmailsUnique()
      reads this
    {
      UniqueKeys(users, UserEmail)
    }

    constructor ()
      ensures Valid() && EmailsUnique() && users == []
    {
      users := [];
      nextId := 0;
    }

    /** Registers a user: required fields, categories for a job seeker,
        a free email, then the optional résumé upload. */
    method Register(f: RegisterForm, file: Option<UploadOutcome>) returns (r: Outcome<User>)
      requires Valid()
      modifies this
      ensures Valid()
      ensures !RegisterFieldsPresent(f) ==> r == Fail(Failure(400, AllFieldsRequired))
      ensures RegisterFieldsPresent(f) && !CategoriesAcceptable(f.role, FormCategories(f)) ==>
                r == Fail(Failure(400, CategoriesRequired))
      ensures RegisterFieldsPresent(f) && CategoriesAcceptable(f.role, FormCategories(f))
              && (exists u :: u in old(users) && u.email == f.email) ==>
                r == Fail(Failure(400, EmailTaken))
      ensures RegisterFieldsPresent(f) && CategoriesAcceptable(f.role, FormCategories(f))
              && (forall u :: u in old(users) ==> u.email != f.email) && file == Some(UploadFailed) ==>
                r == Fail(Failure(500, UploadError))
      ensures r.Ok? <==> && RegisterFieldsPresent(f) && CategoriesAcceptable(f.role, FormCategories(f))
                         && (forall u :: u in old(users) ==> u.email != f.email)
                         && file != Some(UploadFailed)
      ensures r.Fail? ==> users == old(users) && nextId == old(nextId)
      ensures r.Ok? ==> RegisteredFrom(r.value, f, file) && r.value.id == old(nextId)
      ensures r.Ok? ==> users == old(users) + [r.value] && nextId == old(nextId) + 1
      ensures old(EmailsUnique()) ==> EmailsUnique()
    {
      if !RegisterFieldsPresent(f) {
        return Fail(Failure(400, AllFieldsRequired));
      }
      if f.role == JobSeeker && !CategoriesComplete(FormCategories(f)) {
        return Fail(Failure(400, CategoriesRequired));
      }
      if EmailIndex(users, f.email).Some? {
        return Fail(Failure(400, EmailTaken));
      }
      var resume := NoResume;
      if file.Some? {
        match file.value
        case UploadFailed =>
          return Fail(Failure(500, UploadError));
        case Uploaded(publicId, secureUrl) =>
          resume := ResumeRef(publicId, secureUrl);
      }
      var user := User(nextId, f.name, f.email, f.phone, f.address, f.password, f.role,
                       FormCategories(f), f.CV, resume);
      AppendFreshKey(users, user, UserId, nextId);
      users := users + [user];
      nextId := nextId + 1;
      r := Ok(user);
    }

    /** Updates the actor's profile. A job seeker must keep three
        categories. When a résumé file comes with the request, the old blob
        is destroyed first and the new file uploaded after; `calls` lists
        the blob-store calls in the order they are made. `destroyed` is the
        blob store's answer to the destroy call: a rejection fails the
        request before any upload, with the user record unchanged. The handler reads
        the multi-file request field while its route installs a single-file
        middleware that fills in the other one, so as wired `files` is
        always None; the parameter keeps the handler's own branch. */
    method UpdateProfile(actorId: Id, f: ProfileForm, files: Option<UploadOutcome>, destroyed: bool)
      returns (r: Outcome<User>, calls: seq<BlobCall>)
      requires Valid() && UserIndex(users, actorId).Some?
      modifies this
      ensures Valid() && nextId == old(nextId)
      ensures var me := old(users)[UserIndex(old(users), actorId).value];
              && (!CategoriesAcceptable(me.role, Categories(f.firstCategory, f.secondCategory, f.thirdCategory)) ==>
                    r == Fail(Failure(400, PreferencesRequired)) && calls == [])
              && (CategoriesAcceptable(me.role, Categories(f.firstCategory, f.secondCategory, f.thirdCategory)) ==>
                    calls == if files.None? then []
                             else if !Present(me.resume.publicId) then [Upload]
                             else if destroyed then [Destroy(me.resume.publicId), Upload]
                             else [Destroy(me.resume.publicId)])
              && (CategoriesAcceptable(me.role, Categories(f.firstCategory, f.secondCategory, f.thirdCategory))
                  && files.Some? && Present(me.resume.publicId) && !destroyed ==>
                    r == Fail(Failure(500, InternalError)))
              && (CategoriesAcceptable(me.role, Categories(f.firstCategory, f.secondCategory, f.thirdCategory))
                  && files == Some(UploadFailed) && (Present(me.resume.publicId) ==> destroyed) ==>
                    r == Fail(Failure(500, InternalError)))
              && (r.Ok? <==> CategoriesAcceptable(me.role, Categories(f.firstCategory, f.secondCategory, f.thirdCategory))
                             && files != Some(UploadFailed)
                             && (files.Some? && Present(me.resume.publicId) ==> destroyed))
              && (r.Fail? ==> users == old(users))
              && (r.Ok? ==> ProfileUpdatedFrom(r.value, me, f, files)
                            && users == old(users)[UserIndex(old(users), actorId).value := r.value])
    {
      var i := UserIndex(users, actorId).value;
      var me := users[i];
      var category := Categories(f.firstCategory, f.secondCategory, f.thirdCategory);
      if me.role == JobSeeker && !CategoriesComplete(category) {
        return Fail(Failure(400, PreferencesRequired)), [];
      }
      var resume := me.resume;
      calls := [];
      if files.Some? {
        if Present(me.resume.publicId) {
          calls := calls + [Destroy(me.resume.publicId)];
          if !destroyed {
            return Fail(Failure(500, InternalError)), calls;
          }
        }
        calls := calls + [Upload];
        match files.value
        case UploadFailed =>
          return Fail(Failure(500, InternalError)), calls;
        case Uploaded(publicId, secureUrl) =>
          resume := ResumeRef(publicId, secureUrl);
      }
      var updated := User(me.id, f.name, f.email, f.phone, f.address, me.password, me.role,
                          category, f.CV, resume);
      ghost var before := users;
      users := users[i := updated];
      assert forall k :: 0 <= k < |users| ==> UserId(users[k]) == UserId(before[k]);
      r := Ok(updated);
    }

    /** Changes the actor's password, with the old-password guard exactly as
        written: a MATCHING old password is refused. */
    method UpdatePassword(actorId: Id, oldPassword: string, newPassword: string, confirmPassword: string,
                          matches: (string, string) -> bool)
      returns (r: Outcome<User>)
      requires Valid() && UserIndex(users, actorId).Some?
      modifies this
      ensures Valid() && nextId == old(nextId)
      ensures var i := UserIndex(old(users), actorId).value;
              && (matches(oldPassword, old(users)[i].password) ==>
                    r == Fail(Failure(400, OldPasswordIncorrect)))
              && (!matches(oldPassword, old(users)[i].password) && newPassword != confirmPassword ==>
                    r == Fail(Failure(400, PasswordsDiffer)))
              && (r.Ok? <==> !matches(oldPassword, old(users)[i].password) && newPassword == confirmPassword)
              && (r.Fail? ==> users == old(users))
              && (r.Ok? ==> r.value == old(users)[i].(password := newPassword) && users == old(users)[i := r.value])
      ensures old(EmailsUnique()) ==> EmailsUnique()
    {
      var i := UserIndex(users, actorId).value;
      var user := users[i];
      var refusal := PasswordChangeRefusal(matches(oldPassword, user.password), newPassword, confirmPassword);
      if refusal.Some? {
        return Fail(refusal.value);
      }
      user := user.(password := newPassword);
      ghost var before := users;
      users := users[i := user];
      assert forall k :: 0 <= k < |users| ==> UserId(users[k]) == UserId(before[k]) && UserEmail(users[k]) == UserEmail(before[k]);
      r := Ok(user);
    }
  }
}
