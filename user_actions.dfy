/** The server actions on accounts. They pass the store's answers through and record who is signed
    in; that record (`setCurrentUser`) is kept in a Session object. */
module UserActions {
  import opened Wrappers
  import opened JsString
  import opened Records
  import opened MockData

  /** The current-user slot that `setCurrentUser` writes; "" means nobody is signed in. */
  class Session {
    var currentUserId: string

    constructor (currentUserId: string)
      ensures this.currentUserId == currentUserId
    {
      this.currentUserId := currentUserId;
    }
  }

  /** The sign-up form's fields. An absent entry is the empty string, which every truthiness test
      of the source treats like a missing one. The password is read and not used. */
  datatype SignUpForm = SignUpForm(
    name: string,
    email: string,
    password: string,
    kind: string,
    description: string,
    registrationNumber: string,
    address: string,
    contactPhone: string)

  /** The account `signUpUser` asks the store to create: the type falls back to 'individual', the
      optional text fields to '' (how the model already reads them), and every new account starts
      out unverified and active, with the form's e-mail as its contact e-mail. */
  function SignUpData(f: SignUpForm): (d: NewUser)
    ensures d.kind == (if f.kind == "" then "individual" else f.kind)
    ensures d.kind != ""
    ensures d.name == f.name && d.contactEmail == f.email
    ensures d.description == f.description && d.registrationNumber == f.registrationNumber
    ensures d.address == f.address && d.contactPhone == f.contactPhone
    ensures !d.isVerified && d.isActive
  {
    NewUser(f.name, if f.kind == "" then "individual" else f.kind, f.description,
            f.registrationNumber, f.address, f.email, f.contactPhone, false, true)
  }

  /** `signUpUser`: a taken e-mail comes back as the store's error, with nothing changed; otherwise
      the new account is stored, becomes the current user, and can sign in at once with any
      non-blank password. */
  method SignUpUser(store: Store, session: Session, f: SignUpForm, now: string) returns (r: Result<User>)
    requires store.Valid()
    modifies store, session
    ensures store.Valid()
    ensures f.email in Emails(old(store.users)) ==>
      r == Failure(EmailTaken) && unchanged(store) && unchanged(session)
    ensures f.email !in Emails(old(store.users)) ==>
      && r == Success(UserRecord(SignUpData(f), NatToString(|old(store.users)| + 1), now))
      && store.users == old(store.users) + [r.value]
      && session.currentUserId == r.value.id
    ensures r.Success? ==>
      store.SignIn(f.email, f.password) == if IsBlank(f.password) then Failure(BadCredentials) else Success(r.value)
    ensures store.organizations == old(store.organizations) && store.projects == old(store.projects)
    ensures store.projectProofs == old(store.projectProofs)
  {
    var result := store.SignUp(SignUpData(f), now);
    if result.Failure? {
      return Failure(result.error);
    }
    session.currentUserId := result.value.id;
    r := Success(result.value);
    assert store.users[|store.users| - 1] == r.value;
  }

  /** `signInUser`: the store's verdict, passed through; a successful sign-in makes that account the
      current user, a refused one leaves the current user alone. */
  method SignInUser(store: Store, session: Session, email: string, password: string) returns (r: Result<User>)
    requires store.Valid()
    modifies session
    ensures r == store.SignIn(email, password)
    ensures r.Success? ==> session.currentUserId == r.value.id && r.value.contactEmail == email
    ensures r.Failure? ==> unchanged(session)
  {
    r := store.SignIn(email, password);
    if r.Success? {
      session.currentUserId := r.value.id;
    }
  }

  /** `signOutUser`: always succeeds and clears the current user. */
  method SignOutUser(session: Session) returns (r: Result<()>)
    modifies session
    ensures r.Success? && session.currentUserId == ""
  {
    session.currentUserId := "";
    r := Success(());
  }

  /** `resetPassword`: success for an e-mail on file, the store's message for any other; nothing changes. */
  function ResetPassword(store: Store, email: string): (r: Result<()>)
    reads store
    ensures r.Success? <==> email in Emails(store.users)
    ensures r.Failure? ==> r.error == ResetUnknownEmail
  {
    store.ResetPassword(email)
  }
}
