/** The in-memory record store: four tables of users, organizations, projects and project proofs,
    searched linearly, appended to with `id = length + 1`, and updated by overwriting one slot. */
module MockData {
  import opened Wrappers
  import opened JsString
  import opened Tables
  import opened Records

  const EmailTaken: string := "User with this email already exists"
  const BadCredentials: string := "Invalid email or password"
  const Deactivated: string := "Your account has been deactivated"
  const ResetUnknownEmail: string := "If an account with this email exists, a password reset link has been sent"

  class Store {
    var users: seq<User>
    var organizations: seq<Organization>
    var projects: seq<Project>
    var projectProofs: seq<ProjectProof>

    /** What every operation keeps: in each table the record at index i has id `i + 1` (in decimal),
        and no two users share a contact e-mail. */
    ghost predicate Valid()
      reads this
    {
      && IdsArePositions(UserIds(users))
      && IdsArePositions(OrganizationIds(organizations))
      && IdsArePositions(ProjectIds(projects))
      && IdsArePositions(ProofIds(projectProofs))
      && Distinct(Emails(users))
    }

    /** The tables as the module initialises them: the two seed users and nothing else. */
    constructor (now: string)
      ensures Valid()
      ensures users == SeedUsers(now)
      ensures organizations == [] && projects == [] && projectProofs == []
    {
      users := SeedUsers(now);
      organizations := [];
      projects := [];
      projectProofs := [];
    }

    /** `resetMockData`: back to the two seed users and three empty tables. */
    method Reset(now: string)
      modifies this
      ensures Valid()
      ensures users == SeedUsers(now)
      ensures organizations == [] && projects == [] && projectProofs == []
    {
      users := SeedUsers(now);
      organizations := [];
      projects := [];
      projectProofs := [];
    }

    // Lookups: the first record whose key matches, or null.

    /** `mockGetUser`. */
    function GetUser(id: string): (r: Option<User>)
      reads this
      ensures r.Some? ==> r.value in users && r.value.id == id
      ensures r.None? <==> id !in UserIds(users)
    {
      match IndexOf(UserIds(users), id)
      case Some(i) => Some(users[i])
      case None => None
    }

    /** `mockGetUserByEmail`; since e-mails are unique, the match is the only account with that e-mail. */
    function GetUserByEmail(email: string): (r: Option<User>)
      reads this
      ensures r.Some? ==> r.value in users && r.value.contactEmail == email
      ensures r.None? <==> email !in Emails(users)
      ensures Valid() ==> forall u :: u in users && u.contactEmail == email ==> r == Some(u)
    {
      match IndexOf(Emails(users), email)
      case Some(i) =>
        assert Valid() ==> forall j :: 0 <= j < |users| && users[j].contactEmail == email ==> j == i;
        Some(users[i])
      case None => None
    }

    /** `mockGetOrganization`. */
    function GetOrganization(id: string): (r: Option<Organization>)
      reads this
      ensures r.Some? ==> r.value in organizations && r.value.id == id
      ensures r.None? <==> id !in OrganizationIds(organizations)
    {
      match IndexOf(OrganizationIds(organizations), id)
      case Some(i) => Some(organizations[i])
      case None => None
    }

    /** `mockGetProject`. */
    function GetProject(id: string): (r: Option<Project>)
      reads this
      ensures r.Some? ==> r.value in projects && r.value.id == id
      ensures r.None? <==> id !in ProjectIds(projects)
    {
      match IndexOf(ProjectIds(projects), id)
      case Some(i) => Some(projects[i])
      case None => None
    }

    /** `mockGetProjectProofs`: the proofs filed under `projectId`, in the order they were added. */
    function GetProjectProofs(projectId: string): (r: seq<ProjectProof>)
      reads this
      ensures forall p :: p in r <==> p in projectProofs && p.projectId == projectId
    {
      ProofsFor(projectProofs, projectId)
    }

    /** In a valid store the record with id `k` is the one at index `k - 1`, in every table. */
    lemma LookupAtPosition(k: nat)
      requires Valid() && 1 <= k
      ensures k <= |users| ==> GetUser(NatToString(k)) == Some(users[k - 1])
      ensures k <= |organizations| ==> GetOrganization(NatToString(k)) == Some(organizations[k - 1])
      ensures k <= |projects| ==> GetProject(NatToString(k)) == Some(projects[k - 1])
    {
      if k <= |users| {
        PositionalIdFoundAt(UserIds(users), k);
      }
      if k <= |organizations| {
        PositionalIdFoundAt(OrganizationIds(organizations), k);
      }
      if k <= |projects| {
        PositionalIdFoundAt(ProjectIds(projects), k);
      }
    }

    /** In a valid store an id finds a record exactly when it is the decimal form of a position. */
    lemma LookupFindsOnlyPositions(id: string)
      requires Valid()
      ensures GetUser(id).Some? <==> exists n: nat :: 1 <= n <= |users| && id == NatToString(n)
      ensures GetOrganization(id).Some? <==> exists n: nat :: 1 <= n <= |organizations| && id == NatToString(n)
      ensures GetProject(id).Some? <==> exists n: nat :: 1 <= n <= |projects| && id == NatToString(n)
    {
      PositionalIdsOnly(UserIds(users), id);
      PositionalIdsOnly(OrganizationIds(organizations), id);
      PositionalIdsOnly(ProjectIds(projects), id);
    }

    /** The admin test compares e-mails only, and e-mails are unique, so in a valid store at most
        one stored account passes it: the one holding the admin e-mail. */
    lemma AdminAccountIsUnique(u: User, v: User)
      requires Valid() && u in users && v in users
      requires IsAdmin(Some(u)) && IsAdmin(Some(v))
      ensures u == v
    {
      var i :| 0 <= i < |users| && users[i] == u;
      var j :| 0 <= j < |users| && users[j] == v;
      assert Emails(users)[i] == Emails(users)[j];
    }

    // Account operations.

    /** `mockSignUpUser`: refuses an e-mail already on file, otherwise appends the account. */
    method SignUp(data: NewUser, now: string) returns (r: Result<User>)
      requires Valid()
      modifies this
      ensures Valid()
      ensures data.contactEmail in Emails(old(users)) ==> r == Failure(EmailTaken) && unchanged(this)
      ensures data.contactEmail !in Emails(old(users)) ==>
        && r == Success(UserRecord(data, NatToString(|old(users)| + 1), now))
        && users == old(users) + [r.value]
        && organizations == old(organizations) && projects == old(projects)
        && projectProofs == old(projectProofs)
    {
      if IndexOf(Emails(users), data.contactEmail).Some? {
        return Failure(EmailTaken);
      }
      var u := UserRecord(data, NatToString(|users| + 1), now);
      AppendKeepsPositions(UserIds(users));
      assert UserIds(users + [u]) == UserIds(users) + [u.id];
      users := users + [u];
      r := Success(u);
    }

    /** `mockSignInUser`: unknown e-mail, then deactivated account, then blank password, in that
        order; otherwise the account itself. Any non-blank password is accepted. */
    function SignIn(email: string, password: string): (r: Result<User>)
      reads this
      requires Valid()
      ensures email !in Emails(users) ==> r == Failure(BadCredentials)
      ensures forall i :: 0 <= i < |users| && users[i].contactEmail == email ==>
        r == if !users[i].isActive then Failure(Deactivated)
             else if IsBlank(password) then Failure(BadCredentials)
             else Success(users[i])
    {
      match IndexOf(Emails(users), email)
      case None => Failure(BadCredentials)
      case Some(i) =>
        assert forall j :: 0 <= j < |users| && users[j].contactEmail == email ==> j == i;
        if !users[i].isActive then Failure(Deactivated)
        else if password == "" || Trim(password) == "" then Failure(BadCredentials)
        else Success(users[i])
    }

    /** `mockResetPassword`: succeeds for an e-mail on file and fails, with a message that does not
        say which, for any other. */
    function ResetPassword(email: string): (r: Result<()>)
      reads this
      ensures r.Success? <==> email in Emails(users)
      ensures r.Failure? ==> r.error == ResetUnknownEmail
    {
      match IndexOf(Emails(users), email)
      case None => Failure(ResetUnknownEmail)
      case Some(_) => Success(())
    }

    // Creation: append one record at the end, with id `length + 1`.

    /** `mockCreateOrganization`. */
    method CreateOrganization(d: NewOrganization, now: string) returns (o: Organization)
      requires Valid()
      modifies this
      ensures Valid()
      ensures o == OrganizationRecord(d, NatToString(|old(organizations)| + 1), now)
      ensures organizations == old(organizations) + [o]
      ensures users == old(users) && projects == old(projects) && projectProofs == old(projectProofs)
    {
      o := OrganizationRecord(d, NatToString(|organizations| + 1), now);
      AppendKeepsPositions(OrganizationIds(organizations));
      assert OrganizationIds(organizations + [o]) == OrganizationIds(organizations) + [o.id];
      organizations := organizations + [o];
    }

    /** `mockCreateProject`. */
    method CreateProject(d: NewProject, now: string) returns (p: Project)
      requires Valid()
      modifies this
      ensures Valid()
      ensures p == ProjectRecord(d, NatToString(|old(projects)| + 1), now)
      ensures projects == old(projects) + [p]
      ensures users == old(users) && organizations == old(organizations) && projectProofs == old(projectProofs)
    {
      p := ProjectRecord(d, NatToString(|projects| + 1), now);
      AppendKeepsPositions(ProjectIds(projects));
      assert ProjectIds(projects + [p]) == ProjectIds(projects) + [p.id];
      projects := projects + [p];
    }

    /** `mockCreateProjectProof`; the new proof joins the end of its project's list of proofs and no
        other project's list changes. The project id is not checked against the projects table. */
    method CreateProjectProof(d: NewProof, now: string) returns (p: ProjectProof)
      requires Valid()
      modifies this
      ensures Valid()
      ensures p == ProofRecord(d, NatToString(|old(projectProofs)| + 1), now)
      ensures projectProofs == old(projectProofs) + [p]
      ensures forall q :: GetProjectProofs(q) == old(GetProjectProofs(q)) + (if q == d.projectId then [p] else [])
      ensures users == old(users) && organizations == old(organizations) && projects == old(projects)
    {
      p := ProofRecord(d, NatToString(|projectProofs| + 1), now);
      AppendKeepsPositions(ProofIds(projectProofs));
      assert ProofIds(projectProofs + [p]) == ProofIds(projectProofs) + [p.id];
      forall q ensures ProofsFor(projectProofs + [p], q) == ProofsFor(projectProofs, q) + (if q == d.projectId then [p] else []) {
        ProofsForAppend(projectProofs, p, q);
      }
      projectProofs := projectProofs + [p];
    }

    // Updates: overwrite the first record with the id, or report null.

    /** `mockUpdateOrganization`: rewrites the one matching record with the patch applied, leaving
        every other record and table as it was. */
    method UpdateOrganization(id: string, patch: OrganizationPatch, now: string) returns (r: Option<Organization>)
      requires Valid()
      modifies this
      ensures Valid()
      ensures id !in OrganizationIds(old(organizations)) ==> r.None? && unchanged(this)
      ensures id in OrganizationIds(old(organizations)) ==>
        var i := IndexOf(OrganizationIds(old(organizations)), id).value;
        && r == Some(PatchOrganization(old(organizations)[i], patch, now))
        && organizations == old(organizations)[i := r.value]
      ensures users == old(users) && projects == old(projects) && projectProofs == old(projectProofs)
    {
      var index := IndexOf(OrganizationIds(organizations), id);
      if index.None? {
        return None;
      }
      var i := index.value;
      var o := PatchOrganization(organizations[i], patch, now);
      assert OrganizationIds(organizations[i := o]) == OrganizationIds(organizations);
      organizations := organizations[i := o];
      r := Some(o);
    }

    /** `mockUpdateProject`: rewrites the one matching record with the patch applied, leaving every
        other record and table as it was. */
    method UpdateProject(id: string, patch: ProjectPatch, now: string) returns (r: Option<Project>)
      requires Valid()
      modifies this
      ensures Valid()
      ensures id !in ProjectIds(old(projects)) ==> r.None? && unchanged(this)
      ensures id in ProjectIds(old(projects)) ==>
        var i := IndexOf(ProjectIds(old(projects)), id).value;
        && r == Some(PatchProject(old(projects)[i], patch, now))
        && projects == old(projects)[i := r.value]
      ensures users == old(users) && organizations == old(organizations) && projectProofs == old(projectProofs)
    {
      var index := IndexOf(ProjectIds(projects), id);
      if index.None? {
        return None;
      }
      var i := index.value;
      var p := PatchProject(projects[i], patch, now);
      assert ProjectIds(projects[i := p]) == ProjectIds(projects);
      projects := projects[i := p];
      r := Some(p);
    }
  }
}
