/** The server actions on projects and their proofs. As for organizations, the signed-in user is a
    parameter; the clock readings (`Date.now()` and the ISO timestamp) are inputs. */
module ProjectActions {
  import opened Wrappers
  import opened JsString
  import opened Tables
  import opened Records
  import opened MockData

  const SignInToCreate: string := "You must be signed in to create a project"
  const SignInToUpdate: string := "You must be signed in to update a project"
  const SignInToUploadProof: string := "You must be signed in to upload project proof"
  const SignInToUploadProofs: string := "You must be signed in to upload proofs"
  const AllFieldsRequired: string := "All fields are required"
  const ProofFileRequired: string := "Project ID and proof file are required"
  const AdminToApprove: string := "You must be an admin to approve projects"
  const AdminToVerify: string := "You must be an admin to verify projects"
  const AdminToReject: string := "You must be an admin to reject projects"
  const AdminToClose: string := "You must be an admin to close projects"
  const NotFound: string := "Project not found"
  const UploadRoot: string := "/mock-uploads/"

  /** The `File` posted with an upload; only its name is used. */
  datatype UploadedFile = UploadedFile(name: string)

  /** `createProject`: a signed-in user with all four fields non-empty gets a new pending project.
      The organization id is stored as given, without looking the organization up. */
  method CreateProject(store: Store, user: Option<User>, name: string, description: string,
                       locationText: string, organizationId: string, now: string)
    returns (r: Result<Project>)
    requires store.Valid()
    modifies store
    ensures store.Valid()
    ensures user.None? ==> r == Failure(SignInToCreate) && unchanged(store)
    ensures user.Some? && (name == "" || description == "" || locationText == "" || organizationId == "") ==>
      r == Failure(AllFieldsRequired) && unchanged(store)
    ensures user.Some? && name != "" && description != "" && locationText != "" && organizationId != "" ==>
      && r == Success(Project(NatToString(|old(store.projects)| + 1), name, description, locationText,
                              organizationId, ProjectStatus.Pending, now, now))
      && store.projects == old(store.projects) + [r.value]
    ensures store.users == old(store.users) && store.organizations == old(store.organizations)
    ensures store.projectProofs == old(store.projectProofs)
  {
    if user.None? {
      return Failure(SignInToCreate);
    }
    if name == "" || description == "" || locationText == "" || organizationId == "" {
      return Failure(AllFieldsRequired);
    }
    var p := store.CreateProject(NewProject(name, description, locationText, organizationId, ProjectStatus.Pending), now);
    r := Success(p);
  }

  /** `getProject`: the project with that id, or 'Project not found'. */
  function GetProject(store: Store, id: string): (r: Result<Project>)
    reads store
    ensures r.Success? <==> id in ProjectIds(store.projects)
    ensures r.Success? ==> r.value in store.projects && r.value.id == id
    ensures r.Failure? ==> r.error == NotFound
  {
    match store.GetProject(id)
    case None => Failure(NotFound)
    case Some(p) => Success(p)
  }

  /** `updateProject`: any signed-in user may edit any project; only the name, the description, the
      location and `updated_at` change, so its organization and status stay as they were. */
  method UpdateProject(store: Store, user: Option<User>, id: string, name: string, description: string,
                       locationText: string, now: string)
    returns (r: Result<Project>)
    requires store.Valid()
    modifies store
    ensures store.Valid()
    ensures user.None? ==> r == Failure(SignInToUpdate) && unchanged(store)
    ensures user.Some? && (name == "" || description == "" || locationText == "") ==>
      r == Failure(AllFieldsRequired) && unchanged(store)
    ensures user.Some? && name != "" && description != "" && locationText != "" && id !in ProjectIds(old(store.projects)) ==>
      r == Failure(NotFound) && unchanged(store)
    ensures user.Some? && name != "" && description != "" && locationText != "" && id in ProjectIds(old(store.projects)) ==>
      var i := IndexOf(ProjectIds(old(store.projects)), id).value;
      && r == Success(old(store.projects)[i].(name := name, description := description,
                                              locationText := locationText, updatedAt := now))
      && store.projects == old(store.projects)[i := r.value]
    ensures store.users == old(store.users) && store.organizations == old(store.organizations)
    ensures store.projectProofs == old(store.projectProofs)
  {
    if user.None? {
      return Failure(SignInToUpdate);
    }
    if name == "" || description == "" || locationText == "" {
      return Failure(AllFieldsRequired);
    }
    var p := store.UpdateProject(id, ProjectPatch(Some(name), Some(description), Some(locationText), None, None, None), now);
    if p.None? {
      return Failure(NotFound);
    }
    r := Success(p.value);
  }

  /** The body the four admin status actions share: the admin check, then an unconditional
      overwrite of the status. No transition is checked against the status it replaces. */
  method SetStatus(store: Store, user: Option<User>, id: string, status: ProjectStatus, denied: string, now: string)
    returns (r: Result<Project>)
    requires store.Valid()
    modifies store
    ensures store.Valid()
    ensures !IsAdmin(user) ==> r == Failure(denied) && unchanged(store)
    ensures IsAdmin(user) && id !in ProjectIds(old(store.projects)) ==> r == Failure(NotFound) && unchanged(store)
    ensures IsAdmin(user) && id in ProjectIds(old(store.projects)) ==>
      var i := IndexOf(ProjectIds(old(store.projects)), id).value;
      && r == Success(old(store.projects)[i].(status := status, updatedAt := now))
      && store.projects == old(store.projects)[i := r.value]
    ensures store.users == old(store.users) && store.organizations == old(store.organizations)
    ensures store.projectProofs == old(store.projectProofs)
  {
    if !IsAdmin(user) {
      return Failure(denied);
    }
    var p := store.UpdateProject(id, ProjectPatch(None, None, None, None, Some(status), None), now);
    if p.None? {
      return Failure(NotFound);
    }
    r := Success(p.value);
  }

  /** `approveProject`: only the admin account; sets 'approved' from any prior status. */
  method ApproveProject(store: Store, user: Option<User>, id: string, now: string) returns (r: Result<Project>)
    requires store.Valid()
    modifies store
    ensures store.Valid()
    ensures !IsAdmin(user) ==> r == Failure(AdminToApprove) && unchanged(store)
    ensures IsAdmin(user) && id !in ProjectIds(old(store.projects)) ==> r == Failure(NotFound) && unchanged(store)
    ensures IsAdmin(user) && id in ProjectIds(old(store.projects)) ==>
      var i := IndexOf(ProjectIds(old(store.projects)), id).value;
      && r == Success(old(store.projects)[i].(status := ProjectStatus.Approved, updatedAt := now))
      && store.projects == old(store.projects)[i := r.value]
    ensures store.users == old(store.users) && store.organizations == old(store.organizations)
    ensures store.projectProofs == old(store.projectProofs)
  {
    r := SetStatus(store, user, id, ProjectStatus.Approved, AdminToApprove, now);
  }

  /** `verifyProject`: only the admin account; sets 'verified' from any prior status, 'pending' included. */
  method VerifyProject(store: Store, user: Option<User>, id: string, now: string) returns (r: Result<Project>)
    requires store.Valid()
    modifies store
    ensures store.Valid()
    ensures !IsAdmin(user) ==> r == Failure(AdminToVerify) && unchanged(store)
    ensures IsAdmin(user) && id !in ProjectIds(old(store.projects)) ==> r == Failure(NotFound) && unchanged(store)
    ensures IsAdmin(user) && id in ProjectIds(old(store.projects)) ==>
      var i := IndexOf(ProjectIds(old(store.projects)), id).value;
      && r == Success(old(store.projects)[i].(status := ProjectStatus.Verified, updatedAt := now))
      && store.projects == old(store.projects)[i := r.value]
    ensures store.users == old(store.users) && store.organizations == old(store.organizations)
    ensures store.projectProofs == old(store.projectProofs)
  {
    r := SetStatus(store, user, id, ProjectStatus.Verified, AdminToVerify, now);
  }

  /** `rejectProject`: only the admin account; sets 'rejected' from any prior status. */
  method RejectProject(store: Store, user: Option<User>, id: string, now: string) returns (r: Result<Project>)
    requires store.Valid()
    modifies store
    ensures store.Valid()
    ensures !IsAdmin(user) ==> r == Failure(AdminToReject) && unchanged(store)
    ensures IsAdmin(user) && id !in ProjectIds(old(store.projects)) ==> r == Failure(NotFound) && unchanged(store)
    ensures IsAdmin(user) && id in ProjectIds(old(store.projects)) ==>
      var i := IndexOf(ProjectIds(old(store.projects)), id).value;
      && r == Success(old(store.projects)[i].(status := ProjectStatus.Rejected, updatedAt := now))
      && store.projects == old(store.projects)[i := r.value]
    ensures store.users == old(store.users) && store.organizations == old(store.organizations)
    ensures store.projectProofs == old(store.projectProofs)
  {
    r := SetStatus(store, user, id, ProjectStatus.Rejected, AdminToReject, now);
  }

  /** `closeProject`: only the admin account; sets 'closed' from any prior status. */
  method CloseProject(store: Store, user: Option<User>, id: string, now: string) returns (r: Result<Project>)
    requires store.Valid()
    modifies store
    ensures store.Valid()
    ensures !IsAdmin(user) ==> r == Failure(AdminToClose) && unchanged(store)
    ensures IsAdmin(user) && id !in ProjectIds(old(store.projects)) ==> r == Failure(NotFound) && unchanged(store)
    ensures IsAdmin(user) && id in ProjectIds(old(store.projects)) ==>
      var i := IndexOf(ProjectIds(old(store.projects)), id).value;
      && r == Success(old(store.projects)[i].(status := ProjectStatus.Closed, updatedAt := now))
      && store.projects == old(store.projects)[i := r.value]
    ensures store.users == old(store.users) && store.organizations == old(store.organizations)
    ensures store.projectProofs == old(store.projectProofs)
  {
    r := SetStatus(store, user, id, ProjectStatus.Closed, AdminToClose, now);
  }

  /** `getProjectProofs`: always succeeds, with exactly the proofs filed under that project id. */
  function GetProjectProofs(store: Store, projectId: string): (r: Result<seq<ProjectProof>>)
    reads store
    ensures r.Success?
    ensures forall p :: p in r.value <==> p in store.projectProofs && p.projectId == projectId
  {
    Success(store.GetProjectProofs(projectId))
  }

  /** `createProjectProof`: a signed-in user with all three fields non-empty files one proof. The
      project id is not checked against the projects table. */
  method CreateProjectProof(store: Store, user: Option<User>, projectId: string, fileUrl: string,
                            fileName: string, now: string)
    returns (r: Result<ProjectProof>)
    requires store.Valid()
    modifies store
    ensures store.Valid()
    ensures user.None? ==> r == Failure(SignInToUploadProof) && unchanged(store)
    ensures user.Some? && (projectId == "" || fileUrl == "" || fileName == "") ==>
      r == Failure(AllFieldsRequired) && unchanged(store)
    ensures user.Some? && projectId != "" && fileUrl != "" && fileName != "" ==>
      && r == Success(ProjectProof(NatToString(|old(store.projectProofs)| + 1), projectId, fileUrl, fileName, now))
      && store.projectProofs == old(store.projectProofs) + [r.value]
    ensures store.users == old(store.users) && store.organizations == old(store.organizations)
    ensures store.projects == old(store.projects)
  {
    if user.None? {
      return Failure(SignInToUploadProof);
    }
    if projectId == "" || fileUrl == "" || fileName == "" {
      return Failure(AllFieldsRequired);
    }
    var p := store.CreateProjectProof(NewProof(projectId, fileUrl, fileName), now);
    r := Success(p);
  }

  /** The stored name of an upload, `${Date.now()}-${file.name}`. It keeps both of its parts: the
      millisecond reading and the original name can be read back from it. */
  function UploadFileName(nowMillis: nat, originalName: string): (r: string)
    ensures SplitUploadFileName(r) == Some((nowMillis, originalName))
  {
    var digits := NatToString(nowMillis);
    var r := digits + "-" + originalName;
    LeadingDigitsOfNumber(digits, "-" + originalName);
    assert r == digits + ("-" + originalName);
    assert r[..|digits|] == digits;
    assert r[|digits| + 1..] == originalName;
    DecimalRoundTrip(nowMillis);
    r
  }

  /** The simulated storage path, `/mock-uploads/${projectId}/${fileName}`: the upload root, the
      project id and a slash, then the stored file name as the rest of the path. */
  function UploadUrl(projectId: string, fileName: string): (r: string)
    ensures UploadRoot + projectId + "/" <= r
    ensures r[|UploadRoot| + |projectId| + 1..] == fileName
  {
    UploadRoot + projectId + "/" + fileName
  }

  /** The number of decimal digits at the start of `s`. */
  function LeadingDigits(s: string): (n: nat)
    ensures n <= |s| && AllDigits(s[..n])
    ensures n < |s| ==> !IsDigit(s[n])
  {
    if s != [] && IsDigit(s[0]) then 1 + LeadingDigits(s[1..]) else 0
  }

  /** Reads a stored upload name back into the clock reading and the original file name. */
  function SplitUploadFileName(s: string): Option<(nat, string)> {
    var n := LeadingDigits(s);
    if 0 < n < |s| && s[n] == '-' then Some((DecimalValue(s[..n]), s[n + 1..])) else None
  }

  lemma {:induction false} LeadingDigitsOfNumber(digits: string, rest: string)
    requires AllDigits(digits)
    requires rest != [] && !IsDigit(rest[0])
    ensures LeadingDigits(digits + rest) == |digits|
  {
    if digits != [] {
      assert (digits + rest)[1..] == digits[1..] + rest;
      LeadingDigitsOfNumber(digits[1..], rest);
    } else {
      assert digits + rest == rest;
    }
  }

  /** Two uploads to the same project get the same URL only if they were made in the same
      millisecond from files with the same name. */
  lemma UploadUrlsDistinct(projectId: string, t1: nat, name1: string, t2: nat, name2: string)
    requires UploadUrl(projectId, UploadFileName(t1, name1)) == UploadUrl(projectId, UploadFileName(t2, name2))
    ensures t1 == t2 && name1 == name2
  {
    var f1, f2 := UploadFileName(t1, name1), UploadFileName(t2, name2);
    assert f1 == UploadUrl(projectId, f1)[|UploadRoot| + |projectId| + 1..];
    assert f2 == UploadUrl(projectId, f2)[|UploadRoot| + |projectId| + 1..];
  }

  /** `uploadProof`: a signed-in user sending a project id and a file gets one new proof whose name
      and URL are built from the clock reading, the file's name and the project id. */
  method UploadProof(store: Store, user: Option<User>, projectId: string, file: Option<UploadedFile>,
                     nowMillis: nat, now: string)
    returns (r: Result<ProjectProof>)
    requires store.Valid()
    modifies store
    ensures store.Valid()
    ensures user.None? ==> r == Failure(SignInToUploadProofs) && unchanged(store)
    ensures user.Some? && (projectId == "" || file.None?) ==> r == Failure(ProofFileRequired) && unchanged(store)
    ensures user.Some? && projectId != "" && file.Some? ==>
      var fileName := UploadFileName(nowMillis, file.value.name);
      && r == Success(ProjectProof(NatToString(|old(store.projectProofs)| + 1), projectId,
                                   UploadUrl(projectId, fileName), fileName, now))
      && store.projectProofs == old(store.projectProofs) + [r.value]
    ensures store.users == old(store.users) && store.organizations == old(store.organizations)
    ensures store.projects == old(store.projects)
  {
    if user.None? {
      return Failure(SignInToUploadProofs);
    }
    if projectId == "" || file.None? {
      return Failure(ProofFileRequired);
    }
    var fileName := UploadFileName(nowMillis, file.value.name);
    var p := store.CreateProjectProof(NewProof(projectId, UploadUrl(projectId, fileName), fileName), now);
    r := Success(p);
  }

  /** No status action checks the status it replaces: on a fresh store the admin account can take
      a project it has just created straight from 'pending' to 'verified'. */
  method VerifyWithoutApproval(now: string) returns (created: Project, verified: Result<Project>)
    ensures created.status == ProjectStatus.Pending
    ensures verified.Success? && verified.value.id == created.id
    ensures verified.value.status == ProjectStatus.Verified
  {
    var store := new Store(now);
    var admin := Some(store.users[0]);
    var r := CreateProject(store, admin, "Mangrove restoration", "Replanting", "Coast", "1", now);
    created := r.value;
    assert store.projects == [created];
    assert ProjectIds(store.projects) == [created.id];
    verified := VerifyProject(store, admin, created.id, now);
  }
}
