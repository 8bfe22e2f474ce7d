/** The four record types of the mock store, the field sets callers supply to create and update them,
    and the pure views of a table the store and the actions use. */
module Records {
  import opened Wrappers
  import opened JsString
  import opened Tables

  /** A registered account. `kind` is the source's `type` field ('individual' or 'organization'). */
  datatype User = User(
    id: string,
    name: string,
    kind: string,
    description: string,
    registrationNumber: string,
    address: string,
    contactEmail: string,
    contactPhone: string,
    isVerified: bool,
    isActive: bool,
    createdAt: string,
    updatedAt: string)

  /** A user as supplied to sign-up: everything but the id and the two timestamps. */
  datatype NewUser = NewUser(
    name: string,
    kind: string,
    description: string,
    registrationNumber: string,
    address: string,
    contactEmail: string,
    contactPhone: string,
    isVerified: bool,
    isActive: bool)

  datatype OrgStatus = Pending | Approved | Rejected

  datatype Organization = Organization(
    id: string,
    name: string,
    description: string,
    ownerId: string,
    status: OrgStatus,
    createdAt: string,
    updatedAt: string)

  datatype NewOrganization = NewOrganization(name: string, description: string, ownerId: string, status: OrgStatus)

  /** A `Partial<Organization>` update: `None` leaves the field as it is. */
  datatype OrganizationPatch = OrganizationPatch(
    name: Option<string>,
    description: Option<string>,
    ownerId: Option<string>,
    status: Option<OrgStatus>,
    createdAt: Option<string>)

  datatype ProjectStatus = Pending | Approved | Verified | Closed | Rejected

  datatype Project = Project(
    id: string,
    name: string,
    description: string,
    locationText: string,
    organizationId: string,
    status: ProjectStatus,
    createdAt: string,
    updatedAt: string)

  datatype NewProject = NewProject(
    name: string,
    description: string,
    locationText: string,
    organizationId: string,
    status: ProjectStatus)

  /** A `Partial<Project>` update: `None` leaves the field as it is. */
  datatype ProjectPatch = ProjectPatch(
    name: Option<string>,
    description: Option<string>,
    locationText: Option<string>,
    organizationId: Option<string>,
    status: Option<ProjectStatus>,
    createdAt: Option<string>)

  /** An uploaded piece of evidence for a project. `projectId` is whatever the uploader sent. */
  datatype ProjectProof = ProjectProof(id: string, projectId: string, fileUrl: string, fileName: string, createdAt: string)

  datatype NewProof = NewProof(projectId: string, fileUrl: string, fileName: string)

  /** The one account the actions treat as an administrator, recognised by its e-mail alone. */
  const AdminEmail: string := "admin@samudra-chain.com"

  /** `user && user.contact_email === 'admin@samudra-chain.com'`. */
  predicate IsAdmin(user: Option<User>) {
    user.Some? && user.value.contactEmail == AdminEmail
  }

  // A stored record is the supplied fields plus an id and timestamps: `{ ...data, id, created_at,
  // updated_at }`. Each builder below is stated against its inverse, the projection that drops them.

  /** The fields of a stored user other than its id and timestamps. */
  function UserData(u: User): NewUser {
    NewUser(u.name, u.kind, u.description, u.registrationNumber, u.address, u.contactEmail,
            u.contactPhone, u.isVerified, u.isActive)
  }

  function UserRecord(d: NewUser, id: string, now: string): (u: User)
    ensures UserData(u) == d
    ensures u.id == id && u.createdAt == now && u.updatedAt == now
  {
    User(id, d.name, d.kind, d.description, d.registrationNumber, d.address, d.contactEmail,
         d.contactPhone, d.isVerified, d.isActive, now, now)
  }

  function OrganizationData(o: Organization): NewOrganization {
    NewOrganization(o.name, o.description, o.ownerId, o.status)
  }

  function OrganizationRecord(d: NewOrganization, id: string, now: string): (o: Organization)
    ensures OrganizationData(o) == d
    ensures o.id == id && o.createdAt == now && o.updatedAt == now
  {
    Organization(id, d.name, d.description, d.ownerId, d.status, now, now)
  }

  function ProjectData(p: Project): NewProject {
    NewProject(p.name, p.description, p.locationText, p.organizationId, p.status)
  }

  function ProjectRecord(d: NewProject, id: string, now: string): (p: Project)
    ensures ProjectData(p) == d
    ensures p.id == id && p.createdAt == now && p.updatedAt == now
  {
    Project(id, d.name, d.description, d.locationText, d.organizationId, d.status, now, now)
  }

  function ProofData(p: ProjectProof): NewProof {
    NewProof(p.projectId, p.fileUrl, p.fileName)
  }

  function ProofRecord(d: NewProof, id: string, now: string): (p: ProjectProof)
    ensures ProofData(p) == d
    ensures p.id == id && p.createdAt == now
  {
    ProjectProof(id, d.projectId, d.fileUrl, d.fileName, now)
  }

  function Or<T>(o: Option<T>, default: T): T {
    if o.Some? then o.value else default
  }

  /** `{ ...o, ...patch, updated_at: now }`: the fields the patch names take its values, every other
      field keeps the old one, and `updated_at` is the time of the update. */
  function PatchOrganization(o: Organization, p: OrganizationPatch, now: string): (r: Organization)
    ensures r.id == o.id && r.updatedAt == now
    ensures p.name.None? ==> r.name == o.name
    ensures p.name.Some? ==> r.name == p.name.value
    ensures p.description.None? ==> r.description == o.description
    ensures p.description.Some? ==> r.description == p.description.value
    ensures p.ownerId.None? ==> r.ownerId == o.ownerId
    ensures p.ownerId.Some? ==> r.ownerId == p.ownerId.value
    ensures p.status.None? ==> r.status == o.status
    ensures p.status.Some? ==> r.status == p.status.value
    ensures p.createdAt.None? ==> r.createdAt == o.createdAt
    ensures p.createdAt.Some? ==> r.createdAt == p.createdAt.value
  {
    o.(name := Or(p.name, o.name), description := Or(p.description, o.description),
       ownerId := Or(p.ownerId, o.ownerId), status := Or(p.status, o.status),
       createdAt := Or(p.createdAt, o.createdAt), updatedAt := now)
  }

  /** `{ ...pr, ...patch, updated_at: now }`, field by field as for organizations. */
  function PatchProject(pr: Project, p: ProjectPatch, now: string): (r: Project)
    ensures r.id == pr.id && r.updatedAt == now
    ensures p.name.None? ==> r.name == pr.name
    ensures p.name.Some? ==> r.name == p.name.value
    ensures p.description.None? ==> r.description == pr.description
    ensures p.description.Some? ==> r.description == p.description.value
    ensures p.locationText.None? ==> r.locationText == pr.locationText
    ensures p.locationText.Some? ==> r.locationText == p.locationText.value
    ensures p.organizationId.None? ==> r.organizationId == pr.organizationId
    ensures p.organizationId.Some? ==> r.organizationId == p.organizationId.value
    ensures p.status.None? ==> r.status == pr.status
    ensures p.status.Some? ==> r.status == p.status.value
    ensures p.createdAt.None? ==> r.createdAt == pr.createdAt
    ensures p.createdAt.Some? ==> r.createdAt == p.createdAt.value
  {
    pr.(name := Or(p.name, pr.name), description := Or(p.description, pr.description),
        locationText := Or(p.locationText, pr.locationText),
        organizationId := Or(p.organizationId, pr.organizationId), status := Or(p.status, pr.status),
        createdAt := Or(p.createdAt, pr.createdAt), updatedAt := now)
  }

  // The key columns the store searches.

  function UserIds(us: seq<User>): (ks: seq<string>)
    ensures |ks| == |us| && forall i :: 0 <= i < |us| ==> ks[i] == us[i].id
  {
    seq(|us|, i requires 0 <= i < |us| => us[i].id)
  }

  function Emails(us: seq<User>): (ks: seq<string>)
    ensures |ks| == |us| && forall i :: 0 <= i < |us| ==> ks[i] == us[i].contactEmail
  {
    seq(|us|, i requires 0 <= i < |us| => us[i].contactEmail)
  }

  function OrganizationIds(os: seq<Organization>): (ks: seq<string>)
    ensures |ks| == |os| && forall i :: 0 <= i < |os| ==> ks[i] == os[i].id
  {
    seq(|os|, i requires 0 <= i < |os| => os[i].id)
  }

  function ProjectIds(ps: seq<Project>): (ks: seq<string>)
    ensures |ks| == |ps| && forall i :: 0 <= i < |ps| ==> ks[i] == ps[i].id
  {
    seq(|ps|, i requires 0 <= i < |ps| => ps[i].id)
  }

  function ProofIds(ps: seq<ProjectProof>): (ks: seq<string>)
    ensures |ks| == |ps| && forall i :: 0 <= i < |ps| ==> ks[i] == ps[i].id
  {
    seq(|ps|, i requires 0 <= i < |ps| => ps[i].id)
  }

  /** `proofs.filter(p => p.project_id === projectId)`: exactly the proofs of that project. */
  function ProofsFor(proofs: seq<ProjectProof>, projectId: string): (r: seq<ProjectProof>)
    ensures |r| <= |proofs|
    ensures forall p :: p in r <==> p in proofs && p.projectId == projectId
  {
    if proofs == [] then []
    else (if proofs[0].projectId == projectId then [proofs[0]] else []) + ProofsFor(proofs[1..], projectId)
  }

  /** The filter keeps insertion order: a proof added at the end of the table shows up at the end
      of its own project's list and nowhere else. */
  lemma {:induction false} ProofsForAppend(proofs: seq<ProjectProof>, p: ProjectProof, projectId: string)
    ensures ProofsFor(proofs + [p], projectId)
         == ProofsFor(proofs, projectId) + (if p.projectId == projectId then [p] else [])
  {
    if proofs == [] {
      assert proofs + [p] == [p];
    } else {
      var head := if proofs[0].projectId == projectId then [proofs[0]] else [];
      var tail := if p.projectId == projectId then [p] else [];
      assert (proofs + [p])[1..] == proofs[1..] + [p];
      calc {
        ProofsFor(proofs + [p], projectId);
        head + ProofsFor(proofs[1..] + [p], projectId);
        { ProofsForAppend(proofs[1..], p, projectId); }
        head + (ProofsFor(proofs[1..], projectId) + tail);
        (head + ProofsFor(proofs[1..], projectId)) + tail;
      }
    }
  }

  /** The two accounts the store starts with (and returns to on reset): ids '1' and '2', distinct
      e-mails, both verified and active, and the first of them the admin account. */
  function SeedUsers(now: string): (us: seq<User>)
    ensures |us| == 2 && IdsArePositions(UserIds(us)) && Distinct(Emails(us))
    ensures IsAdmin(Some(us[0])) && !IsAdmin(Some(us[1]))
    ensures forall i :: 0 <= i < |us| ==> us[i].isVerified && us[i].isActive
  {
    assert NatToString(1) == "1" && NatToString(2) == "2";
    [ User("1", "Admin User", "individual", "System administrator", "", "", AdminEmail, "", true, true, now, now),
      User("2", "Test User", "individual", "Regular test user", "", "", "test@example.com", "", true, true, now, now) ]
  }
}
