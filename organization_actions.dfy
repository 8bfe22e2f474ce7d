/** The server actions on organizations: a signed-in check or the admin check, required-field
    validation, then one call into the store, with the store's null turned into 'not found'.
    The signed-in user (`getUser()`) is a parameter; `None` is "nobody signed in". */
module OrganizationActions {
  import opened Wrappers
  import opened JsString
  import opened Tables
  import opened Records
  import opened MockData

  const SignInToCreate: string := "You must be signed in to create an organization"
  const SignInToUpdate: string := "You must be signed in to update an organization"
  const NameAndDescriptionRequired: string := "Name and description are required"
  const AdminToApprove: string := "You must be an admin to approve organizations"
  const AdminToReject: string := "You must be an admin to reject organizations"
  const NotFound: string := "Organization not found"

  /** `createOrganization`: a signed-in user with a non-empty name and description gets a new
      organization that they own and that starts out pending; any other call changes nothing. */
  method CreateOrganization(store: Store, user: Option<User>, name: string, description: string, now: string)
    returns (r: Result<Organization>)
    requires store.Valid()
    modifies store
    ensures store.Valid()
    ensures user.None? ==> r == Failure(SignInToCreate) && unchanged(store)
    ensures user.Some? && (name == "" || description == "") ==>
      r == Failure(NameAndDescriptionRequired) && unchanged(store)
    ensures user.Some? && name != "" && description != "" ==>
      && r == Success(Organization(NatToString(|old(store.organizations)| + 1), name, description,
                                   user.value.id, OrgStatus.Pending, now, now))
      && store.organizations == old(store.organizations) + [r.value]
      && store.users == old(store.users) && store.projects == old(store.projects)
      && store.projectProofs == old(store.projectProofs)
  {
    if user.None? {
      return Failure(SignInToCreate);
    }
    if name == "" || description == "" {
      return Failure(NameAndDescriptionRequired);
    }
    var o := store.CreateOrganization(NewOrganization(name, description, user.value.id, OrgStatus.Pending), now);
    r := Success(o);
  }

  /** `getOrganization`: the organization with that id, or 'Organization not found'. */
  function GetOrganization(store: Store, id: string): (r: Result<Organization>)
    reads store
    ensures r.Success? <==> id in OrganizationIds(store.organizations)
    ensures r.Success? ==> r.value in store.organizations && r.value.id == id
    ensures r.Failure? ==> r.error == NotFound
  {
    match store.GetOrganization(id)
    case None => Failure(NotFound)
    case Some(o) => Success(o)
  }

  /** `updateOrganization`: any signed-in user may rename any organization; only the name, the
      description and `updated_at` change, so its owner and status stay as they were. */
  method UpdateOrganization(store: Store, user: Option<User>, id: string, name: string, description: string, now: string)
    returns (r: Result<Organization>)
    requires store.Valid()
    modifies store
    ensures store.Valid()
    ensures user.None? ==> r == Failure(SignInToUpdate) && unchanged(store)
    ensures user.Some? && (name == "" || description == "") ==>
      r == Failure(NameAndDescriptionRequired) && unchanged(store)
    ensures user.Some? && name != "" && description != "" && id !in OrganizationIds(old(store.organizations)) ==>
      r == Failure(NotFound) && unchanged(store)
    ensures user.Some? && name != "" && description != "" && id in OrganizationIds(old(store.organizations)) ==>
      var i := IndexOf(OrganizationIds(old(store.organizations)), id).value;
      && r == Success(old(store.organizations)[i].(name := name, description := description, updatedAt := now))
      && store.organizations == old(store.organizations)[i := r.value]
    ensures store.users == old(store.users) && store.projects == old(store.projects)
    ensures store.projectProofs == old(store.projectProofs)
  {
    if user.None? {
      return Failure(SignInToUpdate);
    }
    if name == "" || description == "" {
      return Failure(NameAndDescriptionRequired);
    }
    var patch := OrganizationPatch(Some(name), Some(description), None, None, None);
    var o := store.UpdateOrganization(id, patch, now);
    if o.None? {
      return Failure(NotFound);
    }
    r := Success(o.value);
  }

  /** The body `approveOrganization` and `rejectOrganization` share: the admin check, then an
      unconditional overwrite of the status, whatever it was before. */
  method SetStatus(store: Store, user: Option<User>, id: string, status: OrgStatus, denied: string, now: string)
    returns (r: Result<Organization>)
    requires store.Valid()
    modifies store
    ensures store.Valid()
    ensures !IsAdmin(user) ==> r == Failure(denied) && unchanged(store)
    ensures IsAdmin(user) && id !in OrganizationIds(old(store.organizations)) ==>
      r == Failure(NotFound) && unchanged(store)
    ensures IsAdmin(user) && id in OrganizationIds(old(store.organizations)) ==>
      var i := IndexOf(OrganizationIds(old(store.organizations)), id).value;
      && r == Success(old(store.organizations)[i].(status := status, updatedAt := now))
      && store.organizations == old(store.organizations)[i := r.value]
    ensures store.users == old(store.users) && store.projects == old(store.projects)
    ensures store.projectProofs == old(store.projectProofs)
  {
    if !IsAdmin(user) {
      return Failure(denied);
    }
    var o := store.UpdateOrganization(id, OrganizationPatch(None, None, None, Some(status), None), now);
    if o.None? {
      return Failure(NotFound);
    }
    r := Success(o.value);
  }

  /** `approveOrganization`: only the admin account; sets 'approved' from any prior status. */
  method ApproveOrganization(store: Store, user: Option<User>, id: string, now: string)
    returns (r: Result<Organization>)
    requires store.Valid()
    modifies store
    ensures store.Valid()
    ensures !IsAdmin(user) ==> r == Failure(AdminToApprove) && unchanged(store)
    ensures IsAdmin(user) && id !in OrganizationIds(old(store.organizations)) ==>
      r == Failure(NotFound) && unchanged(store)
    ensures IsAdmin(user) && id in OrganizationIds(old(store.organizations)) ==>
      var i := IndexOf(OrganizationIds(old(store.organizations)), id).value;
      && r == Success(old(store.organizations)[i].(status := OrgStatus.Approved, updatedAt := now))
      && store.organizations == old(store.organizations)[i := r.value]
    ensures store.users == old(store.users) && store.projects == old(store.projects)
    ensures store.projectProofs == old(store.projectProofs)
  {
    r := SetStatus(store, user, id, OrgStatus.Approved, AdminToApprove, now);
  }

  /** `rejectOrganization`: only the admin account; sets 'rejected' from any prior status. */
  method RejectOrganization(store: Store, user: Option<User>, id: string, now: string)
    returns (r: Result<Organization>)
    requires store.Valid()
    modifies store
    ensures store.Valid()
    ensures !IsAdmin(user) ==> r == Failure(AdminToReject) && unchanged(store)
    ensures IsAdmin(user) && id !in OrganizationIds(old(store.organizations)) ==>
      r == Failure(NotFound) && unchanged(store)
    ensures IsAdmin(user) && id in OrganizationIds(old(store.organizations)) ==>
      var i := IndexOf(OrganizationIds(old(store.organizations)), id).value;
      && r == Success(old(store.organizations)[i].(status := OrgStatus.Rejected, updatedAt := now))
      && store.organizations == old(store.organizations)[i := r.value]
    ensures store.users == old(store.users) && store.projects == old(store.projects)
    ensures store.projectProofs == old(store.projectProofs)
  {
    r := SetStatus(store, user, id, OrgStatus.Rejected, AdminToReject, now);
  }
}
