/**
 * The role resource: a named set of permission IDs in an account. Its
 * Terraform state is an object that Create, Read and Update fill field by
 * field; the remote API is a set of answers and callbacks passed in.
 */
module Role {
  import opened Wrappers
  import opened StringOrder

  datatype Permission = Permission(id: string)

  /** The schema admits a permissions list of 1 to 128 entries and refuses
      any other configuration before Create or Update runs. */
  const MinPermissions := 1
  const MaxPermissions := 128

  predicate PermissionCountAllowed(ids: seq<string>) {
    MinPermissions <= |ids| <= MaxPermissions
  }

  /** The IDs of a list of permissions, in order. */
  function PermissionIds(ps: seq<Permission>): (ids: seq<string>)
    ensures |ids| == |ps|
    ensures forall i | 0 <= i < |ps| :: ids[i] == ps[i].id
  {
    seq(|ps|, i requires 0 <= i < |ps| => ps[i].id)
  }

  function ParseError(cause: string): string {
    "Got error during parsing permissions: " + cause
  }

  /** Turns the configured permission IDs into permissions, one per ID and
      in the same order. `idsError` is the answer of the ID-list validator,
      which is not part of this model. */
  method ParsePermissionDefinitions(ids: seq<string>, idsError: Option<string>)
    returns (r: Result<seq<Permission>, string>)
    ensures r.Failure? <==> idsError.Some?
    ensures idsError.Some? ==> r.error == ParseError(idsError.value)
    ensures r.Success? ==> PermissionIds(r.value) == ids
  {
    if idsError.Some? {
      return Failure(ParseError(idsError.value));
    }
    var permissions: seq<Permission> := [];
    var i := 0;
    while i < |ids|
      invariant 0 <= i <= |ids|
      invariant PermissionIds(permissions) == ids[..i]
    {
      permissions := permissions + [Permission(ids[i])];
      i := i + 1;
    }
    assert ids[..i] == ids;
    return Success(permissions);
  }

  /** What Read keeps as the permissions in state: the state's own list when
      it sorts equal to the remote one, the sorted remote list otherwise. */
  function Reconciled(state: seq<string>, remote: seq<string>): seq<string> {
    if Sort(remote) == Sort(state) then state else Sort(remote)
  }

  /** Order alone never changes the state: Read leaves the permissions as
      they are exactly when they hold the remote IDs in some order. */
  lemma ReconciledIgnoresOrder(state: seq<string>, remote: seq<string>)
    ensures Reconciled(state, remote) == state <==> multiset(state) == multiset(remote)
  {
    SortCanonical(state, remote);
  }

  /** Whatever Read keeps holds exactly the remote permissions. */
  lemma ReconciledHoldsRemote(state: seq<string>, remote: seq<string>)
    ensures multiset(Reconciled(state, remote)) == multiset(remote)
  {
    SortCanonical(state, remote);
  }

  /** A second read of the same remote role changes nothing more. */
  lemma ReconciledIdempotent(state: seq<string>, remote: seq<string>)
    ensures Reconciled(Reconciled(state, remote), remote) == Reconciled(state, remote)
  {
    ReconciledHoldsRemote(state, remote);
    ReconciledIgnoresOrder(Reconciled(state, remote), remote);
  }

  /** Read's comparison: both lists are sorted, the state's only when it is
      set and the remote one only when it is non-empty, and the state takes
      the sorted remote list only when the two differ. */
  method ReconcilePermissions(state: seq<string>, remote: seq<Permission>)
    returns (kept: seq<string>)
    ensures kept == Reconciled(state, PermissionIds(remote))
  {
    var schemaPermissions: seq<string> := [];
    if state != [] {
      schemaPermissions := Sort(state);
    }
    var remotePermissions: seq<string> := [];
    if |remote| != 0 {
      var i := 0;
      while i < |remote|
        invariant 0 <= i <= |remote|
        invariant |remotePermissions| == i
        invariant forall k | 0 <= k < i :: remotePermissions[k] == remote[k].id
      {
        remotePermissions := remotePermissions + [remote[i].id];
        i := i + 1;
      }
      assert remotePermissions == PermissionIds(remote);
      remotePermissions := Sort(remotePermissions);
    }
    kept := state;
    if remotePermissions != schemaPermissions {
      kept := remotePermissions;
    }
  }

  /** The role as the API returns it. */
  datatype RemoteRole = RemoteRole(
    name: string, description: string, accountId: string, isSystem: bool,
    permissions: seq<Permission>)

  datatype CreateOptions = CreateOptions(
    name: string, accountId: string, description: string, permissions: seq<Permission>)

  datatype UpdateOptions = UpdateOptions(
    name: string, description: string, permissions: seq<Permission>)

  /** A snapshot of the resource's state, for stating what Read does. */
  datatype RoleState = RoleState(
    id: string, name: string, description: string, accountId: string,
    isSystem: bool, permissions: seq<string>)

  /** The state after a read: a role that no longer exists loses its ID and
      nothing else, a failed read changes nothing, a found role overwrites
      every field but keeps the state's permission order when the IDs agree. */
  function AfterRead(s: RoleState, response: Response<RemoteRole>): (r: RoleState)
    ensures response.NotFound? ==> r.id == "" && r.(id := s.id) == s
    ensures response.Failed? ==> r == s
    ensures response.Found? ==> r.id == s.id
    ensures response.Found? ==> r.name == response.value.name && r.description == response.value.description
    ensures response.Found? ==> r.accountId == response.value.accountId && r.isSystem == response.value.isSystem
    ensures response.Found? ==>
      multiset(r.permissions) == multiset(PermissionIds(response.value.permissions))
    ensures response.Found? ==>
      (r.permissions == s.permissions <==>
       multiset(s.permissions) == multiset(PermissionIds(response.value.permissions)))
  {
    match response
    case NotFound => s.(id := "")
    case Failed(_) => s
    case Found(role) =>
      var remote := PermissionIds(role.permissions);
      ReconciledHoldsRemote(s.permissions, remote);
      ReconciledIgnoresOrder(s.permissions, remote);
      s.(name := role.name, description := role.description, accountId := role.accountId,
         isSystem := role.isSystem, permissions := Reconciled(s.permissions, remote))
  }

  /** Reading the same remote role twice leaves the state of the first read. */
  lemma ReadIdempotent(s: RoleState, response: Response<RemoteRole>)
    ensures AfterRead(AfterRead(s, response), response) == AfterRead(s, response)
  {
    if response.Found? {
      ReconciledIdempotent(s.permissions, PermissionIds(response.value.permissions));
    }
  }

  class RoleData {
    var id: string
    var name: string
    var description: string
    var accountId: string
    var isSystem: bool
    var permissions: seq<string>

    function State(): RoleState
      reads this
    {
      RoleState(id, name, description, accountId, isSystem, permissions)
    }

    /** A configured role not yet created. */
    constructor (name: string, description: string, accountId: string, permissions: seq<string>)
      ensures State() == RoleState("", name, description, accountId, false, permissions)
    {
      this.id := "";
      this.name := name;
      this.description := description;
      this.accountId := accountId;
      this.isSystem := false;
      this.permissions := permissions;
    }

    method Read(response: Response<RemoteRole>) returns (err: Option<string>)
      modifies this
      ensures State() == AfterRead(old(State()), response)
      ensures err == ReadOutcome(response)
    {
      match response {
        case NotFound =>
          id := "";
          return None;
        case Failed(cause) =>
          return Some(cause);
        case Found(role) =>
          name := role.name;
          description := role.description;
          accountId := role.accountId;
          isSystem := role.isSystem;
          permissions := ReconcilePermissions(permissions, role.permissions);
          return None;
      }
    }

    /** Creates the role from the configuration, records its ID and reads
        it back. `create` answers the new role's ID or an error. */
    method Create(idsError: Option<string>, create: CreateOptions -> Result<string, string>,
                  read: Response<RemoteRole>)
      returns (err: Option<string>, sent: Option<CreateOptions>)
      requires PermissionCountAllowed(permissions)
      modifies this
      ensures sent.Some? <==> idsError.None?
      ensures idsError.Some? ==> err == Some(ParseError(idsError.value)) && unchanged(this)
      ensures sent.Some? ==>
        && sent.value.name == old(name) && sent.value.accountId == old(accountId)
        && sent.value.description == old(description)
        && PermissionIds(sent.value.permissions) == old(permissions)
        && PermissionCountAllowed(PermissionIds(sent.value.permissions))
      ensures sent.Some? && create(sent.value).Failure? ==>
        err == Some(create(sent.value).error) && unchanged(this)
      ensures sent.Some? && create(sent.value).Success? ==>
        && State() == AfterRead(old(State()).(id := create(sent.value).value), read)
        && err == ReadOutcome(read)
    {
      var parsed := ParsePermissionDefinitions(permissions, idsError);
      if parsed.Failure? {
        return Some(parsed.error), None;
      }
      var options := CreateOptions(name, accountId, description, parsed.value);
      sent := Some(options);
      var created := create(options);
      if created.Failure? {
        return Some(created.error), sent;
      }
      id := created.value;
      err := Read(read);
    }

    /** Calls the API only when the name, the description or the permissions
        changed, then reads the role back. */
    method Update(nameChanged: bool, descriptionChanged: bool, permissionsChanged: bool,
                  idsError: Option<string>, update: (string, UpdateOptions) -> Option<string>,
                  read: Response<RemoteRole>)
      returns (err: Option<string>, sent: Option<UpdateOptions>)
      requires PermissionCountAllowed(permissions)
      modifies this
      ensures sent.Some? <==> (nameChanged || descriptionChanged || permissionsChanged) && idsError.None?
      ensures (nameChanged || descriptionChanged || permissionsChanged) && idsError.Some? ==>
        err == Some(ParseError(idsError.value)) && unchanged(this)
      ensures sent.Some? ==>
        && sent.value.name == old(name) && sent.value.description == old(description)
        && PermissionIds(sent.value.permissions) == old(permissions)
        && PermissionCountAllowed(PermissionIds(sent.value.permissions))
      ensures sent.Some? && update(old(id), sent.value).Some? ==>
        err == update(old(id), sent.value) && unchanged(this)
      ensures !(nameChanged || descriptionChanged || permissionsChanged)
              || (sent.Some? && update(old(id), sent.value).None?) ==>
        State() == AfterRead(old(State()), read) && err == ReadOutcome(read)
    {
      sent := None;
      if nameChanged || descriptionChanged || permissionsChanged {
        var parsed := ParsePermissionDefinitions(permissions, idsError);
        if parsed.Failure? {
          return Some(parsed.error), None;
        }
        var options := UpdateOptions(name, description, parsed.value);
        sent := Some(options);
        var failure := update(id, options);
        if failure.Some? {
          return failure, sent;
        }
      }
      err := Read(read);
    }

    /** Deletes the role; one that is already gone counts as deleted. */
    method Delete(delete: string -> DeleteStatus) returns (err: Option<string>)
      ensures err == DeleteOutcome(delete(id))
      ensures err.None? <==> !delete(id).Refused?
    {
      err := DeleteOutcome(delete(id));
    }
  }
}
