/**
 * The access-policy data source: reads one policy by ID and exposes who it
 * grants (its subject), where (its scope) and which roles. The subject and
 * the scope are each the first linked object present in a fixed priority
 * order. The type tags are named by kind; their text is defined outside
 * this model.
 */
module AccessPolicy {
  import opened Wrappers

  datatype Kind = User | Team | ServiceAccount | Workspace | Environment | Account

  /** A subject or scope entry: its type tag and the linked object's ID. */
  datatype Ref = Ref(kind: Kind, id: string)

  datatype Role = Role(id: string)

  /** The policy as the API returns it; linked objects as optional IDs. */
  datatype RemoteAccessPolicy = RemoteAccessPolicy(
    id: string, isSystem: bool,
    user: Option<string>, team: Option<string>, serviceAccount: Option<string>,
    workspace: Option<string>, environment: Option<string>, account: Option<string>,
    roles: seq<Role>)

  /** The object of a given kind the policy links to, if any. */
  function Linked(ap: RemoteAccessPolicy, k: Kind): Option<string> {
    match k
    case User => ap.user
    case Team => ap.team
    case ServiceAccount => ap.serviceAccount
    case Workspace => ap.workspace
    case Environment => ap.environment
    case Account => ap.account
  }

  /** The kinds each selection looks at, highest priority first. */
  const SubjectKinds: seq<Kind> := [User, Team, ServiceAccount]
  const ScopeKinds: seq<Kind> := [Workspace, Environment, Account]

  /** `r` is the first kind in `kinds` the policy links to, with its ID. */
  predicate FirstLinked(ap: RemoteAccessPolicy, kinds: seq<Kind>, r: Ref) {
    exists i | 0 <= i < |kinds| ::
      && kinds[i] == r.kind
      && Linked(ap, r.kind) == Some(r.id)
      && forall j | 0 <= j < i :: Linked(ap, kinds[j]).None?
  }

  /** The subject: user before team before service account. */
  function SubjectOf(ap: RemoteAccessPolicy): (r: Option<Ref>)
    ensures r.None? <==> forall i | 0 <= i < |SubjectKinds| :: Linked(ap, SubjectKinds[i]).None?
    ensures r.Some? ==> FirstLinked(ap, SubjectKinds, r.value)
  {
    if ap.user.Some? then
      assert SubjectKinds[0] == User;
      Some(Ref(User, ap.user.value))
    else if ap.team.Some? then
      assert SubjectKinds[1] == Team && Linked(ap, SubjectKinds[0]).None?;
      Some(Ref(Team, ap.team.value))
    else if ap.serviceAccount.Some? then
      assert SubjectKinds[2] == ServiceAccount;
      assert Linked(ap, SubjectKinds[0]).None? && Linked(ap, SubjectKinds[1]).None?;
      Some(Ref(ServiceAccount, ap.serviceAccount.value))
    else
      assert Linked(ap, SubjectKinds[0]).None? && Linked(ap, SubjectKinds[1]).None?;
      assert Linked(ap, SubjectKinds[2]).None?;
      None
  }

  /** The scope: workspace before environment before account. */
  function ScopeOf(ap: RemoteAccessPolicy): (r: Option<Ref>)
    ensures r.None? <==> forall i | 0 <= i < |ScopeKinds| :: Linked(ap, ScopeKinds[i]).None?
    ensures r.Some? ==> FirstLinked(ap, ScopeKinds, r.value)
  {
    if ap.workspace.Some? then
      assert ScopeKinds[0] == Workspace;
      Some(Ref(Workspace, ap.workspace.value))
    else if ap.environment.Some? then
      assert ScopeKinds[1] == Environment && Linked(ap, ScopeKinds[0]).None?;
      Some(Ref(Environment, ap.environment.value))
    else if ap.account.Some? then
      assert ScopeKinds[2] == Account;
      assert Linked(ap, ScopeKinds[0]).None? && Linked(ap, ScopeKinds[1]).None?;
      Some(Ref(Account, ap.account.value))
    else
      assert Linked(ap, ScopeKinds[0]).None? && Linked(ap, ScopeKinds[1]).None?;
      assert Linked(ap, ScopeKinds[2]).None?;
      None
  }

  /** In a list of distinct kinds there is only one first linked entry, so
      each selection is determined by the policy alone. */
  lemma FirstLinkedUnique(ap: RemoteAccessPolicy, kinds: seq<Kind>, a: Ref, b: Ref)
    requires forall i, j | 0 <= i < j < |kinds| :: kinds[i] != kinds[j]
    requires FirstLinked(ap, kinds, a) && FirstLinked(ap, kinds, b)
    ensures a == b
  {
    var i :| 0 <= i < |kinds| && kinds[i] == a.kind && Linked(ap, a.kind) == Some(a.id)
             && forall j | 0 <= j < i :: Linked(ap, kinds[j]).None?;
    var k :| 0 <= k < |kinds| && kinds[k] == b.kind && Linked(ap, b.kind) == Some(b.id)
             && forall j | 0 <= j < k :: Linked(ap, kinds[j]).None?;
    assert Linked(ap, kinds[i]).Some? && Linked(ap, kinds[k]).Some?;
    assert i == k;
  }

  /** The subject is exactly the first linked user, team or service account. */
  lemma SubjectIsFirstLinked(ap: RemoteAccessPolicy, r: Ref)
    ensures SubjectOf(ap) == Some(r) <==> FirstLinked(ap, SubjectKinds, r)
  {
    if FirstLinked(ap, SubjectKinds, r) {
      var i :| 0 <= i < |SubjectKinds| && SubjectKinds[i] == r.kind && Linked(ap, r.kind) == Some(r.id);
      assert Linked(ap, SubjectKinds[i]).Some?;
      FirstLinkedUnique(ap, SubjectKinds, SubjectOf(ap).value, r);
    }
  }

  /** The scope is exactly the first linked workspace, environment or account. */
  lemma ScopeIsFirstLinked(ap: RemoteAccessPolicy, r: Ref)
    ensures ScopeOf(ap) == Some(r) <==> FirstLinked(ap, ScopeKinds, r)
  {
    if FirstLinked(ap, ScopeKinds, r) {
      var i :| 0 <= i < |ScopeKinds| && ScopeKinds[i] == r.kind && Linked(ap, r.kind) == Some(r.id);
      assert Linked(ap, ScopeKinds[i]).Some?;
      FirstLinkedUnique(ap, ScopeKinds, ScopeOf(ap).value, r);
    }
  }

  /** The subject and the scope never come from the same linked object. */
  lemma SubjectAndScopeDiffer(ap: RemoteAccessPolicy)
    requires SubjectOf(ap).Some? && ScopeOf(ap).Some?
    ensures SubjectOf(ap).value.kind != ScopeOf(ap).value.kind
  {
    var s := SubjectOf(ap).value;
    var c := ScopeOf(ap).value;
    var i :| 0 <= i < |SubjectKinds| && SubjectKinds[i] == s.kind;
    var k :| 0 <= k < |ScopeKinds| && ScopeKinds[k] == c.kind;
    assert s.kind in {User, Team, ServiceAccount};
    assert c.kind in {Workspace, Environment, Account};
  }

  function NotFoundMessage(id: string): string {
    "AccessPolicy '" + id + "' not found"
  }

  function ReadFailedMessage(id: string, cause: string): string {
    "Error reading configuration of access policy " + id + ": " + cause
  }

  function NoSubjectMessage(policyId: string): string {
    "Unable to extract subject from access policy " + policyId
  }

  function NoScopeMessage(policyId: string): string {
    "Unable to extract scope from access policy " + policyId
  }

  /** The roles' IDs in the policy's order. */
  method CollectRoleIds(roles: seq<Role>) returns (roleIds: seq<string>)
    ensures |roleIds| == |roles|
    ensures forall i | 0 <= i < |roles| :: roleIds[i] == roles[i].id
  {
    roleIds := [];
    var i := 0;
    while i < |roles|
      invariant 0 <= i <= |roles|
      invariant |roleIds| == i
      invariant forall k | 0 <= k < i :: roleIds[k] == roles[k].id
    {
      roleIds := roleIds + [roles[i].id];
      i := i + 1;
    }
  }

  /** The data source's state: the configured ID until a read succeeds. */
  class AccessPolicyData {
    var id: string
    var isSystem: bool
    var subject: seq<Ref>
    var scope: seq<Ref>
    var roleIds: seq<string>

    constructor (id: string)
      ensures this.id == id && subject == [] && scope == [] && roleIds == [] && !isSystem
    {
      this.id := id;
      isSystem := false;
      subject := [];
      scope := [];
      roleIds := [];
    }

    /** Reads the policy with the configured ID. The subject is stored
        before the scope is looked at, so a policy without a scope fails
        with its subject already in state. */
    method Read(response: Response<RemoteAccessPolicy>) returns (err: Option<string>)
      modifies this
      ensures response.NotFound? ==> err == Some(NotFoundMessage(old(id))) && unchanged(this)
      ensures response.Failed? ==>
        err == Some(ReadFailedMessage(old(id), response.cause)) && unchanged(this)
      ensures response.Found? && SubjectOf(response.value).None? ==>
        err == Some(NoSubjectMessage(response.value.id)) && unchanged(this)
      ensures response.Found? && SubjectOf(response.value).Some? && ScopeOf(response.value).None? ==>
        && err == Some(NoScopeMessage(response.value.id))
        && subject == [SubjectOf(response.value).value]
        && id == old(id) && isSystem == old(isSystem) && scope == old(scope) && roleIds == old(roleIds)
      ensures response.Found? && SubjectOf(response.value).Some? && ScopeOf(response.value).Some? ==>
        && err.None?
        && subject == [SubjectOf(response.value).value]
        && scope == [ScopeOf(response.value).value]
        && |roleIds| == |response.value.roles|
        && (forall i | 0 <= i < |roleIds| :: roleIds[i] == response.value.roles[i].id)
        && isSystem == response.value.isSystem
        && id == response.value.id
    {
      match response {
        case NotFound =>
          return Some(NotFoundMessage(id));
        case Failed(cause) =>
          return Some(ReadFailedMessage(id, cause));
        case Found(ap) =>
          var subjectEl := SubjectOf(ap);
          if subjectEl.None? {
            return Some(NoSubjectMessage(ap.id));
          }
          subject := [subjectEl.value];
          var scopeEl := ScopeOf(ap);
          if scopeEl.None? {
            return Some(NoScopeMessage(ap.id));
          }
          scope := [scopeEl.value];
          roleIds := CollectRoleIds(ap.roles);
          isSystem := ap.isSystem;
          id := ap.id;
          return None;
      }
    }
  }
}
