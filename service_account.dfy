/**
 * The service-account resource. Create sends the optional fields only when
 * they are set, Update sends only the fields that changed, and Read shapes
 * the optional creator into a list of at most one entry. The status values
 * come from the API client library, which is not part of this model.
 */
module ServiceAccount {
  import opened Wrappers

  const StatusActive := "active"
  const StatusInactive := "inactive"

  /** The statuses the schema accepts, compared case-sensitively. */
  const Statuses: set<string> := {StatusActive, StatusInactive}

  /** The schema's validator for `status`: it refuses any other value and
      names the value it refused. */
  function ValidateStatus(status: string): (err: Option<string>)
    ensures err.None? <==> status == StatusActive || status == StatusInactive
    ensures err.Some? ==> err.value == status
  {
    if status in Statuses then None else Some(status)
  }

  /** A status that is unset or accepted by the schema. */
  predicate StatusAllowed(status: string) {
    status == "" || ValidateStatus(status).None?
  }

  datatype User = User(username: string, email: string, fullName: string)

  /** The service account as the API returns it. */
  datatype RemoteServiceAccount = RemoteServiceAccount(
    name: string, email: string, description: string, status: string, accountId: string,
    createdBy: Option<User>)

  datatype CreateOptions = CreateOptions(
    name: string, accountId: string, description: Option<string>, status: Option<string>)

  datatype UpdateOptions = UpdateOptions(description: Option<string>, status: Option<string>)

  /** The list `created_by` holds for an optional creator. */
  function CreatedByList(creator: Option<User>): (createdBy: seq<User>)
    ensures creator.None? <==> createdBy == []
    ensures creator.Some? ==> createdBy == [creator.value]
  {
    if creator.Some? then [creator.value] else []
  }

  /** `created_by` in state: one entry for a known creator, none otherwise. */
  method ShapeCreatedBy(creator: Option<User>) returns (createdBy: seq<User>)
    ensures createdBy == CreatedByList(creator)
  {
    createdBy := [];
    if creator.Some? {
      createdBy := createdBy + [creator.value];
    }
  }

  /** A snapshot of the resource's state. */
  datatype ServiceAccountState = ServiceAccountState(
    id: string, name: string, email: string, description: string, status: string,
    accountId: string, createdBy: seq<User>)

  /** The state after a read: a service account that no longer exists loses
      its ID and nothing else, a failed read changes nothing, a found one
      overwrites every field. */
  function AfterRead(s: ServiceAccountState, response: Response<RemoteServiceAccount>): (r: ServiceAccountState)
    ensures response.NotFound? ==> r.id == "" && r.(id := s.id) == s
    ensures response.Failed? ==> r == s
    ensures response.Found? ==>
      && r.id == s.id && r.name == response.value.name && r.email == response.value.email
      && r.description == response.value.description && r.status == response.value.status
      && r.accountId == response.value.accountId
    ensures response.Found? ==>
      && |r.createdBy| <= 1
      && (r.createdBy != [] <==> response.value.createdBy.Some?)
  {
    match response
    case NotFound => s.(id := "")
    case Failed(_) => s
    case Found(sa) =>
      ServiceAccountState(s.id, sa.name, sa.email, sa.description, sa.status, sa.accountId,
                          CreatedByList(sa.createdBy))
  }

  class ServiceAccountData {
    var id: string
    var name: string
    var email: string
    var description: string
    var status: string
    var accountId: string
    var createdBy: seq<User>

    function State(): ServiceAccountState
      reads this
    {
      ServiceAccountState(id, name, email, description, status, accountId, createdBy)
    }

    /** A configured service account not yet created; `accountId` is the
        configured or default account. */
    constructor (name: string, description: string, status: string, accountId: string)
      ensures State() == ServiceAccountState("", name, "", description, status, accountId, [])
    {
      this.id := "";
      this.name := name;
      this.email := "";
      this.description := description;
      this.status := status;
      this.accountId := accountId;
      this.createdBy := [];
    }

    method Read(response: Response<RemoteServiceAccount>) returns (err: Option<string>)
      modifies this
      ensures State() == AfterRead(old(State()), response)
      ensures err == ReadOutcome(response)
    {
      match response {
        case NotFound =>
          id := "";
          return None;
        case Failed(cause) =>
          return Some(cause);
        case Found(sa) =>
          name := sa.name;
          email := sa.email;
          description := sa.description;
          status := sa.status;
          accountId := sa.accountId;
          createdBy := ShapeCreatedBy(sa.createdBy);
          return None;
      }
    }

    /** Create's options: name and account always, description and status
        only when they are set. */
    method BuildCreateOptions() returns (options: CreateOptions)
      requires StatusAllowed(status)
      ensures options.name == name && options.accountId == accountId
      ensures options.description.Some? <==> description != ""
      ensures options.description.Some? ==> options.description.value == description
      ensures options.status.Some? <==> status != ""
      ensures options.status.Some? ==> options.status.value in Statuses
      ensures options.status.Some? ==> options.status.value == status
    {
      options := CreateOptions(name, accountId, None, None);
      if description != "" {
        options := options.(description := Some(description));
      }
      if status != "" {
        options := options.(status := Some(status));
      }
    }

    /** Update's options: the description only when it changed, the status
        only when it changed. */
    method BuildUpdateOptions(descriptionChanged: bool, statusChanged: bool)
      returns (options: UpdateOptions)
      requires StatusAllowed(status)
      ensures options.description.Some? <==> descriptionChanged
      ensures options.description.Some? ==> options.description.value == description
      ensures options.status.Some? <==> statusChanged
      ensures options.status.Some? ==> options.status.value == status
      ensures options.status.Some? ==> options.status.value == "" || options.status.value in Statuses
    {
      options := UpdateOptions(None, None);
      if descriptionChanged {
        options := options.(description := Some(description));
      }
      if statusChanged {
        options := options.(status := Some(status));
      }
    }

    /** Creates the service account, records its ID and reads it back. */
    method Create(create: CreateOptions -> Result<string, string>,
                  read: Response<RemoteServiceAccount>)
      returns (err: Option<string>, sent: CreateOptions)
      requires StatusAllowed(status)
      modifies this
      ensures sent.name == old(name) && sent.accountId == old(accountId)
      ensures sent.description.Some? <==> old(description) != ""
      ensures sent.description.Some? ==> sent.description.value == old(description)
      ensures sent.status.Some? <==> old(status) != ""
      ensures sent.status.Some? ==> sent.status.value == old(status) && sent.status.value in Statuses
      ensures create(sent).Failure? ==> err == Some(create(sent).error) && unchanged(this)
      ensures create(sent).Success? ==>
        && State() == AfterRead(old(State()).(id := create(sent).value), read)
        && err == ReadOutcome(read)
    {
      sent := BuildCreateOptions();
      var created := create(sent);
      if created.Failure? {
        return Some(created.error), sent;
      }
      id := created.value;
      err := Read(read);
    }

    /** Sends only what changed; the call is made even when nothing did. */
    method Update(descriptionChanged: bool, statusChanged: bool,
                  update: (string, UpdateOptions) -> Option<string>,
                  read: Response<RemoteServiceAccount>)
      returns (err: Option<string>, sent: UpdateOptions)
      requires StatusAllowed(status)
      modifies this
      ensures sent.description.Some? <==> descriptionChanged
      ensures sent.description.Some? ==> sent.description.value == old(description)
      ensures sent.status.Some? <==> statusChanged
      ensures sent.status.Some? ==> sent.status.value == old(status)
      ensures sent.status.Some? ==> sent.status.value == "" || sent.status.value in Statuses
      ensures update(old(id), sent).Some? ==> err == update(old(id), sent) && unchanged(this)
      ensures update(old(id), sent).None? ==>
        State() == AfterRead(old(State()), read) && err == ReadOutcome(read)
    {
      sent := BuildUpdateOptions(descriptionChanged, statusChanged);
      var failure := update(id, sent);
      if failure.Some? {
        return failure, sent;
      }
      err := Read(read);
    }

    /** Deletes the service account; one already gone counts as deleted. */
    method Delete(delete: string -> DeleteStatus) returns (err: Option<string>)
      ensures err == DeleteOutcome(delete(id))
      ensures err.None? <==> !delete(id).Refused?
    {
      err := DeleteOutcome(delete(id));
    }
  }
}
