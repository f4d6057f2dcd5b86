/**
 * The webhook resource: a named subscription of an endpoint to run events,
 * scoped to a workspace or an environment. Workspace, environment and
 * webhook lookups are answers passed in; Go's map iteration order, which
 * decides the order of the allowed values in an error message, is a
 * parameter.
 */
module Webhook {
  import opened Wrappers

  /** The events a webhook may subscribe to. */
  const EventDefinitions: set<string> := {"run:completed", "run:errored", "run:needs_attention"}

  datatype EventDefinition = EventDefinition(id: string)

  datatype WebhookError =
    | InvalidEvent(name: string, allowed: seq<string>)
    | EventIdsInvalid(cause: string)
    | WorkspaceReadFailed(workspaceId: string, cause: string)
    | WorkspaceOutsideEnvironment(workspaceId: string, environmentId: string)
    | EnvironmentReadFailed(environmentId: string, cause: string)
    | MissingScope
    | WebhookNotFound(webhookId: string)
    | RequestFailed(cause: string)

  /** The text of the scope error raised when neither ID resolves. */
  const MissingScopeMessage := "Missing workspace_id or environment_id"

  /** `order` lists the allowed events once each, in map iteration order. */
  predicate EnumeratesEvents(order: seq<string>) {
    && |order| == |EventDefinitions|
    && (forall e | e in order :: e in EventDefinitions)
    && (forall e | e in EventDefinitions :: e in order)
  }

  function Quote(e: string): (q: string)
    ensures |q| == |e| + 2 && q[1..|q| - 1] == e
  {
    "'" + e + "'"
  }

  function QuoteAll(order: seq<string>): (qs: seq<string>)
    ensures |qs| == |order| && forall i | 0 <= i < |order| :: qs[i] == Quote(order[i])
  {
    seq(|order|, i requires 0 <= i < |order| => Quote(order[i]))
  }

  /** Accepts exactly the three run events; any other name is refused with
      the list of every allowed value, quoted. */
  function ValidateEventDefinition(name: string, order: seq<string>): (err: Option<WebhookError>)
    requires EnumeratesEvents(order)
    ensures err.None? <==> name in EventDefinitions
    ensures err.Some? ==> err.value.InvalidEvent? && err.value.name == name
    ensures err.Some? ==> |err.value.allowed| == |EventDefinitions|
    ensures err.Some? ==> forall e :: Quote(e) in err.value.allowed <==> e in EventDefinitions
  {
    if name in EventDefinitions then None
    else
      QuotesEveryEvent(order);
      Some(InvalidEvent(name, QuoteAll(order)))
  }

  /** The quoted list names every allowed event and nothing else. */
  lemma QuotesEveryEvent(order: seq<string>)
    requires EnumeratesEvents(order)
    ensures forall e :: Quote(e) in QuoteAll(order) <==> e in EventDefinitions
  {
    forall e ensures Quote(e) in QuoteAll(order) <==> e in EventDefinitions {
      if Quote(e) in QuoteAll(order) {
        var i :| 0 <= i < |order| && QuoteAll(order)[i] == Quote(e);
        assert Quote(order[i]) == Quote(e);
        assert order[i] == Quote(order[i])[1..|Quote(e)| - 1];
      }
      if e in EventDefinitions {
        var i :| 0 <= i < |order| && order[i] == e;
        assert QuoteAll(order)[i] == Quote(e);
      }
    }
  }

  function EventIds(events: seq<EventDefinition>): (ids: seq<string>)
    ensures |ids| == |events| && forall i | 0 <= i < |events| :: ids[i] == events[i].id
  {
    seq(|events|, i requires 0 <= i < |events| => events[i].id)
  }

  /** Turns the configured event IDs into event definitions, one per ID and
      in the same order, or refuses the list at its first unknown event.
      `idsError` is the answer of the ID-list validator, which is not part of
      this model and runs first. */
  method ParseEventDefinitions(ids: seq<string>, idsError: Option<string>, order: seq<string>)
    returns (r: Result<seq<EventDefinition>, WebhookError>)
    requires EnumeratesEvents(order)
    ensures idsError.Some? ==> r == Failure(EventIdsInvalid(idsError.value))
    ensures idsError.None? ==> (r.Success? <==> forall i | 0 <= i < |ids| :: ids[i] in EventDefinitions)
    ensures r.Success? ==> EventIds(r.value) == ids
    ensures idsError.None? && r.Failure? ==>
      exists k | 0 <= k < |ids| ::
        && ids[k] !in EventDefinitions
        && (forall j | 0 <= j < k :: ids[j] in EventDefinitions)
        && Some(r.error) == ValidateEventDefinition(ids[k], order)
  {
    if idsError.Some? {
      return Failure(EventIdsInvalid(idsError.value));
    }
    var events: seq<EventDefinition> := [];
    var i := 0;
    while i < |ids|
      invariant 0 <= i <= |ids|
      invariant forall j | 0 <= j < i :: ids[j] in EventDefinitions
      invariant EventIds(events) == ids[..i]
    {
      var err := ValidateEventDefinition(ids[i], order);
      if err.Some? {
        return Failure(err.value);
      }
      events := events + [EventDefinition(ids[i])];
      i := i + 1;
    }
    assert ids[..i] == ids;
    return Success(events);
  }

  datatype Workspace = Workspace(id: string, environmentId: string)

  /** An environment as the API returns it; its account may be absent. */
  datatype Environment = Environment(id: string, account: Option<string>)

  /** Where a webhook lives: an optional workspace, its environment and
      that environment's account. */
  datatype Scope = Scope(workspace: Option<Workspace>, environment: Environment, account: Option<string>)

  function EnvironmentScope(workspace: Option<Workspace>, environmentId: string,
                            read: Result<Environment, string>): (r: Result<Scope, WebhookError>)
    ensures read.Failure? ==> r == Failure(EnvironmentReadFailed(environmentId, read.error))
    ensures read.Success? ==> r.Success? && r.value.workspace == workspace
    ensures read.Success? ==> r.value.environment == read.value && r.value.account == read.value.account
  {
    match read
    case Failure(cause) => Failure(EnvironmentReadFailed(environmentId, cause))
    case Success(environment) => Success(Scope(workspace, environment, environment.account))
  }

  /** The scope of a webhook, resolved from the configured workspace and
      environment IDs (empty when unset). A workspace decides the
      environment, and a configured environment must agree with it. */
  function ResourceScope(workspaceId: string, environmentId: string,
                         readWorkspace: string -> Result<Workspace, string>,
                         readEnvironment: string -> Result<Environment, string>): (r: Result<Scope, WebhookError>)
    ensures workspaceId != "" && readWorkspace(workspaceId).Failure? ==>
      r == Failure(WorkspaceReadFailed(workspaceId, readWorkspace(workspaceId).error))
    ensures workspaceId != "" && readWorkspace(workspaceId).Success? && environmentId != ""
            && environmentId != readWorkspace(workspaceId).value.environmentId ==>
      r == Failure(WorkspaceOutsideEnvironment(workspaceId, environmentId))
    ensures r == Failure(MissingScope) <==>
      && environmentId == ""
      && (workspaceId != "" ==> readWorkspace(workspaceId).Success? && readWorkspace(workspaceId).value.environmentId == "")
    ensures r.Success? ==> r.value.account == r.value.environment.account
    ensures r.Success? && workspaceId == "" ==>
      r.value.workspace == None && readEnvironment(environmentId) == Success(r.value.environment)
    ensures r.Success? && workspaceId != "" ==>
      && readWorkspace(workspaceId).Success?
      && r.value.workspace == Some(readWorkspace(workspaceId).value)
      && (environmentId == "" || environmentId == readWorkspace(workspaceId).value.environmentId)
      && readEnvironment(readWorkspace(workspaceId).value.environmentId) == Success(r.value.environment)
    ensures r.Failure? && r.error.EnvironmentReadFailed? ==> readEnvironment(r.error.environmentId).Failure?
  {
    if workspaceId == "" then
      if environmentId == "" then Failure(MissingScope)
      else EnvironmentScope(None, environmentId, readEnvironment(environmentId))
    else
      match readWorkspace(workspaceId)
      case Failure(cause) => Failure(WorkspaceReadFailed(workspaceId, cause))
      case Success(workspace) =>
        if environmentId != "" && environmentId != workspace.environmentId then
          Failure(WorkspaceOutsideEnvironment(workspaceId, environmentId))
        else if workspace.environmentId == "" then Failure(MissingScope)
        else EnvironmentScope(Some(workspace), workspace.environmentId, readEnvironment(workspace.environmentId))
  }

  /** `getResourceScope`: reads the workspace first, then the environment it
      resolves to. */
  method GetResourceScope(workspaceId: string, environmentId: string,
                          readWorkspace: string -> Result<Workspace, string>,
                          readEnvironment: string -> Result<Environment, string>)
    returns (r: Result<Scope, WebhookError>)
    ensures r == ResourceScope(workspaceId, environmentId, readWorkspace, readEnvironment)
  {
    var workspace: Option<Workspace> := None;
    var resolvedEnvironmentId := environmentId;
    if workspaceId != "" {
      var read := readWorkspace(workspaceId);
      if read.Failure? {
        return Failure(WorkspaceReadFailed(workspaceId, read.error));
      }
      workspace := Some(read.value);
      if resolvedEnvironmentId != "" && resolvedEnvironmentId != read.value.environmentId {
        return Failure(WorkspaceOutsideEnvironment(workspaceId, resolvedEnvironmentId));
      }
      resolvedEnvironmentId := read.value.environmentId;
    }
    if resolvedEnvironmentId != "" {
      var read := readEnvironment(resolvedEnvironmentId);
      if read.Failure? {
        return Failure(EnvironmentReadFailed(resolvedEnvironmentId, read.error));
      }
      var environment := read.value;
      var account := environment.account;
      r := Success(Scope(workspace, environment, account));
    } else {
      r := Failure(MissingScope);
    }
  }

  /** The webhook as the API returns it; linked objects as optional IDs. */
  datatype RemoteWebhook = RemoteWebhook(
    name: string, enabled: bool, lastTriggeredAt: string, events: seq<EventDefinition>,
    workspaceId: Option<string>, environmentId: Option<string>, endpointId: Option<string>)

  datatype CreateOptions = CreateOptions(
    name: string, enabled: bool, events: seq<EventDefinition>, endpointId: string, scope: Scope)

  datatype UpdateOptions = UpdateOptions(
    name: string, enabled: bool, events: seq<EventDefinition>, endpointId: string)

  /** A snapshot of the resource's state. */
  datatype WebhookState = WebhookState(
    id: string, name: string, enabled: bool, lastTriggeredAt: string, events: seq<string>,
    endpointId: string, workspaceId: string, environmentId: string)

  function Present(o: Option<string>, otherwise: string): string {
    if o.Some? then o.value else otherwise
  }

  /** The state after a read: only a found webhook changes it, and then the
      events are its event IDs in the API's order, while a linked object the
      API leaves out keeps its ID in state. */
  function AfterRead(s: WebhookState, response: Response<RemoteWebhook>): (r: WebhookState)
    ensures !response.Found? ==> r == s
    ensures response.Found? ==>
      && r.id == s.id && r.name == response.value.name && r.enabled == response.value.enabled
      && r.lastTriggeredAt == response.value.lastTriggeredAt
      && r.events == EventIds(response.value.events)
    ensures response.Found? ==>
      && (response.value.workspaceId.None? ==> r.workspaceId == s.workspaceId)
      && (response.value.environmentId.None? ==> r.environmentId == s.environmentId)
      && (response.value.endpointId.None? ==> r.endpointId == s.endpointId)
  {
    match response
    case Found(w) =>
      s.(name := w.name, enabled := w.enabled, lastTriggeredAt := w.lastTriggeredAt,
         events := EventIds(w.events), workspaceId := Present(w.workspaceId, s.workspaceId),
         environmentId := Present(w.environmentId, s.environmentId),
         endpointId := Present(w.endpointId, s.endpointId))
    case _ => s
  }

  /** Unlike Delete, Read reports a webhook that is gone as an error. */
  function ReadError(webhookId: string, response: Response<RemoteWebhook>): (err: Option<WebhookError>)
    ensures err.None? <==> response.Found?
    ensures response.NotFound? ==> err == Some(WebhookNotFound(webhookId))
  {
    match response
    case Found(_) => None
    case NotFound => Some(WebhookNotFound(webhookId))
    case Failed(cause) => Some(RequestFailed(cause))
  }

  /** Read and Delete disagree on a webhook that is gone: the first fails,
      the second succeeds. */
  lemma NotFoundHandling(s: WebhookState)
    ensures ReadError(s.id, NotFound).Some? && AfterRead(s, NotFound) == s
    ensures DeleteOutcome(Missing).None?
  {
  }

  class WebhookData {
    var id: string
    var name: string
    var enabled: bool
    var lastTriggeredAt: string
    var events: seq<string>
    var endpointId: string
    var workspaceId: string
    var environmentId: string

    function State(): WebhookState
      reads this
    {
      WebhookState(id, name, enabled, lastTriggeredAt, events, endpointId, workspaceId, environmentId)
    }

    /** A configured webhook not yet created. */
    constructor (name: string, enabled: bool, events: seq<string>, endpointId: string,
                 workspaceId: string, environmentId: string)
      ensures State() == WebhookState("", name, enabled, "", events, endpointId, workspaceId, environmentId)
    {
      this.id := "";
      this.name := name;
      this.enabled := enabled;
      this.lastTriggeredAt := "";
      this.events := events;
      this.endpointId := endpointId;
      this.workspaceId := workspaceId;
      this.environmentId := environmentId;
    }

    method Read(response: Response<RemoteWebhook>) returns (err: Option<WebhookError>)
      modifies this
      ensures State() == AfterRead(old(State()), response)
      ensures err == ReadError(old(id), response)
    {
      match response {
        case NotFound =>
          return Some(WebhookNotFound(id));
        case Failed(cause) =>
          return Some(RequestFailed(cause));
        case Found(w) =>
          name := w.name;
          enabled := w.enabled;
          lastTriggeredAt := w.lastTriggeredAt;
          var ids: seq<string> := [];
          var i := 0;
          while i < |w.events|
            invariant 0 <= i <= |w.events|
            invariant |ids| == i
            invariant forall k | 0 <= k < i :: ids[k] == w.events[k].id
          {
            ids := ids + [w.events[i].id];
            i := i + 1;
          }
          events := ids;
          if w.workspaceId.Some? {
            workspaceId := w.workspaceId.value;
          }
          if w.environmentId.Some? {
            environmentId := w.environmentId.value;
          }
          if w.endpointId.Some? {
            endpointId := w.endpointId.value;
          }
          return None;
      }
    }

    /** Resolves the scope, then the events, creates the webhook, records its
        ID and reads it back. */
    method Create(idsError: Option<string>, order: seq<string>,
                  readWorkspace: string -> Result<Workspace, string>,
                  readEnvironment: string -> Result<Environment, string>,
                  create: CreateOptions -> Result<string, string>,
                  read: Response<RemoteWebhook>)
      returns (err: Option<WebhookError>, sent: Option<CreateOptions>)
      requires EnumeratesEvents(order)
      modifies this
      ensures err.None? ==> sent.Some?
      ensures sent.None? ==> unchanged(this)
      ensures sent.Some? ==>
        && sent.value.name == old(name) && sent.value.enabled == old(enabled)
        && sent.value.endpointId == old(endpointId)
        && EventIds(sent.value.events) == old(events)
        && (forall i | 0 <= i < |old(events)| :: old(events)[i] in EventDefinitions)
        && sent.value.scope.account == sent.value.scope.environment.account
        && (old(workspaceId) != "" <==> sent.value.scope.workspace.Some?)
      ensures var scope := ResourceScope(old(workspaceId), old(environmentId), readWorkspace, readEnvironment);
        scope.Failure? ==> err == Some(scope.error) && sent.None?
      ensures var scope := ResourceScope(old(workspaceId), old(environmentId), readWorkspace, readEnvironment);
        scope.Success? ==>
          && (sent.Some? <==> idsError.None? && forall i | 0 <= i < |old(events)| :: old(events)[i] in EventDefinitions)
          && (idsError.Some? ==> err == Some(EventIdsInvalid(idsError.value)))
          && (sent.Some? ==> sent.value.scope == scope.value)
      ensures ResourceScope(old(workspaceId), old(environmentId), readWorkspace, readEnvironment).Success?
              && idsError.None? && sent.None? ==>
        && err.Some?
        && exists k | 0 <= k < |old(events)| ::
             && old(events)[k] !in EventDefinitions
             && (forall j | 0 <= j < k :: old(events)[j] in EventDefinitions)
             && err == ValidateEventDefinition(old(events)[k], order)
      ensures sent.Some? && create(sent.value).Failure? ==>
        err == Some(RequestFailed(create(sent.value).error)) && unchanged(this)
      ensures sent.Some? && create(sent.value).Success? ==>
        && State() == AfterRead(old(State()).(id := create(sent.value).value), read)
        && err == ReadError(create(sent.value).value, read)
    {
      var scope := GetResourceScope(workspaceId, environmentId, readWorkspace, readEnvironment);
      if scope.Failure? {
        return Some(scope.error), None;
      }
      var parsed := ParseEventDefinitions(events, idsError, order);
      if parsed.Failure? {
        return Some(parsed.error), None;
      }
      var options := CreateOptions(name, enabled, parsed.value, endpointId, scope.value);
      sent := Some(options);
      var created := create(options);
      if created.Failure? {
        return Some(RequestFailed(created.error)), sent;
      }
      id := created.value;
      err := Read(read);
    }

    /** Sends the configured name, flag, events and endpoint, then reads the
        webhook back. The scope is not part of an update. */
    method Update(idsError: Option<string>, order: seq<string>,
                  update: (string, UpdateOptions) -> Option<string>,
                  read: Response<RemoteWebhook>)
      returns (err: Option<WebhookError>, sent: Option<UpdateOptions>)
      requires EnumeratesEvents(order)
      modifies this
      ensures sent.None? ==> err.Some? && unchanged(this)
      ensures idsError.Some? ==> err == Some(EventIdsInvalid(idsError.value))
      ensures sent.Some? <==> idsError.None? && forall i | 0 <= i < |old(events)| :: old(events)[i] in EventDefinitions
      ensures sent.Some? ==>
        && sent.value == UpdateOptions(old(name), old(enabled), sent.value.events, old(endpointId))
        && EventIds(sent.value.events) == old(events)
      ensures sent.Some? && update(old(id), sent.value).Some? ==>
        err == Some(RequestFailed(update(old(id), sent.value).value)) && unchanged(this)
      ensures sent.Some? && update(old(id), sent.value).None? ==>
        State() == AfterRead(old(State()), read) && err == ReadError(old(id), read)
    {
      var parsed := ParseEventDefinitions(events, idsError, order);
      if parsed.Failure? {
        return Some(parsed.error), None;
      }
      var options := UpdateOptions(name, enabled, parsed.value, endpointId);
      sent := Some(options);
      var failure := update(id, options);
      if failure.Some? {
        return Some(RequestFailed(failure.value)), sent;
      }
      err := Read(read);
    }

    /** Deletes the webhook; one that is already gone counts as deleted. */
    method Delete(delete: string -> DeleteStatus) returns (err: Option<string>)
      ensures err == DeleteOutcome(delete(id))
      ensures err.None? <==> !delete(id).Refused?
    {
      err := DeleteOutcome(delete(id));
    }
  }
}
