/**
 * Reconciliation of the parameters of a `custom` provider configuration:
 * the diff of `syncArguments`, the task list and result fold of
 * `changeParameters`, `createParameters`, and the merge of sensitive values
 * kept from prior state when the configuration is read back.
 *
 * Go's map iteration order is unspecified; every loop over a map takes the
 * order it visits the keys in as a parameter (`Enumerates(order, m)`).
 */
module ProviderParameters {
  import opened Wrappers

  /** One `argument` block of the `custom` block, as configured. An unset
      value or description reads as the empty string. */
  datatype Argument = Argument(name: string, value: string, sensitive: bool, description: string)

  /** A parameter as the remote configuration holds it. The remote returns an
      empty value for a sensitive parameter. */
  datatype Parameter = Parameter(id: string, key: string, value: string, sensitive: bool, description: string)

  datatype CreateOptions = CreateOptions(key: string, value: string, sensitive: bool, description: string)

  datatype UpdateOptions = UpdateOptions(id: string, value: string, sensitive: bool, description: string)

  /** The create options one argument block produces. */
  function OptionsFor(a: Argument): CreateOptions {
    CreateOptions(a.name, a.value, a.sensitive, a.description)
  }

  predicate KeyedByName(desired: map<string, CreateOptions>) {
    forall k | k in desired :: desired[k].key == k
  }

  predicate KeyedByKey(current: map<string, Parameter>) {
    forall k | k in current :: current[k].key == k
  }

  /** Server-assigned parameter IDs are unique. */
  predicate UniqueIds(current: map<string, Parameter>) {
    forall k1, k2 | k1 in current && k2 in current && current[k1].id == current[k2].id :: k1 == k2
  }

  predicate Distinct(order: seq<string>) {
    forall i, j | 0 <= i < j < |order| :: order[i] != order[j]
  }

  predicate DistinctKeys(options: seq<CreateOptions>) {
    forall i, j | 0 <= i < j < |options| :: options[i].key != options[j].key
  }

  predicate DistinctIds(options: seq<UpdateOptions>) {
    forall i, j | 0 <= i < j < |options| :: options[i].id != options[j].id
  }

  /** `order` visits every key of `m` exactly once, as a `range` over a Go map does. */
  predicate Enumerates<V>(order: seq<string>, m: map<string, V>) {
    Distinct(order) && (forall k | k in order :: k in m) && (forall k | k in m :: k in order)
  }

  /** No later argument carries the same name as `args[i]`. */
  predicate LastWithName(args: seq<Argument>, i: int)
    requires 0 <= i < |args|
  {
    forall j | i < j < |args| :: args[j].name != args[i].name
  }

  /** The desired map of `syncArguments`: keyed by name, a later argument with
      the same name overwrites an earlier one (see DesiredOptionsLastWins). */
  function DesiredOptions(args: seq<Argument>): (desired: map<string, CreateOptions>)
    ensures KeyedByName(desired)
  {
    if args == [] then map[]
    else
      var a := args[|args| - 1];
      DesiredOptions(args[..|args| - 1])[a.name := OptionsFor(a)]
  }

  lemma {:induction false} DesiredOptionsLastWins(args: seq<Argument>)
    ensures forall k :: k in DesiredOptions(args) <==> exists i :: 0 <= i < |args| && args[i].name == k
    ensures forall i | 0 <= i < |args| && LastWithName(args, i) :: DesiredOptions(args)[args[i].name] == OptionsFor(args[i])
  {
    forall k ensures k in DesiredOptions(args) <==> exists i :: 0 <= i < |args| && args[i].name == k {
      DesiredKey(args, k);
    }
    forall i | 0 <= i < |args| && LastWithName(args, i)
      ensures DesiredOptions(args)[args[i].name] == OptionsFor(args[i])
    {
      DesiredLast(args, i);
    }
  }

  /** A name is a desired key exactly when some argument carries it. */
  lemma {:induction false} DesiredKey(args: seq<Argument>, k: string)
    ensures k in DesiredOptions(args) <==> exists i :: 0 <= i < |args| && args[i].name == k
  {
    if args != [] {
      var prefix := args[..|args| - 1];
      DesiredKey(prefix, k);
      if k in DesiredOptions(prefix) {
        var i :| 0 <= i < |prefix| && prefix[i].name == k;
        assert args[i] == prefix[i];
      }
      if exists i :: 0 <= i < |args| && args[i].name == k {
        var i :| 0 <= i < |args| && args[i].name == k;
        if i < |prefix| {
          assert prefix[i] == args[i];
        }
      }
    }
  }

  /** The last argument with a name decides that name's entry. */
  lemma {:induction false} DesiredLast(args: seq<Argument>, i: int)
    requires 0 <= i < |args| && LastWithName(args, i)
    ensures args[i].name in DesiredOptions(args)
    ensures DesiredOptions(args)[args[i].name] == OptionsFor(args[i])
  {
    var prefix := args[..|args| - 1];
    if i < |prefix| {
      assert args[i] == prefix[i];
      assert args[i].name != args[|args| - 1].name;
      forall j | i < j < |prefix| ensures prefix[j].name != prefix[i].name {
        assert prefix[j] == args[j];
      }
      DesiredLast(prefix, i);
    }
  }

  /** The current map of `syncArguments`: the remote parameters keyed by key. */
  function CurrentParameters(parameters: seq<Parameter>): (current: map<string, Parameter>)
    ensures KeyedByKey(current)
  {
    if parameters == [] then map[]
    else
      var p := parameters[|parameters| - 1];
      CurrentParameters(parameters[..|parameters| - 1])[p.key := p]
  }

  lemma {:induction false} CurrentParametersLastWins(parameters: seq<Parameter>)
    ensures forall k :: k in CurrentParameters(parameters) <==> exists i :: 0 <= i < |parameters| && parameters[i].key == k
    ensures forall i | 0 <= i < |parameters| && (forall j | i < j < |parameters| :: parameters[j].key != parameters[i].key) ::
              CurrentParameters(parameters)[parameters[i].key] == parameters[i]
  {
    forall k ensures k in CurrentParameters(parameters) <==> exists i :: 0 <= i < |parameters| && parameters[i].key == k {
      CurrentKey(parameters, k);
    }
    forall i | 0 <= i < |parameters| && (forall j | i < j < |parameters| :: parameters[j].key != parameters[i].key)
      ensures CurrentParameters(parameters)[parameters[i].key] == parameters[i]
    {
      CurrentLast(parameters, i);
    }
  }

  /** A key is current exactly when some remote parameter carries it. */
  lemma {:induction false} CurrentKey(parameters: seq<Parameter>, k: string)
    ensures k in CurrentParameters(parameters) <==> exists i :: 0 <= i < |parameters| && parameters[i].key == k
  {
    if parameters != [] {
      var prefix := parameters[..|parameters| - 1];
      CurrentKey(prefix, k);
      if k in CurrentParameters(prefix) {
        var i :| 0 <= i < |prefix| && prefix[i].key == k;
        assert parameters[i] == prefix[i];
      }
      if exists i :: 0 <= i < |parameters| && parameters[i].key == k {
        var i :| 0 <= i < |parameters| && parameters[i].key == k;
        if i < |prefix| {
          assert prefix[i] == parameters[i];
        }
      }
    }
  }

  /** The last remote parameter with a key is the one kept. */
  lemma {:induction false} CurrentLast(parameters: seq<Parameter>, i: int)
    requires 0 <= i < |parameters|
    requires forall j | i < j < |parameters| :: parameters[j].key != parameters[i].key
    ensures parameters[i].key in CurrentParameters(parameters)
    ensures CurrentParameters(parameters)[parameters[i].key] == parameters[i]
  {
    var prefix := parameters[..|parameters| - 1];
    if i < |prefix| {
      assert parameters[i] == prefix[i];
      assert parameters[i].key != parameters[|parameters| - 1].key;
      forall j | i < j < |prefix| ensures prefix[j].key != prefix[i].key {
        assert prefix[j] == parameters[j];
      }
      CurrentLast(prefix, i);
    }
  }

  /** The loop that fills `configArgumentsCreateOptions`. */
  method BuildDesired(args: seq<Argument>) returns (desired: map<string, CreateOptions>)
    ensures desired == DesiredOptions(args)
  {
    desired := map[];
    for i := 0 to |args|
      invariant desired == DesiredOptions(args[..i])
    {
      assert args[..i + 1][..i] == args[..i];
      desired := desired[args[i].name := OptionsFor(args[i])];
    }
    assert args[..|args|] == args;
  }

  /** The loop that fills `currentArguments`. */
  method BuildCurrent(parameters: seq<Parameter>) returns (current: map<string, Parameter>)
    ensures current == CurrentParameters(parameters)
  {
    current := map[];
    for i := 0 to |parameters|
      invariant current == CurrentParameters(parameters[..i])
    {
      assert parameters[..i + 1][..i] == parameters[..i];
      current := current[parameters[i].key := parameters[i]];
    }
    assert parameters[..|parameters|] == parameters;
  }

  // ---------------------------------------------------------------------------
  // The diff
  // ---------------------------------------------------------------------------

  /** A sensitive parameter that the configuration makes non-sensitive. */
  predicate Replaced(c: Parameter, d: CreateOptions) {
    c.sensitive && !d.sensitive
  }

  /** The literal comparison of value, sensitivity and description. */
  predicate Differs(c: Parameter, d: CreateOptions) {
    c.value != d.value || c.sensitive != d.sensitive || c.description != d.description
  }

  predicate NeedsCreate(k: string, desired: map<string, CreateOptions>, current: map<string, Parameter>)
    requires k in desired
  {
    k !in current || Replaced(current[k], desired[k])
  }

  predicate NeedsUpdate(k: string, desired: map<string, CreateOptions>, current: map<string, Parameter>)
    requires k in desired
  {
    k in current && !Replaced(current[k], desired[k]) && Differs(current[k], desired[k])
  }

  predicate NeedsDelete(k: string, desired: map<string, CreateOptions>, current: map<string, Parameter>)
    requires k in current
  {
    k !in desired || Replaced(current[k], desired[k])
  }

  /** An update carries the current parameter's ID and the desired attributes. */
  function UpdateFor(c: Parameter, d: CreateOptions): UpdateOptions {
    UpdateOptions(c.id, d.value, d.sensitive, d.description)
  }

  function Creates(order: seq<string>, desired: map<string, CreateOptions>, current: map<string, Parameter>): seq<CreateOptions>
    requires forall k | k in order :: k in desired
  {
    if order == [] then []
    else
      var k := order[|order| - 1];
      Creates(order[..|order| - 1], desired, current) + (if NeedsCreate(k, desired, current) then [desired[k]] else [])
  }

  function Updates(order: seq<string>, desired: map<string, CreateOptions>, current: map<string, Parameter>): seq<UpdateOptions>
    requires forall k | k in order :: k in desired
  {
    if order == [] then []
    else
      var k := order[|order| - 1];
      Updates(order[..|order| - 1], desired, current)
        + (if NeedsUpdate(k, desired, current) then [UpdateFor(current[k], desired[k])] else [])
  }

  function Deletes(order: seq<string>, desired: map<string, CreateOptions>, current: map<string, Parameter>): seq<string>
    requires forall k | k in order :: k in current
  {
    if order == [] then []
    else
      var k := order[|order| - 1];
      Deletes(order[..|order| - 1], desired, current) + (if NeedsDelete(k, desired, current) then [current[k].id] else [])
  }

  /** The two loops of `syncArguments` that fill `toCreate`, `toUpdate` and `toDelete`. */
  method Diff(desired: map<string, CreateOptions>, current: map<string, Parameter>,
              desiredOrder: seq<string>, currentOrder: seq<string>)
    returns (toCreate: seq<CreateOptions>, toUpdate: seq<UpdateOptions>, toDelete: seq<string>)
    requires Enumerates(desiredOrder, desired)
    requires Enumerates(currentOrder, current)
    ensures toCreate == Creates(desiredOrder, desired, current)
    ensures toUpdate == Updates(desiredOrder, desired, current)
    ensures toDelete == Deletes(currentOrder, desired, current)
  {
    toCreate, toUpdate := DiffDesired(desired, current, desiredOrder);
    toDelete := DiffCurrent(desired, current, currentOrder);
  }

  /** The loop over the desired map: a create or an update per changed key. */
  method DiffDesired(desired: map<string, CreateOptions>, current: map<string, Parameter>, desiredOrder: seq<string>)
    returns (toCreate: seq<CreateOptions>, toUpdate: seq<UpdateOptions>)
    requires forall k | k in desiredOrder :: k in desired
    ensures toCreate == Creates(desiredOrder, desired, current)
    ensures toUpdate == Updates(desiredOrder, desired, current)
  {
    toCreate, toUpdate := [], [];
    for i := 0 to |desiredOrder|
      invariant toCreate == Creates(desiredOrder[..i], desired, current)
      invariant toUpdate == Updates(desiredOrder[..i], desired, current)
    {
      var name := desiredOrder[i];
      assert desiredOrder[..i + 1][..i] == desiredOrder[..i] && desiredOrder[..i + 1][i] == name;
      var option := desired[name];
      if name !in current || (current[name].sensitive && !option.sensitive) {
        toCreate := toCreate + [option];
      } else {
        var c := current[name];
        if c.value != option.value || c.sensitive != option.sensitive || c.description != option.description {
          toUpdate := toUpdate + [UpdateOptions(c.id, option.value, option.sensitive, option.description)];
        }
      }
    }
    assert desiredOrder[..|desiredOrder|] == desiredOrder;
  }

  /** The loop over the current map: a delete per dropped or replaced key. */
  method DiffCurrent(desired: map<string, CreateOptions>, current: map<string, Parameter>, currentOrder: seq<string>)
    returns (toDelete: seq<string>)
    requires forall k | k in currentOrder :: k in current
    ensures toDelete == Deletes(currentOrder, desired, current)
  {
    toDelete := [];
    for i := 0 to |currentOrder|
      invariant toDelete == Deletes(currentOrder[..i], desired, current)
    {
      var name := currentOrder[i];
      assert currentOrder[..i + 1][..i] == currentOrder[..i] && currentOrder[..i + 1][i] == name;
      var c := current[name];
      if name !in desired || (c.sensitive && !desired[name].sensitive) {
        toDelete := toDelete + [c.id];
      }
    }
    assert currentOrder[..|currentOrder|] == currentOrder;
  }

  // ---------------------------------------------------------------------------
  // What the diff promises
  // ---------------------------------------------------------------------------

  /** A desired argument is created exactly when its key is new or it turns a
      sensitive parameter non-sensitive; each key is created at most once. */
  lemma {:induction false} CreatesExactly(order: seq<string>, desired: map<string, CreateOptions>, current: map<string, Parameter>)
    requires Distinct(order) && forall k | k in order :: k in desired
    requires KeyedByName(desired)
    ensures forall k | k in order :: desired[k] in Creates(order, desired, current) <==> NeedsCreate(k, desired, current)
    ensures forall o | o in Creates(order, desired, current) :: o.key in order && desired[o.key] == o && NeedsCreate(o.key, desired, current)
    ensures DistinctKeys(Creates(order, desired, current))
  {
    if order != [] {
      var prefix := order[..|order| - 1];
      var last := order[|order| - 1];
      assert forall k | k in order :: k in prefix || k == last;
      assert forall k | k in prefix :: k in order && k != last;
      CreatesExactly(prefix, desired, current);
      var prev, cs := Creates(prefix, desired, current), Creates(order, desired, current);
      forall i, j | 0 <= i < j < |cs| ensures cs[i].key != cs[j].key {
        assert cs[i] == prev[i] && prev[i] in prev;
        if j < |prev| {
          assert cs[j] == prev[j];
        } else {
          assert cs[j] == desired[last] && prev[i].key in prefix;
          assert prev[i].key != last;
          assert desired[last].key == last;
        }
      }
    }
  }

  /** Every desired argument that differs from a parameter it may update yields
      an update with that parameter's ID, and every update is one of those. */
  lemma {:induction false} UpdatesExactly(order: seq<string>, desired: map<string, CreateOptions>, current: map<string, Parameter>)
    requires forall k | k in order :: k in desired
    ensures forall k | k in order && NeedsUpdate(k, desired, current) ::
              UpdateFor(current[k], desired[k]) in Updates(order, desired, current)
    ensures forall u | u in Updates(order, desired, current) ::
              exists k | k in order :: NeedsUpdate(k, desired, current) && u == UpdateFor(current[k], desired[k])
  {
    if order != [] {
      var prefix := order[..|order| - 1];
      var last := order[|order| - 1];
      assert forall k | k in order :: k in prefix || k == last;
      assert forall k | k in prefix :: k in order;
      UpdatesExactly(prefix, desired, current);
    }
  }

  /** With unique parameter IDs, no parameter is updated twice. */
  lemma {:induction false} UpdatesDistinct(order: seq<string>, desired: map<string, CreateOptions>, current: map<string, Parameter>)
    requires Distinct(order) && forall k | k in order :: k in desired
    requires UniqueIds(current)
    ensures DistinctIds(Updates(order, desired, current))
  {
    if order != [] {
      var prefix := order[..|order| - 1];
      var last := order[|order| - 1];
      assert forall k | k in prefix :: k in order && k != last;
      UpdatesDistinct(prefix, desired, current);
      UpdatesExactly(prefix, desired, current);
      var prev, us := Updates(prefix, desired, current), Updates(order, desired, current);
      forall i, j | 0 <= i < j < |us| ensures us[i].id != us[j].id {
        assert us[i] == prev[i] && prev[i] in prev;
        if j < |prev| {
          assert us[j] == prev[j];
        } else {
          assert us[j] == UpdateFor(current[last], desired[last]);
        }
      }
    }
  }

  /** A current parameter is deleted, by its ID, exactly when its key is gone
      from the configuration or it turns from sensitive to non-sensitive. */
  lemma {:induction false} DeletesExactly(order: seq<string>, desired: map<string, CreateOptions>, current: map<string, Parameter>)
    requires Distinct(order) && forall k | k in order :: k in current
    requires UniqueIds(current)
    ensures forall k | k in order :: current[k].id in Deletes(order, desired, current) <==> NeedsDelete(k, desired, current)
    ensures forall id | id in Deletes(order, desired, current) ::
              exists k | k in order :: NeedsDelete(k, desired, current) && current[k].id == id
    ensures Distinct(Deletes(order, desired, current))
  {
    if order != [] {
      var prefix := order[..|order| - 1];
      var last := order[|order| - 1];
      assert forall k | k in order :: k in prefix || k == last;
      assert forall k | k in prefix :: k in order && k != last;
      DeletesExactly(prefix, desired, current);
      var prev, ds := Deletes(prefix, desired, current), Deletes(order, desired, current);
      forall i, j | 0 <= i < j < |ds| ensures ds[i] != ds[j] {
        assert ds[i] == prev[i] && prev[i] in prev;
        if j < |prev| {
          assert ds[j] == prev[j];
        } else {
          assert ds[j] == current[last].id;
        }
      }
    }
  }

  /** Each desired key lands in at most one of the create and update lists. */
  lemma CreateExcludesUpdate(order: seq<string>, desired: map<string, CreateOptions>, current: map<string, Parameter>, k: string)
    requires Enumerates(order, desired)
    requires KeyedByName(desired) && UniqueIds(current)
    requires k in desired && desired[k] in Creates(order, desired, current)
    ensures k in current ==> forall u | u in Updates(order, desired, current) :: u.id != current[k].id
  {
    CreatesExactly(order, desired, current);
    UpdatesExactly(order, desired, current);
  }

  /** A sensitive parameter made non-sensitive is deleted and re-created,
      never updated. */
  lemma SensitiveToPlainIsReplaced(desiredOrder: seq<string>, currentOrder: seq<string>,
                                   desired: map<string, CreateOptions>, current: map<string, Parameter>, k: string)
    requires Enumerates(desiredOrder, desired) && Enumerates(currentOrder, current)
    requires KeyedByName(desired) && UniqueIds(current)
    requires k in desired && k in current && current[k].sensitive && !desired[k].sensitive
    ensures desired[k] in Creates(desiredOrder, desired, current)
    ensures current[k].id in Deletes(currentOrder, desired, current)
    ensures forall u | u in Updates(desiredOrder, desired, current) :: u.id != current[k].id
  {
    CreatesExactly(desiredOrder, desired, current);
    DeletesExactly(currentOrder, desired, current);
    CreateExcludesUpdate(desiredOrder, desired, current, k);
  }

  /** The remote hides a sensitive value, so a sensitive argument with a
      non-empty value is updated on every sync even when nothing changed. */
  lemma SensitiveValueAlwaysUpdates(order: seq<string>, desired: map<string, CreateOptions>, current: map<string, Parameter>, k: string)
    requires Enumerates(order, desired)
    requires k in desired && k in current
    requires current[k].sensitive && current[k].value == ""
    requires desired[k].sensitive && desired[k].value != ""
    ensures UpdateFor(current[k], desired[k]) in Updates(order, desired, current)
  {
    UpdatesExactly(order, desired, current);
  }

  /** The desired set agrees with the current set on every key and attribute. */
  predicate InSync(desired: map<string, CreateOptions>, current: map<string, Parameter>) {
    desired.Keys == current.Keys && forall k | k in desired :: !Differs(current[k], desired[k])
  }

  /** A desired set identical to the current set holds no work. */
  lemma {:induction false} InSyncMeansNoWork(desiredOrder: seq<string>, currentOrder: seq<string>,
                                       desired: map<string, CreateOptions>, current: map<string, Parameter>)
    requires (forall k | k in desiredOrder :: k in desired) && (forall k | k in currentOrder :: k in current)
    requires InSync(desired, current)
    decreases |desiredOrder| + |currentOrder|
    ensures Creates(desiredOrder, desired, current) == []
    ensures Updates(desiredOrder, desired, current) == []
    ensures Deletes(currentOrder, desired, current) == []
  {
    if desiredOrder != [] {
      InSyncMeansNoWork(desiredOrder[..|desiredOrder| - 1], [], desired, current);
    }
    if currentOrder != [] {
      InSyncMeansNoWork([], currentOrder[..|currentOrder| - 1], desired, current);
    }
  }

  // ---------------------------------------------------------------------------
  // The executor of `changeParameters`, as a sequential fold
  // ---------------------------------------------------------------------------

  datatype Task = DeleteTask(deleteId: string) | UpdateTask(update: UpdateOptions) | CreateTask(create: CreateOptions)

  /** The remote parameter API: create under a configuration ID, update by
      parameter ID, delete by parameter ID. Each call answers a parameter or an
      error (its text). */
  datatype Client = Client(
    create: (string, CreateOptions) -> Result<Parameter, string>,
    update: (string, UpdateOptions) -> Result<Parameter, string>,
    delete: string -> Option<string>)

  /** What one worker reports for one task. */
  datatype Outcome = Created(parameter: Parameter) | Updated(parameter: Parameter) | Deleted(deletedId: string) | Errored(cause: string)

  /** The results `changeParameters` returns, and the remote calls it made
      (`issued`), in the order it made them. */
  datatype Changes = Changes(created: seq<Parameter>, updated: seq<Parameter>, deleted: seq<string>,
                             err: Option<string>, issued: seq<Task>)

  const NoChanges := Changes([], [], [], None, [])

  /** One worker step: the one remote call a task makes. */
  function Perform(client: Client, configurationId: string, t: Task): Outcome {
    match t
    case CreateTask(o) =>
      (match client.create(configurationId, o)
       case Success(p) => Created(p)
       case Failure(e) => Errored(e))
    case UpdateTask(o) =>
      (match client.update(o.id, o)
       case Success(p) => Updated(p)
       case Failure(e) => Errored(e))
    case DeleteTask(id) =>
      (match client.delete(id)
       case None => Deleted(id)
       case Some(e) => Errored(e))
  }

  /** Records one worker's outcome in the results. */
  function Step(prior: Changes, t: Task, o: Outcome): Changes {
    var issued := prior.issued + [t];
    match o
    case Created(p) => prior.(created := prior.created + [p], issued := issued)
    case Updated(p) => prior.(updated := prior.updated + [p], issued := issued)
    case Deleted(id) => prior.(deleted := prior.deleted + [id], issued := issued)
    case Errored(e) => prior.(err := Some(e), issued := issued)
  }

  /** The result fold over `tasks`: each success goes to the list of its kind;
      the first error is kept and nothing after it runs. */
  function Execute(client: Client, configurationId: string, tasks: seq<Task>): Changes {
    if tasks == [] then NoChanges
    else
      var prior := Execute(client, configurationId, tasks[..|tasks| - 1]);
      if prior.err.Some? then prior
      else
        var t := tasks[|tasks| - 1];
        Step(prior, t, Perform(client, configurationId, t))
  }

  function DeleteTasks(ids: seq<string>): (tasks: seq<Task>)
    ensures |tasks| == |ids| && forall i | 0 <= i < |ids| :: tasks[i] == DeleteTask(ids[i])
  {
    if ids == [] then [] else DeleteTasks(ids[..|ids| - 1]) + [DeleteTask(ids[|ids| - 1])]
  }

  function UpdateTasks(options: seq<UpdateOptions>): (tasks: seq<Task>)
    ensures |tasks| == |options| && forall i | 0 <= i < |options| :: tasks[i] == UpdateTask(options[i])
  {
    if options == [] then [] else UpdateTasks(options[..|options| - 1]) + [UpdateTask(options[|options| - 1])]
  }

  function CreateTasks(options: seq<CreateOptions>): (tasks: seq<Task>)
    ensures |tasks| == |options| && forall i | 0 <= i < |options| :: tasks[i] == CreateTask(options[i])
  {
    if options == [] then [] else CreateTasks(options[..|options| - 1]) + [CreateTask(options[|options| - 1])]
  }

  /** The rank of a task kind in the task list. */
  function Rank(t: Task): nat {
    match t
    case DeleteTask(_) => 0
    case UpdateTask(_) => 1
    case CreateTask(_) => 2
  }

  /** The task list of `changeParameters`: all deletes, then all updates, then all creates. */
  function TaskList(toCreate: seq<CreateOptions>, toUpdate: seq<UpdateOptions>, toDelete: seq<string>): (tasks: seq<Task>)
    ensures |tasks| == |toDelete| + |toUpdate| + |toCreate|
    ensures forall i, j | 0 <= i < j < |tasks| :: Rank(tasks[i]) <= Rank(tasks[j])
  {
    DeleteTasks(toDelete) + UpdateTasks(toUpdate) + CreateTasks(toCreate)
  }

  /** The task list holds a task for every option and ID given, and no other. */
  lemma TaskListMembers(toCreate: seq<CreateOptions>, toUpdate: seq<UpdateOptions>, toDelete: seq<string>)
    ensures var tasks := TaskList(toCreate, toUpdate, toDelete);
      && (forall id :: DeleteTask(id) in tasks <==> id in toDelete)
      && (forall o :: UpdateTask(o) in tasks <==> o in toUpdate)
      && (forall o :: CreateTask(o) in tasks <==> o in toCreate)
  {
    var ds, us, cs := DeleteTasks(toDelete), UpdateTasks(toUpdate), CreateTasks(toCreate);
    assert forall id :: DeleteTask(id) in ds <==> id in toDelete by {
      forall id | id in toDelete ensures DeleteTask(id) in ds {
        var i :| 0 <= i < |toDelete| && toDelete[i] == id;
        assert ds[i] == DeleteTask(id);
      }
    }
    assert forall o :: UpdateTask(o) in us <==> o in toUpdate by {
      forall o | o in toUpdate ensures UpdateTask(o) in us {
        var i :| 0 <= i < |toUpdate| && toUpdate[i] == o;
        assert us[i] == UpdateTask(o);
      }
    }
    assert forall o :: CreateTask(o) in cs <==> o in toCreate by {
      forall o | o in toCreate ensures CreateTask(o) in cs {
        var i :| 0 <= i < |toCreate| && toCreate[i] == o;
        assert cs[i] == CreateTask(o);
      }
    }
  }

  /** The three loops of `changeParameters` that fill `tasks`. */
  method BuildTasks(toCreate: seq<CreateOptions>, toUpdate: seq<UpdateOptions>, toDelete: seq<string>)
    returns (tasks: seq<Task>)
    ensures tasks == TaskList(toCreate, toUpdate, toDelete)
  {
    tasks := [];
    for i := 0 to |toDelete|
      invariant tasks == DeleteTasks(toDelete[..i])
    {
      assert toDelete[..i + 1][..i] == toDelete[..i];
      tasks := tasks + [DeleteTask(toDelete[i])];
    }
    assert toDelete[..|toDelete|] == toDelete;
    ghost var deletes := tasks;
    for i := 0 to |toUpdate|
      invariant tasks == deletes + UpdateTasks(toUpdate[..i])
    {
      assert toUpdate[..i + 1][..i] == toUpdate[..i];
      tasks := tasks + [UpdateTask(toUpdate[i])];
    }
    assert toUpdate[..|toUpdate|] == toUpdate;
    ghost var deletesAndUpdates := tasks;
    for i := 0 to |toCreate|
      invariant tasks == deletesAndUpdates + CreateTasks(toCreate[..i])
    {
      assert toCreate[..i + 1][..i] == toCreate[..i];
      tasks := tasks + [CreateTask(toCreate[i])];
    }
    assert toCreate[..|toCreate|] == toCreate;
  }

  /** One more task after a prefix without error is one more `Step`. */
  lemma ExecuteNext(client: Client, configurationId: string, tasks: seq<Task>, i: nat)
    requires i < |tasks|
    requires Execute(client, configurationId, tasks[..i]).err.None?
    ensures Execute(client, configurationId, tasks[..i + 1])
         == Step(Execute(client, configurationId, tasks[..i]), tasks[i], Perform(client, configurationId, tasks[i]))
  {
    assert tasks[..i + 1][..i] == tasks[..i];
  }

  /** Once the fold has recorded an error, later tasks change nothing. */
  lemma {:induction false} ExecuteStops(client: Client, configurationId: string, tasks: seq<Task>, n: nat)
    requires n <= |tasks|
    requires Execute(client, configurationId, tasks[..n]).err.Some?
    ensures Execute(client, configurationId, tasks) == Execute(client, configurationId, tasks[..n])
  {
    if n < |tasks| {
      var prefix := tasks[..|tasks| - 1];
      assert prefix[..n] == tasks[..n];
      ExecuteStops(client, configurationId, prefix, n);
    } else {
      assert tasks[..n] == tasks;
    }
  }

  /** `changeParameters`: build the task list, return at once when it is
      empty, else run the tasks and fold their results, stopping at the first
      error. */
  method ChangeParameters(client: Client, configurationId: string,
                          toCreate: seq<CreateOptions>, toUpdate: seq<UpdateOptions>, toDelete: seq<string>)
    returns (r: Changes)
    ensures r == Execute(client, configurationId, TaskList(toCreate, toUpdate, toDelete))
  {
    var tasks := BuildTasks(toCreate, toUpdate, toDelete);
    r := NoChanges;
    if tasks == [] {
      return;
    }
    var i := 0;
    while i < |tasks|
      invariant 0 <= i <= |tasks|
      invariant r == Execute(client, configurationId, tasks[..i])
      invariant r.err.None?
    {
      ExecuteNext(client, configurationId, tasks, i);
      var t := tasks[i];
      var outcome := Perform(client, configurationId, t);
      match outcome {
        case Errored(e) =>
          r := r.(err := Some(e), issued := r.issued + [t]);
          ExecuteStops(client, configurationId, tasks, i + 1);
          return;
        case Created(p) =>
          r := r.(created := r.created + [p], issued := r.issued + [t]);
        case Updated(p) =>
          r := r.(updated := r.updated + [p], issued := r.issued + [t]);
        case Deleted(id) =>
          r := r.(deleted := r.deleted + [id], issued := r.issued + [t]);
      }
      i := i + 1;
    }
    assert tasks[..i] == tasks;
  }

  /** No task of `tasks` fails. */
  predicate AllSucceed(client: Client, configurationId: string, tasks: seq<Task>) {
    forall i | 0 <= i < |tasks| :: !Perform(client, configurationId, tasks[i]).Errored?
  }

  /** The fold reports no error exactly when no task fails, and then it has
      issued every task. */
  lemma {:induction false} ExecuteNoError(client: Client, configurationId: string, tasks: seq<Task>)
    ensures Execute(client, configurationId, tasks).err.None? <==> AllSucceed(client, configurationId, tasks)
    ensures Execute(client, configurationId, tasks).err.None? ==> Execute(client, configurationId, tasks).issued == tasks
  {
    if tasks != [] {
      var prefix := tasks[..|tasks| - 1];
      ExecuteNoError(client, configurationId, prefix);
      AllSucceedPrefix(client, configurationId, tasks);
      if Execute(client, configurationId, prefix).err.None? {
        assert tasks == prefix + [tasks[|tasks| - 1]];
      }
    }
  }

  lemma AllSucceedPrefix(client: Client, configurationId: string, tasks: seq<Task>)
    requires tasks != []
    ensures AllSucceed(client, configurationId, tasks)
        <==> AllSucceed(client, configurationId, tasks[..|tasks| - 1])
             && !Perform(client, configurationId, tasks[|tasks| - 1]).Errored?
  {
    var prefix := tasks[..|tasks| - 1];
    assert forall i | 0 <= i < |prefix| :: prefix[i] == tasks[i];
  }

  /** Task `i` is the first that fails. */
  predicate FirstFailure(client: Client, configurationId: string, tasks: seq<Task>, i: int) {
    && 0 <= i < |tasks|
    && Perform(client, configurationId, tasks[i]).Errored?
    && AllSucceed(client, configurationId, tasks[..i])
  }

  /** On an error, the fold has issued exactly the tasks up to and including
      the first failing one, and reports that task's error. */
  lemma {:induction false} ExecuteFirstError(client: Client, configurationId: string, tasks: seq<Task>, i: int)
    requires FirstFailure(client, configurationId, tasks, i)
    ensures Execute(client, configurationId, tasks).err == Some(Perform(client, configurationId, tasks[i]).cause)
    ensures Execute(client, configurationId, tasks).issued == tasks[..i + 1]
  {
    ExecuteNoError(client, configurationId, tasks[..i]);
    ExecuteNext(client, configurationId, tasks, i);
    ExecuteStops(client, configurationId, tasks, i + 1);
  }

  /** The results of running `a` without error and then `b`. */
  function Combine(a: Changes, b: Changes): Changes {
    Changes(a.created + b.created, a.updated + b.updated, a.deleted + b.deleted, b.err, a.issued + b.issued)
  }

  /** Running `a + b` is running `a`, then `b`, when `a` reports no error. */
  lemma {:induction false} ExecuteConcat(client: Client, configurationId: string, a: seq<Task>, b: seq<Task>)
    requires Execute(client, configurationId, a).err.None?
    ensures Execute(client, configurationId, a + b)
         == Combine(Execute(client, configurationId, a), Execute(client, configurationId, b))
  {
    var first := Execute(client, configurationId, a);
    if b == [] {
      assert a + b == a;
      assert Combine(first, NoChanges) == first;
    } else {
      var b', t := b[..|b| - 1], b[|b| - 1];
      assert (a + b)[..|a + b| - 1] == a + b' && (a + b)[|a + b| - 1] == t;
      ExecuteConcat(client, configurationId, a, b');
      var rest := Execute(client, configurationId, b');
      if rest.err.None? {
        StepCombine(first, rest, t, Perform(client, configurationId, t));
      }
    }
  }

  /** Recording an outcome after a clean prefix commutes with combining. */
  lemma StepCombine(a: Changes, b: Changes, t: Task, o: Outcome)
    requires a.err.None?
    ensures Step(Combine(a, b), t, o) == Combine(a, Step(b, t, o))
  {
    assert (a.issued + b.issued) + [t] == a.issued + (b.issued + [t]);
    match o
    case Created(p) => assert (a.created + b.created) + [p] == a.created + (b.created + [p]);
    case Updated(p) => assert (a.updated + b.updated) + [p] == a.updated + (b.updated + [p]);
    case Deleted(id) => assert (a.deleted + b.deleted) + [id] == a.deleted + (b.deleted + [id]);
    case Errored(_) =>
  }

  /** Deletes that all succeed give back their IDs, in order, and nothing else. */
  lemma {:induction false} ExecuteDeletes(client: Client, configurationId: string, ids: seq<string>)
    requires AllSucceed(client, configurationId, DeleteTasks(ids))
    ensures Execute(client, configurationId, DeleteTasks(ids)) == Changes([], [], ids, None, DeleteTasks(ids))
  {
    if ids != [] {
      var prefix := ids[..|ids| - 1];
      assert DeleteTasks(ids)[..|ids| - 1] == DeleteTasks(prefix);
      ExecuteDeletes(client, configurationId, prefix);
      assert prefix + [ids[|ids| - 1]] == ids;
    }
  }

  /** Updates that all succeed give back, in order, the parameter each
      update call answered, and nothing else. */
  lemma {:induction false} ExecuteUpdates(client: Client, configurationId: string, options: seq<UpdateOptions>)
    requires AllSucceed(client, configurationId, UpdateTasks(options))
    ensures var r := Execute(client, configurationId, UpdateTasks(options));
      && r.err.None? && r.created == [] && r.deleted == [] && r.issued == UpdateTasks(options)
      && |r.updated| == |options|
      && forall i | 0 <= i < |options| :: client.update(options[i].id, options[i]) == Success(r.updated[i])
  {
    if options != [] {
      var tasks := UpdateTasks(options);
      var prefix := options[..|options| - 1];
      var o := options[|options| - 1];
      assert tasks[..|options| - 1] == UpdateTasks(prefix);
      AllSucceedPrefix(client, configurationId, tasks);
      ExecuteUpdates(client, configurationId, prefix);
      var prior := Execute(client, configurationId, UpdateTasks(prefix));
      assert tasks[|options| - 1] == UpdateTask(o);
      assert client.update(o.id, o).Success?;
      var r := Execute(client, configurationId, tasks);
      assert r == Step(prior, UpdateTask(o), Updated(client.update(o.id, o).value));
      assert r.issued == tasks[..|options| - 1] + [tasks[|options| - 1]] == tasks;
      forall i | 0 <= i < |options|
        ensures client.update(options[i].id, options[i]) == Success(r.updated[i])
      {
        if i < |options| - 1 {
          assert prefix[i] == options[i];
        }
      }
    }
  }

  /** Creates that all succeed give back, in order, the parameter each create
      call answered, and nothing else. */
  lemma {:induction false} ExecuteCreates(client: Client, configurationId: string, options: seq<CreateOptions>)
    requires AllSucceed(client, configurationId, CreateTasks(options))
    ensures var r := Execute(client, configurationId, CreateTasks(options));
      && r.err.None? && r.updated == [] && r.deleted == [] && r.issued == CreateTasks(options)
      && |r.created| == |options|
      && forall i | 0 <= i < |options| :: client.create(configurationId, options[i]) == Success(r.created[i])
  {
    if options != [] {
      var tasks := CreateTasks(options);
      var prefix := options[..|options| - 1];
      var o := options[|options| - 1];
      assert tasks[..|options| - 1] == CreateTasks(prefix);
      AllSucceedPrefix(client, configurationId, tasks);
      ExecuteCreates(client, configurationId, prefix);
      var prior := Execute(client, configurationId, CreateTasks(prefix));
      assert tasks[|options| - 1] == CreateTask(o);
      assert client.create(configurationId, o).Success?;
      var r := Execute(client, configurationId, tasks);
      assert r == Step(prior, CreateTask(o), Created(client.create(configurationId, o).value));
      assert r.issued == tasks[..|options| - 1] + [tasks[|options| - 1]] == tasks;
      forall i | 0 <= i < |options|
        ensures client.create(configurationId, options[i]) == Success(r.created[i])
      {
        if i < |options| - 1 {
          assert prefix[i] == options[i];
        }
      }
    }
  }

  /** When every call succeeds, `changeParameters` reports no error, issues
      every task of the list, gives the delete IDs back in order and, for each
      create and each update, the parameter its call answered. */
  lemma ExecuteAllSucceed(client: Client, configurationId: string,
                          toCreate: seq<CreateOptions>, toUpdate: seq<UpdateOptions>, toDelete: seq<string>)
    requires AllSucceed(client, configurationId, TaskList(toCreate, toUpdate, toDelete))
    ensures var r := Execute(client, configurationId, TaskList(toCreate, toUpdate, toDelete));
      && r.err.None? && r.issued == TaskList(toCreate, toUpdate, toDelete) && r.deleted == toDelete
      && |r.created| == |toCreate|
      && (forall i | 0 <= i < |toCreate| :: client.create(configurationId, toCreate[i]) == Success(r.created[i]))
      && |r.updated| == |toUpdate|
      && (forall i | 0 <= i < |toUpdate| :: client.update(toUpdate[i].id, toUpdate[i]) == Success(r.updated[i]))
  {
    ExecuteTaskList(client, configurationId, toCreate, toUpdate, toDelete);
    ExecuteUpdates(client, configurationId, toUpdate);
    ExecuteCreates(client, configurationId, toCreate);
  }

  /** The three batches of a clean run, put together. */
  lemma ExecuteTaskList(client: Client, configurationId: string,
                        toCreate: seq<CreateOptions>, toUpdate: seq<UpdateOptions>, toDelete: seq<string>)
    requires AllSucceed(client, configurationId, TaskList(toCreate, toUpdate, toDelete))
    ensures AllSucceed(client, configurationId, UpdateTasks(toUpdate))
    ensures AllSucceed(client, configurationId, CreateTasks(toCreate))
    ensures Execute(client, configurationId, TaskList(toCreate, toUpdate, toDelete))
         == Changes(Execute(client, configurationId, CreateTasks(toCreate)).created,
                    Execute(client, configurationId, UpdateTasks(toUpdate)).updated,
                    toDelete, None, TaskList(toCreate, toUpdate, toDelete))
  {
    var ds, us, cs := DeleteTasks(toDelete), UpdateTasks(toUpdate), CreateTasks(toCreate);
    assert TaskList(toCreate, toUpdate, toDelete) == ds + us + cs;
    assert AllSucceed(client, configurationId, ds + us) && AllSucceed(client, configurationId, cs) by {
      AllSucceedConcat(client, configurationId, ds + us, cs);
    }
    var first := Execute(client, configurationId, ds + us);
    var ur, cr := Execute(client, configurationId, us), Execute(client, configurationId, cs);
    assert AllSucceed(client, configurationId, us) && first == Changes([], ur.updated, toDelete, None, ds + us) by {
      ExecuteDeletesUpdates(client, configurationId, toUpdate, toDelete);
    }
    assert cr.err.None? && cr.updated == [] && cr.deleted == [] && cr.issued == cs by {
      ExecuteCreates(client, configurationId, toCreate);
    }
    assert Execute(client, configurationId, ds + us + cs) == Combine(first, cr) by {
      ExecuteConcat(client, configurationId, ds + us, cs);
    }
    assert Combine(first, cr) == Changes(cr.created, ur.updated, toDelete, None, ds + us + cs) by {
      assert [] + cr.created == cr.created && ur.updated + [] == ur.updated && toDelete + [] == toDelete;
    }
  }

  /** The delete batch, then the update batch, of a clean run. */
  lemma ExecuteDeletesUpdates(client: Client, configurationId: string,
                              toUpdate: seq<UpdateOptions>, toDelete: seq<string>)
    requires AllSucceed(client, configurationId, DeleteTasks(toDelete) + UpdateTasks(toUpdate))
    ensures AllSucceed(client, configurationId, UpdateTasks(toUpdate))
    ensures Execute(client, configurationId, DeleteTasks(toDelete) + UpdateTasks(toUpdate))
         == Changes([], Execute(client, configurationId, UpdateTasks(toUpdate)).updated,
                    toDelete, None, DeleteTasks(toDelete) + UpdateTasks(toUpdate))
  {
    var ds, us := DeleteTasks(toDelete), UpdateTasks(toUpdate);
    var dr, ur := Execute(client, configurationId, ds), Execute(client, configurationId, us);
    assert AllSucceed(client, configurationId, ds) && AllSucceed(client, configurationId, us) by {
      AllSucceedConcat(client, configurationId, ds, us);
    }
    assert dr == Changes([], [], toDelete, None, ds) by {
      ExecuteDeletes(client, configurationId, toDelete);
    }
    assert ur.err.None? && ur.created == [] && ur.deleted == [] && ur.issued == us by {
      ExecuteUpdates(client, configurationId, toUpdate);
    }
    assert Execute(client, configurationId, ds + us) == Combine(dr, ur) by {
      ExecuteConcat(client, configurationId, ds, us);
    }
    assert Combine(dr, ur) == Changes([], ur.updated, toDelete, None, ds + us) by {
      assert [] + ur.created == [] && [] + ur.updated == ur.updated && toDelete + [] == toDelete;
    }
  }

  lemma AllSucceedConcat(client: Client, configurationId: string, a: seq<Task>, b: seq<Task>)
    ensures AllSucceed(client, configurationId, a + b)
        <==> AllSucceed(client, configurationId, a) && AllSucceed(client, configurationId, b)
  {
    assert forall i | 0 <= i < |a| :: (a + b)[i] == a[i];
    assert forall i | 0 <= i < |b| :: (a + b)[|a| + i] == b[i];
  }

  // ---------------------------------------------------------------------------
  // The remote parameter set after a run
  // ---------------------------------------------------------------------------

  /** A parameter with the attributes an update sends. */
  function Patched(p: Parameter, u: UpdateOptions): Parameter {
    p.(value := u.value, sensitive := u.sensitive, description := u.description)
  }

  /** A stored parameter carries the key and attributes of a create. */
  predicate Holds(p: Parameter, o: CreateOptions) {
    p.key == o.key && !Differs(p, o)
  }

  /** The effect of one call on the parameters the remote holds, keyed by
      parameter key: a refused call changes nothing, a delete removes the
      parameter with that ID, an update gives it the sent attributes, a
      create adds the sent attributes under the ID the remote answered. */
  function ApplyTask(client: Client, configurationId: string, store: map<string, Parameter>, t: Task): map<string, Parameter> {
    match t
    case DeleteTask(id) =>
      if client.delete(id).Some? then store
      else map k | k in store && store[k].id != id :: store[k]
    case UpdateTask(u) =>
      if client.update(u.id, u).Failure? then store
      else map k | k in store :: if store[k].id == u.id then Patched(store[k], u) else store[k]
    case CreateTask(o) =>
      (match client.create(configurationId, o)
       case Failure(_) => store
       case Success(p) => store[o.key := Parameter(p.id, o.key, o.value, o.sensitive, o.description)])
  }

  /** The remote parameters after the calls `tasks`, in order. */
  function Apply(client: Client, configurationId: string, store: map<string, Parameter>, tasks: seq<Task>): map<string, Parameter> {
    if tasks == [] then store
    else ApplyTask(client, configurationId, Apply(client, configurationId, store, tasks[..|tasks| - 1]), tasks[|tasks| - 1])
  }

  lemma {:induction false} ApplyConcat(client: Client, configurationId: string, store: map<string, Parameter>, a: seq<Task>, b: seq<Task>)
    ensures Apply(client, configurationId, store, a + b)
         == Apply(client, configurationId, Apply(client, configurationId, store, a), b)
  {
    if b == [] {
      assert a + b == a;
    } else {
      assert (a + b)[..|a + b| - 1] == a + b[..|b| - 1] && (a + b)[|a + b| - 1] == b[|b| - 1];
      ApplyConcat(client, configurationId, store, a, b[..|b| - 1]);
    }
  }

  /** A clean delete batch removes exactly the parameters with those IDs. */
  lemma {:induction false} ApplyDeletes(client: Client, configurationId: string, store: map<string, Parameter>, ids: seq<string>)
    requires AllSucceed(client, configurationId, DeleteTasks(ids))
    ensures Apply(client, configurationId, store, DeleteTasks(ids))
         == map k | k in store && store[k].id !in ids :: store[k]
  {
    if ids != [] {
      var tasks, prefix := DeleteTasks(ids), ids[..|ids| - 1];
      assert tasks[..|ids| - 1] == DeleteTasks(prefix);
      AllSucceedPrefix(client, configurationId, tasks);
      ApplyDeletes(client, configurationId, store, prefix);
      assert tasks[|ids| - 1] == DeleteTask(ids[|ids| - 1]);
      assert forall id :: id in ids <==> id in prefix || id == ids[|ids| - 1];
    }
  }

  /** A clean batch of updates with distinct IDs keeps every key and ID and
      gives each targeted parameter the attributes of its update. */
  lemma {:induction false} ApplyUpdates(client: Client, configurationId: string, store: map<string, Parameter>, us: seq<UpdateOptions>)
    requires AllSucceed(client, configurationId, UpdateTasks(us))
    requires DistinctIds(us)
    ensures var r := Apply(client, configurationId, store, UpdateTasks(us));
      && r.Keys == store.Keys
      && (forall k | k in store :: r[k].id == store[k].id && r[k].key == store[k].key)
      && (forall k | k in store && (forall i | 0 <= i < |us| :: us[i].id != store[k].id) :: r[k] == store[k])
      && (forall k, i | k in store && 0 <= i < |us| && us[i].id == store[k].id :: r[k] == Patched(store[k], us[i]))
  {
    if us != [] {
      var tasks, prefix, u := UpdateTasks(us), us[..|us| - 1], us[|us| - 1];
      assert tasks[..|us| - 1] == UpdateTasks(prefix);
      AllSucceedPrefix(client, configurationId, tasks);
      ApplyUpdates(client, configurationId, store, prefix);
      assert tasks[|us| - 1] == UpdateTask(u);
      var before := Apply(client, configurationId, store, UpdateTasks(prefix));
      var r := Apply(client, configurationId, store, tasks);
      assert r == map k | k in before :: if before[k].id == u.id then Patched(before[k], u) else before[k];
      forall k, i | k in store && 0 <= i < |us| && us[i].id == store[k].id
        ensures r[k] == Patched(store[k], us[i])
      {
        if i < |us| - 1 {
          assert prefix[i] == us[i] && us[i].id != u.id;
        } else {
          assert forall j | 0 <= j < |prefix| :: prefix[j].id != store[k].id by {
            forall j | 0 <= j < |prefix| ensures prefix[j].id != store[k].id {
              assert prefix[j] == us[j];
            }
          }
        }
      }
      forall k | k in store && (forall i | 0 <= i < |us| :: us[i].id != store[k].id)
        ensures r[k] == store[k]
      {
        assert forall j | 0 <= j < |prefix| :: prefix[j] == us[j];
      }
    }
  }

  /** A clean batch of creates with distinct keys adds each created key with
      the attributes sent, and leaves every other key as it was. */
  lemma {:induction false} ApplyCreates(client: Client, configurationId: string, store: map<string, Parameter>, cs: seq<CreateOptions>)
    requires AllSucceed(client, configurationId, CreateTasks(cs))
    requires DistinctKeys(cs)
    ensures var r := Apply(client, configurationId, store, CreateTasks(cs));
      && (forall k :: k in r <==> k in store || exists i | 0 <= i < |cs| :: cs[i].key == k)
      && (forall k | k in store && (forall i | 0 <= i < |cs| :: cs[i].key != k) :: r[k] == store[k])
      && (forall i | 0 <= i < |cs| :: cs[i].key in r && Holds(r[cs[i].key], cs[i]))
  {
    ApplyCreatesKeys(client, configurationId, store, cs);
    ApplyCreatesKeeps(client, configurationId, store, cs);
    ApplyCreatesHolds(client, configurationId, store, cs);
  }

  /** The split of a create batch into its clean prefix and its last create. */
  lemma CreatesStep(client: Client, configurationId: string, store: map<string, Parameter>, cs: seq<CreateOptions>)
    requires cs != []
    requires AllSucceed(client, configurationId, CreateTasks(cs))
    ensures AllSucceed(client, configurationId, CreateTasks(cs[..|cs| - 1]))
    ensures client.create(configurationId, cs[|cs| - 1]).Success?
    ensures var o, p := cs[|cs| - 1], client.create(configurationId, cs[|cs| - 1]).value;
      Apply(client, configurationId, store, CreateTasks(cs))
        == Apply(client, configurationId, store, CreateTasks(cs[..|cs| - 1]))[o.key := Parameter(p.id, o.key, o.value, o.sensitive, o.description)]
  {
    var tasks := CreateTasks(cs);
    assert tasks[..|cs| - 1] == CreateTasks(cs[..|cs| - 1]);
    AllSucceedPrefix(client, configurationId, tasks);
    assert tasks[|cs| - 1] == CreateTask(cs[|cs| - 1]);
  }

  lemma {:induction false} ApplyCreatesKeys(client: Client, configurationId: string, store: map<string, Parameter>, cs: seq<CreateOptions>)
    requires AllSucceed(client, configurationId, CreateTasks(cs))
    ensures var r := Apply(client, configurationId, store, CreateTasks(cs));
      forall k :: k in r <==> k in store || exists i | 0 <= i < |cs| :: cs[i].key == k
  {
    if cs != [] {
      var prefix := cs[..|cs| - 1];
      CreatesStep(client, configurationId, store, cs);
      ApplyCreatesKeys(client, configurationId, store, prefix);
      var r := Apply(client, configurationId, store, CreateTasks(cs));
      forall k ensures k in r <==> k in store || exists i | 0 <= i < |cs| :: cs[i].key == k {
        if exists i | 0 <= i < |cs| :: cs[i].key == k {
          var i :| 0 <= i < |cs| && cs[i].key == k;
          if i < |cs| - 1 {
            assert prefix[i].key == k;
          }
        }
        if exists i | 0 <= i < |prefix| :: prefix[i].key == k {
          var i :| 0 <= i < |prefix| && prefix[i].key == k;
          assert cs[i].key == k;
        }
      }
    }
  }

  lemma {:induction false} ApplyCreatesKeeps(client: Client, configurationId: string, store: map<string, Parameter>, cs: seq<CreateOptions>)
    requires AllSucceed(client, configurationId, CreateTasks(cs))
    ensures var r := Apply(client, configurationId, store, CreateTasks(cs));
      forall k | k in store && (forall i | 0 <= i < |cs| :: cs[i].key != k) :: k in r && r[k] == store[k]
  {
    if cs != [] {
      var prefix := cs[..|cs| - 1];
      CreatesStep(client, configurationId, store, cs);
      ApplyCreatesKeeps(client, configurationId, store, prefix);
      var r := Apply(client, configurationId, store, CreateTasks(cs));
      forall k | k in store && (forall i | 0 <= i < |cs| :: cs[i].key != k)
        ensures k in r && r[k] == store[k]
      {
        assert cs[|cs| - 1].key != k;
        forall j | 0 <= j < |prefix| ensures prefix[j].key != k {
          assert prefix[j] == cs[j];
        }
      }
    }
  }

  lemma {:induction false} ApplyCreatesHolds(client: Client, configurationId: string, store: map<string, Parameter>, cs: seq<CreateOptions>)
    requires AllSucceed(client, configurationId, CreateTasks(cs))
    requires DistinctKeys(cs)
    ensures var r := Apply(client, configurationId, store, CreateTasks(cs));
      forall i | 0 <= i < |cs| :: cs[i].key in r && Holds(r[cs[i].key], cs[i])
  {
    if cs != [] {
      var prefix, o := cs[..|cs| - 1], cs[|cs| - 1];
      CreatesStep(client, configurationId, store, cs);
      assert DistinctKeys(prefix) by {
        forall i, j | 0 <= i < j < |prefix| ensures prefix[i].key != prefix[j].key {
          assert prefix[i] == cs[i] && prefix[j] == cs[j];
        }
      }
      ApplyCreatesHolds(client, configurationId, store, prefix);
      var r := Apply(client, configurationId, store, CreateTasks(cs));
      forall i | 0 <= i < |cs| ensures cs[i].key in r && Holds(r[cs[i].key], cs[i]) {
        if i < |cs| - 1 {
          assert prefix[i] == cs[i];
          assert cs[i].key != o.key;
        }
      }
    }
  }

  /** The preconditions of a sync whose every call succeeds. */
  predicate CleanSync(client: Client, configurationId: string,
                      desiredOrder: seq<string>, currentOrder: seq<string>,
                      desired: map<string, CreateOptions>, current: map<string, Parameter>)
  {
    && Enumerates(desiredOrder, desired) && Enumerates(currentOrder, current)
    && KeyedByName(desired) && KeyedByKey(current) && UniqueIds(current)
    && AllSucceed(client, configurationId,
                  TaskList(Creates(desiredOrder, desired, current), Updates(desiredOrder, desired, current),
                           Deletes(currentOrder, desired, current)))
  }

  /** The remote parameters after the delete, update and create batches of a sync. */
  function AfterBatches(client: Client, configurationId: string,
                        desiredOrder: seq<string>, currentOrder: seq<string>,
                        desired: map<string, CreateOptions>, current: map<string, Parameter>): map<string, Parameter>
    requires Enumerates(desiredOrder, desired) && Enumerates(currentOrder, current)
  {
    var kept := Apply(client, configurationId, current, DeleteTasks(Deletes(currentOrder, desired, current)));
    var patched := Apply(client, configurationId, kept, UpdateTasks(Updates(desiredOrder, desired, current)));
    Apply(client, configurationId, patched, CreateTasks(Creates(desiredOrder, desired, current)))
  }

  /** Completeness of a clean run: once every call of the task list
      succeeds, the remote holds exactly the desired keys, each with the
      desired value, sensitivity and description. */
  lemma Completeness(client: Client, configurationId: string,
                     desiredOrder: seq<string>, currentOrder: seq<string>,
                     desired: map<string, CreateOptions>, current: map<string, Parameter>)
    requires Enumerates(desiredOrder, desired) && Enumerates(currentOrder, current)
    requires KeyedByName(desired) && KeyedByKey(current) && UniqueIds(current)
    requires AllSucceed(client, configurationId,
                        TaskList(Creates(desiredOrder, desired, current), Updates(desiredOrder, desired, current),
                                 Deletes(currentOrder, desired, current)))
    ensures var final := Apply(client, configurationId, current,
                               TaskList(Creates(desiredOrder, desired, current), Updates(desiredOrder, desired, current),
                                        Deletes(currentOrder, desired, current)));
      InSync(desired, final) && KeyedByKey(final)
  {
    var ds := DeleteTasks(Deletes(currentOrder, desired, current));
    var uts := UpdateTasks(Updates(desiredOrder, desired, current));
    var cts := CreateTasks(Creates(desiredOrder, desired, current));
    assert TaskList(Creates(desiredOrder, desired, current), Updates(desiredOrder, desired, current),
                    Deletes(currentOrder, desired, current)) == ds + uts + cts;
    ApplyConcat(client, configurationId, current, ds + uts, cts);
    ApplyConcat(client, configurationId, current, ds, uts);
    var final := AfterBatches(client, configurationId, desiredOrder, currentOrder, desired, current);
    forall k | k in desired ensures k in final && final[k].key == k && !Differs(final[k], desired[k]) {
      CompleteKey(client, configurationId, desiredOrder, currentOrder, desired, current, k);
    }
    forall k | k in final ensures k in desired {
      if k !in desired {
        ExtraKeyGone(client, configurationId, desiredOrder, currentOrder, desired, current, k);
      }
    }
  }

  /** The clean run of each batch, and the facts about the lists the batches come from. */
  lemma CleanBatches(client: Client, configurationId: string,
                     desiredOrder: seq<string>, currentOrder: seq<string>,
                     desired: map<string, CreateOptions>, current: map<string, Parameter>)
    requires CleanSync(client, configurationId, desiredOrder, currentOrder, desired, current)
    ensures AllSucceed(client, configurationId, DeleteTasks(Deletes(currentOrder, desired, current)))
    ensures AllSucceed(client, configurationId, UpdateTasks(Updates(desiredOrder, desired, current)))
    ensures AllSucceed(client, configurationId, CreateTasks(Creates(desiredOrder, desired, current)))
  {
    var ds := DeleteTasks(Deletes(currentOrder, desired, current));
    var uts := UpdateTasks(Updates(desiredOrder, desired, current));
    var cts := CreateTasks(Creates(desiredOrder, desired, current));
    assert TaskList(Creates(desiredOrder, desired, current), Updates(desiredOrder, desired, current),
                    Deletes(currentOrder, desired, current)) == ds + uts + cts;
    AllSucceedConcat(client, configurationId, ds + uts, cts);
    AllSucceedConcat(client, configurationId, ds, uts);
  }

  /** One desired key after the three batches: created, updated, or kept
      as it was because it already agreed. */
  lemma CompleteKey(client: Client, configurationId: string,
                    desiredOrder: seq<string>, currentOrder: seq<string>,
                    desired: map<string, CreateOptions>, current: map<string, Parameter>, k: string)
    requires CleanSync(client, configurationId, desiredOrder, currentOrder, desired, current)
    requires k in desired
    ensures var final := AfterBatches(client, configurationId, desiredOrder, currentOrder, desired, current);
      k in final && final[k].key == k && !Differs(final[k], desired[k])
  {
    var cs, us, ids := Creates(desiredOrder, desired, current), Updates(desiredOrder, desired, current),
                       Deletes(currentOrder, desired, current);
    CleanBatches(client, configurationId, desiredOrder, currentOrder, desired, current);
    var kept := Apply(client, configurationId, current, DeleteTasks(ids));
    var patched := Apply(client, configurationId, kept, UpdateTasks(us));
    var final := Apply(client, configurationId, patched, CreateTasks(cs));
    if NeedsCreate(k, desired, current) {
      assert desired[k] in cs && DistinctKeys(cs) by {
        CreatesExactly(desiredOrder, desired, current);
      }
      var i :| 0 <= i < |cs| && cs[i] == desired[k];
      assert cs[i].key in final && Holds(final[cs[i].key], cs[i]) by {
        ApplyCreatesHolds(client, configurationId, patched, cs);
      }
    } else {
      assert current[k].id !in ids by {
        DeletesExactly(currentOrder, desired, current);
      }
      assert k in kept && kept[k] == current[k] by {
        ApplyDeletes(client, configurationId, current, ids);
      }
      assert forall i | 0 <= i < |cs| :: cs[i].key != k by {
        CreatesExactly(desiredOrder, desired, current);
        forall i | 0 <= i < |cs| ensures cs[i].key != k {
          assert cs[i] in cs;
        }
      }
      assert DistinctIds(us) by {
        UpdatesDistinct(desiredOrder, desired, current);
      }
      assert k in patched by {
        ApplyUpdates(client, configurationId, kept, us);
      }
      assert k in final && final[k] == patched[k] by {
        ApplyCreatesKeeps(client, configurationId, patched, cs);
      }
      if NeedsUpdate(k, desired, current) {
        assert UpdateFor(current[k], desired[k]) in us by {
          UpdatesExactly(desiredOrder, desired, current);
        }
        var i :| 0 <= i < |us| && us[i] == UpdateFor(current[k], desired[k]);
        assert patched[k] == Patched(kept[k], us[i]) by {
          ApplyUpdates(client, configurationId, kept, us);
        }
      } else {
        assert forall i | 0 <= i < |us| :: us[i].id != kept[k].id by {
          UpdatesExactly(desiredOrder, desired, current);
          forall i | 0 <= i < |us| ensures us[i].id != kept[k].id {
            assert us[i] in us;
          }
        }
        assert patched[k] == kept[k] by {
          ApplyUpdates(client, configurationId, kept, us);
        }
      }
    }
  }

  /** A key the configuration does not hold is gone after the three batches. */
  lemma ExtraKeyGone(client: Client, configurationId: string,
                     desiredOrder: seq<string>, currentOrder: seq<string>,
                     desired: map<string, CreateOptions>, current: map<string, Parameter>, k: string)
    requires CleanSync(client, configurationId, desiredOrder, currentOrder, desired, current)
    requires k !in desired
    ensures k !in AfterBatches(client, configurationId, desiredOrder, currentOrder, desired, current)
  {
    var cs, us, ids := Creates(desiredOrder, desired, current), Updates(desiredOrder, desired, current),
                       Deletes(currentOrder, desired, current);
    CleanBatches(client, configurationId, desiredOrder, currentOrder, desired, current);
    var kept := Apply(client, configurationId, current, DeleteTasks(ids));
    var patched := Apply(client, configurationId, kept, UpdateTasks(us));
    assert k in current ==> current[k].id in ids by {
      DeletesExactly(currentOrder, desired, current);
    }
    assert k !in kept by {
      ApplyDeletes(client, configurationId, current, ids);
    }
    assert k !in patched by {
      UpdatesDistinct(desiredOrder, desired, current);
      ApplyUpdates(client, configurationId, kept, us);
    }
    assert forall i | 0 <= i < |cs| :: cs[i].key != k by {
      CreatesExactly(desiredOrder, desired, current);
      forall i | 0 <= i < |cs| ensures cs[i].key != k {
        assert cs[i] in cs;
      }
    }
    ApplyCreatesKeys(client, configurationId, patched, cs);
  }

  // ---------------------------------------------------------------------------
  // syncArguments: read, compare, then two batches
  // ---------------------------------------------------------------------------

  /** The part of a remote provider configuration the parameter sync reads. */
  datatype RemoteConfiguration = RemoteConfiguration(providerName: string, parameters: seq<Parameter>)

  datatype SyncError =
    | ReadFailed(configurationId: string, cause: string)
    | ProviderNameChanged(current: string, requested: string)
    | ParameterCallFailed(cause: string)

  /** The issued calls are the first tasks of the list. */
  lemma {:induction false} IssuedIsPrefix(client: Client, configurationId: string, tasks: seq<Task>)
    ensures var issued := Execute(client, configurationId, tasks).issued;
      |issued| <= |tasks| && issued == tasks[..|issued|]
  {
    if tasks != [] {
      var prefix := tasks[..|tasks| - 1];
      IssuedIsPrefix(client, configurationId, prefix);
      var prior := Execute(client, configurationId, prefix);
      if prior.err.Some? {
        assert Execute(client, configurationId, tasks) == prior;
        assert prefix[..|prior.issued|] == tasks[..|prior.issued|];
      } else {
        ExecuteNoError(client, configurationId, prefix);
        var t := tasks[|tasks| - 1];
        assert Execute(client, configurationId, tasks).issued == prior.issued + [t];
        assert prefix + [t] == tasks && tasks[..|tasks|] == tasks;
      }
    }
  }

  /** The first batch only deletes. */
  lemma DeleteBatchIssuesDeletes(client: Client, configurationId: string, ids: seq<string>)
    ensures var issued := Execute(client, configurationId, DeleteTasks(ids)).issued;
      forall i | 0 <= i < |issued| :: issued[i].DeleteTask?
  {
    var tasks := DeleteTasks(ids);
    IssuedIsPrefix(client, configurationId, tasks);
    var issued := Execute(client, configurationId, tasks).issued;
    forall i | 0 <= i < |issued| ensures issued[i].DeleteTask? {
      assert issued[i] == tasks[i];
    }
  }

  /** The second batch never deletes. */
  lemma SecondBatchIssuesNoDeletes(client: Client, configurationId: string,
                                   toCreate: seq<CreateOptions>, toUpdate: seq<UpdateOptions>)
    ensures var issued := Execute(client, configurationId, TaskList(toCreate, toUpdate, [])).issued;
      forall i | 0 <= i < |issued| :: !issued[i].DeleteTask?
  {
    var tasks := TaskList(toCreate, toUpdate, []);
    assert tasks == UpdateTasks(toUpdate) + CreateTasks(toCreate);
    IssuedIsPrefix(client, configurationId, tasks);
    var issued := Execute(client, configurationId, tasks).issued;
    forall i | 0 <= i < |issued| ensures !issued[i].DeleteTask? {
      assert issued[i] == tasks[i];
    }
  }

  /** Calls that are all deletes, followed by calls none of which is. */
  lemma DeletesFirst(first: seq<Task>, second: seq<Task>)
    requires forall i | 0 <= i < |first| :: first[i].DeleteTask?
    requires forall i | 0 <= i < |second| :: !second[i].DeleteTask?
    ensures var calls := first + second;
      forall i, j | 0 <= i < j < |calls| :: calls[j].DeleteTask? ==> calls[i].DeleteTask?
  {
    var calls := first + second;
    forall i, j | 0 <= i < j < |calls| ensures calls[j].DeleteTask? ==> calls[i].DeleteTask? {
      if j < |first| {
        assert calls[i] == first[i];
      } else {
        assert calls[j] == second[j - |first|];
      }
    }
  }

  /** `syncArguments`: build the desired map from the `argument` blocks, read
      the configuration (`read` is what that read answers), refuse a change of
      provider name, diff, then run the deletes as one batch and, only if it
      succeeds, the updates and creates as a second. `calls` are the remote
      parameter calls made, in order. */
  method SyncArguments(client: Client, configurationId: string, providerName: string, arguments: seq<Argument>,
                       read: Result<RemoteConfiguration, string>, desiredOrder: seq<string>, currentOrder: seq<string>)
    returns (err: Option<SyncError>, calls: seq<Task>)
    requires Enumerates(desiredOrder, DesiredOptions(arguments))
    requires read.Success? ==> Enumerates(currentOrder, CurrentParameters(read.value.parameters))
    ensures read.Failure? ==> err == Some(ReadFailed(configurationId, read.error)) && calls == []
    ensures read.Success? && read.value.providerName != providerName ==>
      err == Some(ProviderNameChanged(read.value.providerName, providerName)) && calls == []
    ensures read.Success? && read.value.providerName == providerName ==>
      var desired, current := DesiredOptions(arguments), CurrentParameters(read.value.parameters);
      var deletes := Execute(client, configurationId, DeleteTasks(Deletes(currentOrder, desired, current)));
      var rest := Execute(client, configurationId,
        TaskList(Creates(desiredOrder, desired, current), Updates(desiredOrder, desired, current), []));
      if deletes.err.Some? then err == Some(ParameterCallFailed(deletes.err.value)) && calls == deletes.issued
      else
        && calls == deletes.issued + rest.issued
        && err == (if rest.err.Some? then Some(ParameterCallFailed(rest.err.value)) else None)
    ensures forall i, j | 0 <= i < j < |calls| :: calls[j].DeleteTask? ==> calls[i].DeleteTask?
  {
    var desired := BuildDesired(arguments);
    if read.Failure? {
      return Some(ReadFailed(configurationId, read.error)), [];
    }
    var configuration := read.value;
    if providerName != configuration.providerName {
      return Some(ProviderNameChanged(configuration.providerName, providerName)), [];
    }
    var current := BuildCurrent(configuration.parameters);
    var toCreate, toUpdate, toDelete := Diff(desired, current, desiredOrder, currentOrder);

    var deletes := ChangeParameters(client, configurationId, [], [], toDelete);
    assert TaskList([], [], toDelete) == DeleteTasks(toDelete);
    DeleteBatchIssuesDeletes(client, configurationId, toDelete);
    if deletes.err.Some? {
      return Some(ParameterCallFailed(deletes.err.value)), deletes.issued;
    }
    var rest := ChangeParameters(client, configurationId, toCreate, toUpdate, []);
    SecondBatchIssuesNoDeletes(client, configurationId, toCreate, toUpdate);
    DeletesFirst(deletes.issued, rest.issued);
    calls := deletes.issued + rest.issued;
    err := if rest.err.Some? then Some(ParameterCallFailed(rest.err.value)) else None;
  }

  // ---------------------------------------------------------------------------
  // createParameters and the custom arguments of Create
  // ---------------------------------------------------------------------------

  /** `createParameters`: `changeParameters` with only creates. */
  method CreateParameters(client: Client, configurationId: string, options: seq<CreateOptions>)
    returns (created: seq<Parameter>, err: Option<string>)
    ensures var r := Execute(client, configurationId, CreateTasks(options));
      created == r.created && err == r.err
    ensures err.None? ==> |created| == |options|
  {
    var r := ChangeParameters(client, configurationId, options, [], []);
    assert TaskList(options, [], []) == CreateTasks(options);
    ExecuteNoError(client, configurationId, CreateTasks(options));
    if r.err.None? {
      ExecuteCreates(client, configurationId, options);
    }
    created, err := r.created, r.err;
  }

  /** The loop of Create that turns every `argument` block into create
      options: one per block, in order, with no merging of equal names. */
  method CustomCreateOptions(arguments: seq<Argument>) returns (options: seq<CreateOptions>)
    ensures |options| == |arguments|
    ensures forall i | 0 <= i < |arguments| :: options[i].key == arguments[i].name
    ensures forall i | 0 <= i < |arguments| :: options[i] == OptionsFor(arguments[i])
  {
    options := [];
    for i := 0 to |arguments|
      invariant |options| == i
      invariant forall j | 0 <= j < i :: options[j] == OptionsFor(arguments[j])
    {
      options := options + [OptionsFor(arguments[i])];
    }
  }

  /** The parameter step of Create: once the configuration exists, its
      arguments are created only when there are any. */
  method CreateCustomParameters(client: Client, configurationId: string, arguments: seq<Argument>)
    returns (err: Option<string>, calls: seq<Task>)
    ensures arguments == [] ==> err.None? && calls == []
    ensures arguments != [] ==> exists options: seq<CreateOptions> ::
      && |options| == |arguments|
      && (forall i | 0 <= i < |arguments| :: options[i] == OptionsFor(arguments[i]))
      && var r := Execute(client, configurationId, CreateTasks(options));
         err == r.err && calls == r.issued
  {
    var options := CustomCreateOptions(arguments);
    err, calls := None, [];
    if |options| != 0 {
      var r := ChangeParameters(client, configurationId, options, [], []);
      assert TaskList(options, [], []) == CreateTasks(options);
      err, calls := r.err, r.issued;
    }
  }

  // ---------------------------------------------------------------------------
  // Read: sensitive values come from prior state
  // ---------------------------------------------------------------------------

  /** The values configured in prior state, by name; a later block with the
      same name wins. */
  function StateValues(stateArguments: seq<Argument>): (values: map<string, string>)
    ensures values.Keys == DesiredOptions(stateArguments).Keys
    ensures forall k | k in values :: values[k] == DesiredOptions(stateArguments)[k].value
  {
    if stateArguments == [] then map[]
    else
      var a := stateArguments[|stateArguments| - 1];
      StateValues(stateArguments[..|stateArguments| - 1])[a.name := a.value]
  }

  /** How Read shows one remote parameter: its value is the remote's, except
      that a sensitive parameter shows the value prior state holds for it. */
  function ReadArgument(p: Parameter, stateValues: map<string, string>): (a: Argument)
    ensures a.name == p.key && a.sensitive == p.sensitive && a.description == p.description
    ensures !p.sensitive ==> a.value == p.value
    ensures p.sensitive && p.key in stateValues ==> a.value == stateValues[p.key]
    ensures p.sensitive && p.key !in stateValues ==> a.value == p.value
  {
    Argument(p.key, if p.sensitive && p.key in stateValues then stateValues[p.key] else p.value, p.sensitive, p.description)
  }

  /** The two loops of Read for a custom configuration: collect the state
      values, then show each remote parameter, in the remote's order. */
  method MergeReadArguments(stateArguments: seq<Argument>, parameters: seq<Parameter>) returns (arguments: seq<Argument>)
    ensures |arguments| == |parameters|
    ensures forall i | 0 <= i < |parameters| :: arguments[i] == ReadArgument(parameters[i], StateValues(stateArguments))
  {
    var stateValues: map<string, string> := map[];
    for i := 0 to |stateArguments|
      invariant stateValues == StateValues(stateArguments[..i])
    {
      assert stateArguments[..i + 1][..i] == stateArguments[..i];
      stateValues := stateValues[stateArguments[i].name := stateArguments[i].value];
    }
    assert stateArguments[..|stateArguments|] == stateArguments;
    arguments := [];
    for i := 0 to |parameters|
      invariant |arguments| == i
      invariant forall j | 0 <= j < i :: arguments[j] == ReadArgument(parameters[j], stateValues)
    {
      var p := parameters[i];
      var value := p.value;
      if p.key in stateValues && p.sensitive {
        value := stateValues[p.key];
      }
      arguments := arguments + [Argument(p.key, value, p.sensitive, p.description)];
    }
  }

  /** The remote holds `arguments` as `parameters`, in the same order, hiding
      only the values of sensitive ones. */
  predicate HoldsHidingSecrets(parameters: seq<Parameter>, arguments: seq<Argument>) {
    && |parameters| == |arguments|
    && forall i | 0 <= i < |arguments| ::
         && parameters[i].key == arguments[i].name
         && parameters[i].sensitive == arguments[i].sensitive
         && parameters[i].description == arguments[i].description
         && (!arguments[i].sensitive ==> parameters[i].value == arguments[i].value)
  }

  /** No two `argument` blocks share a name. */
  predicate DistinctNames(arguments: seq<Argument>) {
    forall i, j | 0 <= i < j < |arguments| :: arguments[i].name != arguments[j].name
  }

  /** Reading back what was configured, with distinct names, shows exactly
      the configuration: the merge restores every hidden sensitive value. */
  lemma ReadBackShowsConfiguration(arguments: seq<Argument>, parameters: seq<Parameter>)
    requires DistinctNames(arguments)
    requires HoldsHidingSecrets(parameters, arguments)
    ensures forall i | 0 <= i < |parameters| :: ReadArgument(parameters[i], StateValues(arguments)) == arguments[i]
  {
    forall i | 0 <= i < |parameters|
      ensures ReadArgument(parameters[i], StateValues(arguments)) == arguments[i]
    {
      assert LastWithName(arguments, i);
      ReadBackShowsArgument(arguments, parameters, i);
    }
  }

  lemma ReadBackShowsArgument(arguments: seq<Argument>, parameters: seq<Parameter>, i: int)
    requires HoldsHidingSecrets(parameters, arguments)
    requires 0 <= i < |parameters| && LastWithName(arguments, i)
    ensures ReadArgument(parameters[i], StateValues(arguments)) == arguments[i]
  {
    DesiredOptionsLastWins(arguments);
  }

  // ---------------------------------------------------------------------------
  // The kubernetes configuration of the acceptance test, updated
  // ---------------------------------------------------------------------------

  lemma Member<T>(s: seq<T>, i: int)
    requires 0 <= i < |s|
    ensures s[i] in s
  {
  }

  /** A sequence without repeats whose only element is `x`. */
  lemma Singleton<T>(s: seq<T>, x: T)
    requires x in s
    requires forall y | y in s :: y == x
    requires forall i, j | 0 <= i < j < |s| :: s[i] != s[j]
    ensures s == [x]
  {
    if |s| >= 2 {
      Member(s, 0);
      Member(s, 1);
      assert false;
    }
  }

  /** What the remote holds after the first configuration: a sensitive
      `client_certificate` comes back with an empty value. */
  function KubernetesCurrent(pathId: string, certificateId: string, hostId: string): map<string, Parameter> {
    map[
      "config_path" := Parameter(pathId, "config_path", "~/.kube/config", false, "A path to a kube config file. some typo..."),
      "client_certificate" := Parameter(certificateId, "client_certificate", "", true, ""),
      "host" := Parameter(hostId, "host", "my-host", false, "")]
  }

  /** The `argument` blocks of the updated configuration. */
  const KubernetesUpdated: seq<Argument> := [
    Argument("config_path", "~/.kube/config", true, "A path to a kube config file."),
    Argument("host", "my-host", false, ""),
    Argument("username", "my-username", false, "")]

  /** The desired map of the updated configuration. */
  function KubernetesDesired(): map<string, CreateOptions> {
    map[
      "config_path" := CreateOptions("config_path", "~/.kube/config", true, "A path to a kube config file."),
      "host" := CreateOptions("host", "my-host", false, ""),
      "username" := CreateOptions("username", "my-username", false, "")]
  }

  lemma KubernetesDesiredOptions()
    ensures DesiredOptions(KubernetesUpdated) == KubernetesDesired()
  {
    var args := KubernetesUpdated;
    assert args[..2][..1][..0] == [];
    assert DesiredOptions(args[..1]) == map["config_path" := OptionsFor(args[0])];
    assert DesiredOptions(args[..2]) == map["config_path" := OptionsFor(args[0]), "host" := OptionsFor(args[1])];
    assert args[..3] == args;
  }

  /** Going from the first configuration to the updated one, in whatever
      order Go visits the maps: `config_path` is updated (made sensitive,
      description fixed), `client_certificate` is deleted, `username` is
      created and `host` is left alone. */
  lemma KubernetesScenario(pathId: string, certificateId: string, hostId: string,
                           desiredOrder: seq<string>, currentOrder: seq<string>)
    requires pathId != certificateId && pathId != hostId && certificateId != hostId
    requires Enumerates(desiredOrder, DesiredOptions(KubernetesUpdated))
    requires Enumerates(currentOrder, KubernetesCurrent(pathId, certificateId, hostId))
    ensures var desired, current := DesiredOptions(KubernetesUpdated), KubernetesCurrent(pathId, certificateId, hostId);
      && Creates(desiredOrder, desired, current) == [CreateOptions("username", "my-username", false, "")]
      && Updates(desiredOrder, desired, current) == [UpdateOptions(pathId, "~/.kube/config", true, "A path to a kube config file.")]
      && Deletes(currentOrder, desired, current) == [certificateId]
  {
    KubernetesDesiredOptions();
    var current := KubernetesCurrent(pathId, certificateId, hostId);
    assert current.Keys == {"config_path", "client_certificate", "host"};
    assert UniqueIds(current) by {
      forall k1, k2 | k1 in current && k2 in current && current[k1].id == current[k2].id
        ensures k1 == k2
      {
      }
    }
    assert current["host"] == Parameter(hostId, "host", "my-host", false, "");
    KubernetesCreates(desiredOrder, current);
    KubernetesUpdates(desiredOrder, current);
    KubernetesDeletes(currentOrder, current);
  }

  lemma KubernetesCreates(desiredOrder: seq<string>, current: map<string, Parameter>)
    requires Enumerates(desiredOrder, KubernetesDesired())
    requires "config_path" in current && !current["config_path"].sensitive
    requires "host" in current && !current["host"].sensitive
    requires "username" !in current
    ensures Creates(desiredOrder, KubernetesDesired(), current) == [CreateOptions("username", "my-username", false, "")]
  {
    var desired := KubernetesDesired();
    assert "username" in desiredOrder;
    CreatesExactly(desiredOrder, desired, current);
    Singleton(Creates(desiredOrder, desired, current), desired["username"]);
  }

  lemma KubernetesUpdates(desiredOrder: seq<string>, current: map<string, Parameter>)
    requires Enumerates(desiredOrder, KubernetesDesired())
    requires UniqueIds(current)
    requires "config_path" in current && current["config_path"].value == "~/.kube/config" && !current["config_path"].sensitive
    requires "host" in current && current["host"] == Parameter(current["host"].id, "host", "my-host", false, "")
    requires "username" !in current
    ensures Updates(desiredOrder, KubernetesDesired(), current)
         == [UpdateOptions(current["config_path"].id, "~/.kube/config", true, "A path to a kube config file.")]
  {
    var desired := KubernetesDesired();
    assert "config_path" in desiredOrder;
    UpdatesExactly(desiredOrder, desired, current);
    UpdatesDistinct(desiredOrder, desired, current);
    Singleton(Updates(desiredOrder, desired, current), UpdateFor(current["config_path"], desired["config_path"]));
  }

  lemma KubernetesDeletes(currentOrder: seq<string>, current: map<string, Parameter>)
    requires Enumerates(currentOrder, current) && UniqueIds(current)
    requires current.Keys == {"config_path", "client_certificate", "host"}
    requires !current["config_path"].sensitive && !current["host"].sensitive
    ensures Deletes(currentOrder, KubernetesDesired(), current) == [current["client_certificate"].id]
  {
    assert "client_certificate" in currentOrder;
    DeletesExactly(currentOrder, KubernetesDesired(), current);
    Singleton(Deletes(currentOrder, KubernetesDesired(), current), current["client_certificate"].id);
  }
}
