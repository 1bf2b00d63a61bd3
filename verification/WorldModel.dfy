/** Worlds, their operations and configuration revisions, and the repository that stores them. */
module WorldModel {
  import opened Base

  datatype WorldStatus = Sleeping | Waking | Online | GoingToSleep | Attention | PendingDeletion

  datatype OperationKind = Wake | Sleep | Recover

  datatype OperationStatus = Pending | Running | Succeeded | Cancelled | Failed | NeedsAttention

  datatype Phase =
    | Requested | ProvisioningRuntime | RestoringWorld | ApplyingConfiguration | StartingGame
    | CheckingGameHealth | CheckingPlayers | SavingGame | StoppingGame | PersistingWorld
    | CreatingBackup | ReleasingRuntime | Complete

  datatype Runtime = Runtime(id: Id, reference: Id)
  datatype Stored = Stored(id: Id, checksum: string)
  datatype BillingSession = BillingSession(quote: Id, reservation: Id)

  datatype World = World(
    id: Id, account: Id, profile: string, status: WorldStatus, runtime: Option<Runtime>,
    configuration: Id, pendingConfiguration: Option<Id>, stored: Option<Stored>, version: nat,
    session: Option<BillingSession>, startedAt: Option<Time>, emptySince: Option<Time>,
    deletionAt: Option<Time>, finalBackup: Option<Id>, applied: seq<string>, autoSleep: Option<int>)

  datatype Operation = Operation(
    id: Id, account: Id, world: Id, kind: OperationKind, status: OperationStatus, phase: Phase,
    key: string, createdAt: Time, version: nat, runtime: Option<Runtime>, force: bool,
    stored: Option<Stored>, backup: Option<Id>, attempt: nat, session: Option<BillingSession>,
    startedAt: Option<Time>)

  type Setting = string

  datatype Revision = Revision(id: Id, account: Id, world: Id, number: nat, entries: map<string, Setting>, key: string)

  datatype WorldKey = WorldKey(account: Id, world: Id)
  datatype CommandKey = CommandKey(account: Id, key: string)

  function KeyOf(w: World): WorldKey { WorldKey(w.account, w.id) }
  function KeyFor(o: Operation): WorldKey { WorldKey(o.account, o.world) }

  predicate Live(o: Operation) { o.status.Pending? || o.status.Running? }

  datatype Error = Missing | Conflict | Invalid | Denied | Blocked | NoRuntime | NoState | Unsupported | Outage

  datatype Result<+T> = Ok(value: T) | Err(error: Error)

  /** The six dictionaries of the repository. */
  datatype Repo = Repo(
    worlds: map<WorldKey, World>, operations: map<Id, Operation>, revisions: map<Id, Revision>,
    commands: map<CommandKey, Id>, revisionCommands: map<CommandKey, Id>, active: map<WorldKey, Id>)

  // ----- what each repository call does to the dictionaries

  /** begin_operation: an earlier call with the key wins, then a live operation, then the version check. */
  function Begin(r: Repo, after: World, o: Operation, expected: nat): (Repo, Result<Operation>) {
    var command, k := CommandKey(o.account, o.key), KeyFor(o);
    if command in r.commands then
      (r, if r.commands[command] in r.operations then Ok(r.operations[r.commands[command]]) else Err(Missing))
    else if k in r.active && r.active[k] !in r.operations then (r, Err(Missing))
    else if k in r.active && Live(r.operations[r.active[k]]) then (r, Ok(r.operations[r.active[k]]))
    else if k !in r.worlds then (r, Err(Missing))
    else if r.worlds[k].version != expected then (r, Err(Conflict))
    else (r.(worlds := r.worlds[k := after], operations := r.operations[o.id := o],
             commands := r.commands[command := o.id], active := r.active[k := o.id]), Ok(o))
  }

  datatype WorldWrite = WorldWrite(after: World, expected: nat)

  function SaveOperation(r: Repo, o: Operation, expected: nat, write: Option<WorldWrite>): (Repo, Result<Operation>) {
    if o.id !in r.operations then (r, Err(Missing))
    else if r.operations[o.id].version != expected then (r, Err(Conflict))
    else if write.Some? && KeyOf(write.value.after) !in r.worlds then (r, Err(Missing))
    else if write.Some? && r.worlds[KeyOf(write.value.after)].version != write.value.expected then (r, Err(Conflict))
    else
      var k := KeyFor(o);
      var drop := !Live(o) && k in r.active && r.active[k] == o.id;
      (r.(worlds := if write.Some? then r.worlds[KeyOf(write.value.after) := write.value.after] else r.worlds,
          operations := r.operations[o.id := o],
          active := if drop then r.active - {k} else r.active), Ok(o))
  }

  function SaveWorld(r: Repo, after: World, expected: nat): (Repo, Result<World>) {
    var k := KeyOf(after);
    if k !in r.worlds then (r, Err(Missing))
    else if r.worlds[k].version != expected then (r, Err(Conflict))
    else (r.(worlds := r.worlds[k := after]), Ok(after))
  }

  function AppendRevision(r: Repo, after: World, v: Revision, expected: nat): (Repo, Result<Revision>) {
    var command, k := CommandKey(v.account, v.key), KeyOf(after);
    if command in r.revisionCommands then
      (r, if r.revisionCommands[command] in r.revisions then Ok(r.revisions[r.revisionCommands[command]]) else Err(Missing))
    else if k !in r.worlds then (r, Err(Missing))
    else if r.worlds[k].version != expected then (r, Err(Conflict))
    else (r.(worlds := r.worlds[k := after], revisions := r.revisions[v.id := v],
             revisionCommands := r.revisionCommands[command := v.id]), Ok(v))
  }

  /** delete drops the World, its operations, revisions and active entry; the key indexes stay. */
  function Delete(r: Repo, k: WorldKey): (Repo, Result<()>) {
    if k !in r.worlds then (r, Err(Missing))
    else (r.(worlds := r.worlds - {k},
             operations := map id | id in r.operations && KeyFor(r.operations[id]) != k :: r.operations[id],
             revisions := map id | id in r.revisions && WorldKey(r.revisions[id].account, r.revisions[id].world) != k
                          :: r.revisions[id],
             active := r.active - {k}), Ok(()))
  }

  class WorldRepository {
    var worlds: map<WorldKey, World>
    var operations: map<Id, Operation>
    var revisions: map<Id, Revision>
    var commands: map<CommandKey, Id>
    var revisionCommands: map<CommandKey, Id>
    var active: map<WorldKey, Id>

    function View(): Repo
      reads this
    {
      Repo(worlds, operations, revisions, commands, revisionCommands, active)
    }

    constructor ()
      ensures View() == Repo(map[], map[], map[], map[], map[], map[])
    {
      worlds, operations, revisions := map[], map[], map[];
      commands, revisionCommands, active := map[], map[], map[];
    }

    method Create(w: World, initial: Revision)
      modifies this
      ensures View() == old(View()).(worlds := old(worlds)[KeyOf(w) := w], revisions := old(revisions)[initial.id := initial])
    {
      worlds := worlds[KeyOf(w) := w];
      revisions := revisions[initial.id := initial];
    }

    method Get(k: WorldKey) returns (r: Result<World>)
      ensures r == if k in worlds then Ok(worlds[k]) else Err(Missing)
    {
      r := if k in worlds then Ok(worlds[k]) else Err(Missing);
    }

    method GetOperation(account: Id, id: Id) returns (r: Result<Operation>)
      ensures r == if id in operations && operations[id].account == account then Ok(operations[id]) else Err(Missing)
    {
      r := if id in operations && operations[id].account == account then Ok(operations[id]) else Err(Missing);
    }

    method BeginOperation(after: World, o: Operation, expected: nat) returns (r: Result<Operation>)
      modifies this
      ensures (View(), r) == Begin(old(View()), after, o, expected)
    {
      var command, k := CommandKey(o.account, o.key), KeyFor(o);
      if command in commands {
        return if commands[command] in operations then Ok(operations[commands[command]]) else Err(Missing);
      }
      if k in active {
        if active[k] !in operations {
          return Err(Missing);
        }
        var running := operations[active[k]];
        if Live(running) {
          return Ok(running);
        }
      }
      if k !in worlds {
        return Err(Missing);
      }
      if worlds[k].version != expected {
        return Err(Conflict);
      }
      worlds := worlds[k := after];
      operations := operations[o.id := o];
      commands := commands[command := o.id];
      active := active[k := o.id];
      r := Ok(o);
    }

    method SaveOp(o: Operation, expected: nat, write: Option<WorldWrite>) returns (r: Result<Operation>)
      modifies this
      ensures (View(), r) == SaveOperation(old(View()), o, expected, write)
    {
      if o.id !in operations {
        return Err(Missing);
      }
      if operations[o.id].version != expected {
        return Err(Conflict);
      }
      if write.Some? {
        var k := KeyOf(write.value.after);
        if k !in worlds {
          return Err(Missing);
        }
        if worlds[k].version != write.value.expected {
          return Err(Conflict);
        }
        worlds := worlds[k := write.value.after];
      }
      operations := operations[o.id := o];
      if !Live(o) {
        var k := KeyFor(o);
        if k in active && active[k] == o.id {
          active := active - {k};
        }
      }
      r := Ok(o);
    }

    method Save(after: World, expected: nat) returns (r: Result<World>)
      modifies this
      ensures (View(), r) == SaveWorld(old(View()), after, expected)
    {
      var k := KeyOf(after);
      if k !in worlds {
        return Err(Missing);
      }
      if worlds[k].version != expected {
        return Err(Conflict);
      }
      worlds := worlds[k := after];
      r := Ok(after);
    }

    method AppendConfiguration(after: World, v: Revision, expected: nat) returns (r: Result<Revision>)
      modifies this
      ensures (View(), r) == AppendRevision(old(View()), after, v, expected)
    {
      var command, k := CommandKey(v.account, v.key), KeyOf(after);
      if command in revisionCommands {
        return if revisionCommands[command] in revisions then Ok(revisions[revisionCommands[command]]) else Err(Missing);
      }
      if k !in worlds {
        return Err(Missing);
      }
      if worlds[k].version != expected {
        return Err(Conflict);
      }
      worlds := worlds[k := after];
      revisions := revisions[v.id := v];
      revisionCommands := revisionCommands[command := v.id];
      r := Ok(v);
    }

    method DeleteWorld(k: WorldKey) returns (r: Result<()>)
      modifies this
      ensures (View(), r) == Delete(old(View()), k)
    {
      if k !in worlds {
        return Err(Missing);
      }
      worlds := worlds - {k};
      operations := map id | id in operations && KeyFor(operations[id]) != k :: operations[id];
      revisions := map id | id in revisions && WorldKey(revisions[id].account, revisions[id].world) != k :: revisions[id];
      active := active - {k};
      r := Ok(());
    }
  }
}
