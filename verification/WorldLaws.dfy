/** What every commit keeps between Worlds, their operations and the active index, when each commit is
    computed from records that may have gone stale since they were read. */
module WorldLaws {
  import opened Base
  import opened WorldModel
  import opened WorldPlans

  // ----- one operation

  predicate Supported(o: Operation) {
    match o.kind
    case Wake =>
      o.phase in {Requested, ProvisioningRuntime, RestoringWorld, ApplyingConfiguration, StartingGame,
                  CheckingGameHealth, StoppingGame, ReleasingRuntime}
    case Sleep =>
      o.phase in {Requested, CheckingPlayers, SavingGame, StoppingGame, PersistingWorld, CreatingBackup, ReleasingRuntime}
    case Recover => o.phase in {Requested, StartingGame, CheckingGameHealth}
  }

  predicate NeedsRuntime(o: Operation) {
    !o.kind.Wake? || !(o.phase.Requested? || o.phase.ProvisioningRuntime?)
  }

  /** A live operation is in a phase of its kind and carries what the phase uses. */
  predicate Ready(o: Operation) {
    && Supported(o)
    && (NeedsRuntime(o) ==> o.runtime.Some?)
    && (o.kind.Sleep? && (o.phase.CreatingBackup? || o.phase.ReleasingRuntime?) ==> o.stored.Some?)
    && (o.kind.Sleep? && o.phase.ReleasingRuntime? ==> o.backup.Some?)
    && (o.kind.Recover? ==> 1 <= o.attempt <= RECOVERY_LIMIT)
  }

  // ----- one World and its live operation

  /** The World shows what its live operation is doing and holds the same runtime. */
  predicate Coupled(w: World, o: Operation) {
    && Ready(o)
    && w.status == (if o.kind.Sleep? then GoingToSleep else Waking)
    && (NeedsRuntime(o) ==> w.runtime == o.runtime)
  }

  ghost predicate FailedRecovery(r: Repo, k: WorldKey) {
    exists id :: id in r.operations && KeyFor(r.operations[id]) == k
                 && r.operations[id].kind.Recover? && r.operations[id].status.Failed?
  }

  /** A World without a live operation: WAKING only after a failed recovery, never GOING_TO_SLEEP. */
  ghost predicate Resting(r: Repo, w: World) {
    && !w.status.GoingToSleep?
    && (w.status.Online? ==> w.runtime.Some?)
    && (w.status.Waking? ==> w.runtime.Some? && FailedRecovery(r, KeyOf(w)))
  }

  ghost predicate Filed(r: Repo) {
    && (forall k :: k in r.worlds ==> KeyOf(r.worlds[k]) == k)
    && (forall id :: id in r.operations ==> r.operations[id].id == id)
  }

  /** The active index is exactly the scan for PENDING and RUNNING operations. */
  ghost predicate IndexExact(r: Repo) {
    && (forall k :: k in r.active ==> r.active[k] in r.operations && Live(r.operations[r.active[k]])
                                      && KeyFor(r.operations[r.active[k]]) == k)
    && (forall id :: id in r.operations && Live(r.operations[id]) ==>
          KeyFor(r.operations[id]) in r.active && r.active[KeyFor(r.operations[id])] == id)
  }

  ghost predicate Settled(r: Repo, k: WorldKey) {
    if k in r.active
    then r.active[k] in r.operations && k in r.worlds && Coupled(r.worlds[k], r.operations[r.active[k]])
    else k in r.worlds ==> Resting(r, r.worlds[k])
  }

  ghost predicate Consistent(r: Repo) { Filed(r) && IndexExact(r) && forall k :: Settled(r, k) }

  /** What the invariant says to a reader: one live operation at most, and the status tells which. */
  lemma StatusTellsOperation(r: Repo, k: WorldKey, a: Id, b: Id)
    requires Consistent(r) && k in r.worlds
    requires a in r.operations && KeyFor(r.operations[a]) == k && Live(r.operations[a])
    ensures b in r.operations && KeyFor(r.operations[b]) == k && Live(r.operations[b]) ==> b == a
    ensures r.worlds[k].status == if r.operations[a].kind.Sleep? then GoingToSleep else Waking
    ensures Ready(r.operations[a])
  {
    assert Settled(r, k);
  }

  lemma QuietStatuses(r: Repo, k: WorldKey)
    requires Consistent(r) && k in r.worlds
    ensures r.worlds[k].status in {Online, Sleeping, Attention, PendingDeletion} ==>
              forall id :: id in r.operations && KeyFor(r.operations[id]) == k ==> !Live(r.operations[id])
    ensures (r.worlds[k].status.Waking? && forall id :: id in r.operations && KeyFor(r.operations[id]) == k ==> !Live(r.operations[id]))
            ==> FailedRecovery(r, k)
  {
    assert Settled(r, k);
    if k in r.active {
      assert Live(r.operations[r.active[k]]);
    }
  }

  // ----- stale reads

  /** A record read earlier: gone, superseded by a later version, or still current. */
  ghost predicate SeenWorld(r: Repo, w: World) {
    KeyOf(w) in r.worlds ==> r.worlds[KeyOf(w)].version > w.version || r.worlds[KeyOf(w)] == w
  }
  ghost predicate SeenOperation(r: Repo, o: Operation) {
    o.id in r.operations ==> r.operations[o.id].version > o.version || r.operations[o.id] == o
  }

  // ----- the shapes of a commit

  /** Only World `k` and at most one of its operations differ. */
  ghost predicate Local(r: Repo, s: Repo, k: WorldKey, id: Id) {
    && s.worlds.Keys == r.worlds.Keys
    && (forall j :: j in r.worlds && j != k ==> s.worlds[j] == r.worlds[j])
    && (forall j :: j != k ==> (j in s.active <==> j in r.active) && (j in r.active ==> s.active[j] == r.active[j]))
    && (forall x :: x != id ==>
          (x in s.operations <==> x in r.operations) && (x in r.operations ==> s.operations[x] == r.operations[x]))
    && (id in r.operations ==> id in s.operations && KeyFor(r.operations[id]) == k)
    && (id in s.operations ==> KeyFor(s.operations[id]) == k && s.operations[id].id == id)
    && (k in s.worlds ==> KeyOf(s.worlds[k]) == k)
    && (id in r.operations && r.operations[id].kind.Recover? && r.operations[id].status.Failed? ==>
          s.operations[id].kind.Recover? && s.operations[id].status.Failed?)
  }

  lemma LocalKeepsFailures(r: Repo, s: Repo, k: WorldKey, id: Id, j: WorldKey)
    requires Local(r, s, k, id) && FailedRecovery(r, j)
    ensures FailedRecovery(s, j)
  {
    var x :| x in r.operations && KeyFor(r.operations[x]) == j && r.operations[x].kind.Recover? && r.operations[x].status.Failed?;
    assert x in s.operations && KeyFor(s.operations[x]) == j && s.operations[x].kind.Recover?
           && s.operations[x].status.Failed?;
  }

  lemma SettledElsewhere(r: Repo, s: Repo, k: WorldKey, id: Id, j: WorldKey)
    requires Consistent(r) && Local(r, s, k, id) && j != k
    ensures Settled(s, j)
  {
    assert Settled(r, j);
    if j in r.active {
      assert KeyFor(r.operations[r.active[j]]) == j;
    } else if j in r.worlds && FailedRecovery(r, j) {
      LocalKeepsFailures(r, s, k, id, j);
    }
  }

  ghost predicate IndexExactAt(s: Repo, k: WorldKey) {
    && (k in s.active ==> s.active[k] in s.operations && Live(s.operations[s.active[k]]) && KeyFor(s.operations[s.active[k]]) == k)
    && (forall x :: x in s.operations && KeyFor(s.operations[x]) == k && Live(s.operations[x]) ==> k in s.active && s.active[k] == x)
  }

  lemma LocalIndex(r: Repo, s: Repo, k: WorldKey, id: Id)
    requires Filed(r) && IndexExact(r) && Local(r, s, k, id) && IndexExactAt(s, k)
    ensures Filed(s) && IndexExact(s)
  {
    forall j | j in s.active && j != k
      ensures s.active[j] in s.operations && Live(s.operations[s.active[j]]) && KeyFor(s.operations[s.active[j]]) == j
    {
      assert KeyFor(r.operations[r.active[j]]) == j;
    }
  }

  lemma LocalConsistent(r: Repo, s: Repo, k: WorldKey, id: Id)
    requires Consistent(r) && Local(r, s, k, id) && IndexExactAt(s, k) && Settled(s, k)
    ensures Consistent(s)
  {
    hide Local, Settled, IndexExactAt, Filed, IndexExact;
    LocalIndex(r, s, k, id);
    forall j ensures Settled(s, j) {
      if j != k {
        SettledElsewhere(r, s, k, id, j);
      }
    }
  }

  /** begin_operation writes only when the World has no live operation and its version is as read. */
  lemma BeginWrites(r: Repo, after: World, o: Operation, expected: nat)
    requires IndexExact(r)
    ensures var (s, result) := Begin(r, after, o, expected);
            var k := KeyFor(o);
            s == r
            || (&& k !in r.active && k in r.worlds && r.worlds[k].version == expected
                && CommandKey(o.account, o.key) !in r.commands && result == Ok(o)
                && s == Begun(r, after, o))
  {
  }

  /** A new operation on a World that has no live one. */
  lemma BeginConsistent(r: Repo, after: World, o: Operation, expected: nat)
    requires Consistent(r) && Live(o) && KeyOf(after) == KeyFor(o) && o.id !in r.operations
    requires KeyFor(o) in r.worlds && r.worlds[KeyFor(o)].version == expected && KeyFor(o) !in r.active ==> Coupled(after, o)
    ensures Consistent(Begin(r, after, o, expected).0)
  {
    hide Begin, Coupled, Consistent;
    assert Filed(r) && IndexExact(r) by { Unfold(r); }
    BeginWrites(r, after, o, expected);
    var s, k := Begin(r, after, o, expected).0, KeyFor(o);
    if s != r {
      BegunParts(r, after, o);
      hide Local, IndexExactAt, Settled, Filed, IndexExact;
      LocalConsistent(r, s, k, o.id);
    }
  }

  function Begun(r: Repo, after: World, o: Operation): Repo {
    r.(worlds := r.worlds[KeyFor(o) := after], operations := r.operations[o.id := o],
       commands := r.commands[CommandKey(o.account, o.key) := o.id], active := r.active[KeyFor(o) := o.id])
  }

  lemma BegunParts(r: Repo, after: World, o: Operation)
    requires Filed(r) && IndexExact(r) && Live(o) && KeyOf(after) == KeyFor(o) && o.id !in r.operations
    requires KeyFor(o) in r.worlds && KeyFor(o) !in r.active && Coupled(after, o)
    ensures var s := Begun(r, after, o);
            Local(r, s, KeyFor(o), o.id) && IndexExactAt(s, KeyFor(o)) && Settled(s, KeyFor(o))
  {
    hide Coupled;
  }

  lemma Unfold(r: Repo)
    requires Consistent(r)
    ensures Filed(r) && IndexExact(r)
  {
  }

  /** An operation saved, with its World or alone, after both reads proved current. */
  lemma SaveConsistent(r: Repo, o: Operation, o': Operation, write: Option<WorldWrite>)
    requires Consistent(r) && o.id in r.operations && r.operations[o.id] == o
    requires o'.id == o.id && KeyFor(o') == KeyFor(o) && o'.kind == o.kind
    requires o.status.Failed? && o.kind.Recover? ==> o'.status.Failed?
    requires !Live(o) ==> !Live(o')
    requires var k := KeyFor(o); k in r.worlds
    requires write.Some? ==> KeyOf(write.value.after) == KeyFor(o) && r.worlds[KeyFor(o)].version == write.value.expected
    requires var w := if write.Some? then write.value.after else r.worlds[KeyFor(o)];
             if Live(o') then Coupled(w, o')
             else if Live(o) then
               !w.status.GoingToSleep? && (w.status.Online? ==> w.runtime.Some?)
               && (w.status.Waking? ==> w.runtime.Some? && o'.kind.Recover? && o'.status.Failed?)
             else w.status == r.worlds[KeyFor(o)].status && w.runtime == r.worlds[KeyFor(o)].runtime
    ensures Consistent(SaveOperation(r, o', o.version, write).0)
  {
    var s, k := SaveOperation(r, o', o.version, write).0, KeyFor(o);
    SavedLocally(r, o, o', write);
    SavedIndex(r, o, o', write);
    SavedSettled(r, o, o', write);
    hide Local, IndexExactAt, Settled, Coupled, Consistent;
    LocalConsistent(r, s, k, o.id);
  }

  /** What an accepted save does to the dictionaries. */
  lemma SavedFields(r: Repo, o: Operation, o': Operation, write: Option<WorldWrite>)
    requires Filed(r) && IndexExact(r) && o.id in r.operations && r.operations[o.id] == o
    requires o'.id == o.id && KeyFor(o') == KeyFor(o) && o'.kind == o.kind
    requires (o.status.Failed? && o.kind.Recover? ==> o'.status.Failed?) && (!Live(o) ==> !Live(o')) && KeyFor(o) in r.worlds
    requires write.Some? ==> KeyOf(write.value.after) == KeyFor(o) && r.worlds[KeyFor(o)].version == write.value.expected
    ensures var s, k := SaveOperation(r, o', o.version, write).0, KeyFor(o);
            && s.worlds == (if write.Some? then r.worlds[k := write.value.after] else r.worlds)
            && s.operations == r.operations[o.id := o']
            && s.active == (if !Live(o') && k in r.active && r.active[k] == o.id then r.active - {k} else r.active)
  {
    hide IndexExact, Filed;
  }

  lemma SavedLocally(r: Repo, o: Operation, o': Operation, write: Option<WorldWrite>)
    requires Filed(r) && IndexExact(r) && o.id in r.operations && r.operations[o.id] == o
    requires o'.id == o.id && KeyFor(o') == KeyFor(o) && o'.kind == o.kind
    requires (o.status.Failed? && o.kind.Recover? ==> o'.status.Failed?) && (!Live(o) ==> !Live(o')) && KeyFor(o) in r.worlds
    requires write.Some? ==> KeyOf(write.value.after) == KeyFor(o) && r.worlds[KeyFor(o)].version == write.value.expected
    ensures var s, k := SaveOperation(r, o', o.version, write).0, KeyFor(o);
            && Local(r, s, k, o.id)
            && o.id in s.operations && s.operations[o.id] == o' && k in s.worlds
            && s.worlds[k] == (if write.Some? then write.value.after else r.worlds[k])
  {
    SavedFields(r, o, o', write);
    hide SaveOperation, IndexExact;
    var s, k := SaveOperation(r, o', o.version, write).0, KeyFor(o);
    assert s.worlds.Keys == r.worlds.Keys && KeyOf(s.worlds[k]) == k;
    assert forall x :: x != o.id ==> (x in s.operations <==> x in r.operations);
  }

  lemma SavedIndex(r: Repo, o: Operation, o': Operation, write: Option<WorldWrite>)
    requires Filed(r) && IndexExact(r) && o.id in r.operations && r.operations[o.id] == o
    requires o'.id == o.id && KeyFor(o') == KeyFor(o) && o'.kind == o.kind
    requires (o.status.Failed? && o.kind.Recover? ==> o'.status.Failed?) && (!Live(o) ==> !Live(o')) && KeyFor(o) in r.worlds
    requires write.Some? ==> KeyOf(write.value.after) == KeyFor(o) && r.worlds[KeyFor(o)].version == write.value.expected
    ensures var s, k := SaveOperation(r, o', o.version, write).0, KeyFor(o);
            && IndexExactAt(s, k)
            && (Live(o') ==> k in s.active && s.active[k] == o.id)
            && (!Live(o') && Live(o) ==> k !in s.active)
            && (!Live(o) ==> s.active == r.active)
  {
    SavedFields(r, o, o', write);
    hide SaveOperation;
  }

  lemma SavedSettled(r: Repo, o: Operation, o': Operation, write: Option<WorldWrite>)
    requires Consistent(r) && o.id in r.operations && r.operations[o.id] == o
    requires o'.id == o.id && KeyFor(o') == KeyFor(o) && o'.kind == o.kind
    requires (o.status.Failed? && o.kind.Recover? ==> o'.status.Failed?) && (!Live(o) ==> !Live(o')) && KeyFor(o) in r.worlds
    requires write.Some? ==> KeyOf(write.value.after) == KeyFor(o) && r.worlds[KeyFor(o)].version == write.value.expected
    requires var w := if write.Some? then write.value.after else r.worlds[KeyFor(o)];
             if Live(o') then Coupled(w, o')
             else if Live(o) then
               !w.status.GoingToSleep? && (w.status.Online? ==> w.runtime.Some?)
               && (w.status.Waking? ==> w.runtime.Some? && o'.kind.Recover? && o'.status.Failed?)
             else w.status == r.worlds[KeyFor(o)].status && w.runtime == r.worlds[KeyFor(o)].runtime
    ensures Settled(SaveOperation(r, o', o.version, write).0, KeyFor(o))
  {
    var s, k := SaveOperation(r, o', o.version, write).0, KeyFor(o);
    assert Settled(r, k);
    SavedLocally(r, o, o', write);
    SavedIndex(r, o, o', write);
    assert KeyOf(s.worlds[k]) == k;
    hide Local, SaveOperation, IndexExactAt;
    if !Live(o) {
      if k in r.active {
        assert s.operations[r.active[k]] == r.operations[r.active[k]] by { ElsewhereSame(r, s, k, o.id, r.active[k]); }
      } else if FailedRecovery(r, k) {
        LocalKeepsFailures(r, s, k, o.id, k);
      }
    }
  }

  lemma ElsewhereSame(r: Repo, s: Repo, k: WorldKey, id: Id, x: Id)
    requires Local(r, s, k, id) && x != id && x in r.operations
    ensures x in s.operations && s.operations[x] == r.operations[x]
  {
  }

  /** A World saved alone: the status stays, or moves between statuses that have no live operation. */
  lemma TouchConsistent(r: Repo, w: World, after: World, s: Repo)
    requires Consistent(r) && KeyOf(w) in r.worlds && r.worlds[KeyOf(w)] == w && KeyOf(after) == KeyOf(w)
    requires after.runtime == w.runtime
    requires after.status == w.status
             || (w.status in {Sleeping, PendingDeletion} && after.status in {Sleeping, PendingDeletion})
    requires s.worlds == r.worlds[KeyOf(w) := after] && s.operations == r.operations && s.active == r.active
    ensures Consistent(s)
  {
    var k := KeyOf(w);
    assert Settled(r, k);
    forall j ensures Settled(s, j) {
      assert Settled(r, j);
      if j in r.worlds && FailedRecovery(r, j) {
        var x :| x in r.operations && KeyFor(r.operations[x]) == j && r.operations[x].kind.Recover? && r.operations[x].status.Failed?;
        assert x in s.operations;
      }
    }
  }

  lemma DeleteConsistent(r: Repo, k: WorldKey)
    requires Consistent(r)
    ensures Consistent(Delete(r, k).0)
  {
    var s := Delete(r, k).0;
    if k in r.worlds {
      forall j ensures Settled(s, j) {
        assert Settled(r, j);
        if j != k && j in r.worlds && FailedRecovery(r, j) {
          var x :| x in r.operations && KeyFor(r.operations[x]) == j && r.operations[x].kind.Recover? && r.operations[x].status.Failed?;
          assert x in s.operations && s.operations[x] == r.operations[x];
        }
      }
    }
  }
}
