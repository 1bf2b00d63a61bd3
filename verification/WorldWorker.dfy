/** The worker that carries operations through their phases: external effects, any of which may raise, then
    one commit, before which other clients may write. */
module WorldWorker {
  import opened Base
  import opened WorldModel
  import opened WorldPlans
  import opened WorldLaws
  import opened WorldProtocol
  import opened RecoveryWindow
  import opened Rivals

  /** What the caller of a plan about operation `o` gets back. */
  function Reply(r: Repo, o: Operation, p: Plan): Result<Operation> {
    match p
    case SaveOp(saved, expected, write) => SaveOperation(r, saved, expected, write).1
    case Stop(error) => Err(error)
    case _ => Ok(o)
  }

  predicate OfSession(x: Effect) { x.CloseSession? || x.CancelSession? }

  /** The effects of a worker with or without a usage recorder: sessions are always told last. */
  function Told(recorder: bool, effects: seq<Effect>): seq<Effect> {
    if !recorder && |effects| > 0 && OfSession(effects[|effects| - 1]) then effects[..|effects| - 1] else effects
  }

  /** What surrounds one advance: the answers of the outside, how many effects succeed before something
      raises, if anything does, and what other clients write before the commit. */
  datatype Surroundings = Surroundings(answers: Outside, raises: Option<nat>, rivals: seq<Plan>)

  /** The advance raises between its effects and its commit: something outside does, or a sleep has no
      backup store to call. */
  predicate Breaks(o: Operation, effects: seq<Effect>, raises: Option<nat>, backups: bool) {
    (raises.Some? && raises.value <= |effects|) || (!backups && o.kind.Sleep? && o.phase.CreatingBackup?)
  }

  /** How many effects came first. */
  function Before(o: Operation, effects: seq<Effect>, raises: Option<nat>, backups: bool): nat
    requires Breaks(o, effects, raises, backups)
    ensures Before(o, effects, raises, backups) <= |effects|
  {
    if !backups && o.kind.Sleep? && o.phase.CreatingBackup? then 0 else raises.value
  }

  /** What one advance that read `o` and `w` leaves: the plan's write on what rivals had made of the
      repository, after all its effects; or, broken, the effects before the break and no write. */
  ghost predicate Advanced(before: Repo, o: Operation, w: World, s: Surroundings, recorder: bool, backups: bool,
                           after: Repo, more: seq<Effect>, r: Result<Operation>) {
    var p, effects := PlanAdvance(o, w, s.answers), Told(recorder, AdvanceEffects(o, w, s.answers));
    if !p.SaveOp? then after == before && more == [] && r == Reply(before, o, p)
    else if Breaks(o, effects, s.raises, backups) then
      after == before && more == effects[..Before(o, effects, s.raises, backups)] && r == Err(Outage)
    else
      var mid := ApplyAll(before, s.rivals);
      after == Apply(mid, p) && more == effects && r == Reply(mid, o, p)
  }

  class WorldOperationWorker {
    const repository: WorldRepository
    /** Whether a usage recorder and a backup store are configured. */
    const recorder: bool
    const backups: bool
    /** Every effect performed, with its answer. */
    ghost var trace: seq<Effect>

    constructor (repository: WorldRepository, recorder: bool, backups: bool)
      ensures this.repository == repository && this.recorder == recorder && this.backups == backups && trace == []
    {
      this.repository, this.recorder, this.backups := repository, recorder, backups;
      trace := [];
    }

    method Advance(account: Id, id: Id, s: Surroundings) returns (r: Result<Operation>)
      modifies this`trace, repository
      ensures old(trace) <= trace
      ensures var before := old(repository.View());
              if id !in before.operations || before.operations[id].account != account then
                r == Err(Missing) && repository.View() == before && trace == old(trace)
              else
                var o := before.operations[id];
                if !Live(o) then r == Ok(o) && repository.View() == before && trace == old(trace)
                else if KeyFor(o) !in before.worlds then
                  r == Err(Missing) && repository.View() == before && trace == old(trace)
                else
                  Advanced(before, o, before.worlds[KeyFor(o)], s, recorder, backups, repository.View(), trace[|old(trace)|..], r)
    {
      var found := repository.GetOperation(account, id);
      if found.Err? {
        return found;
      }
      var o := found.value;
      if !Live(o) {
        return Ok(o);
      }
      var got := repository.Get(WorldKey(account, o.world));
      if got.Err? {
        return Err(Missing);
      }
      var w := got.value;
      match o.kind
      case Sleep => r := AdvanceSleep(o, w, s);
      case Recover => r := AdvanceRecovery(o, w, s);
      case Wake => r := AdvanceWake(o, w, s);
    }

    /** The effects of one step, one after the other, until one raises. */
    method Perform(o: Operation, effects: seq<Effect>, raises: Option<nat>) returns (broken: bool)
      modifies this`trace
      ensures var told := Told(recorder, effects);
              && broken == (raises.Some? && raises.value <= |told|)
              && trace == old(trace) + if broken then told[..raises.value] else told
    {
      var told := Told(recorder, effects);
      var n := 0;
      while n < |told| && raises != Some(n)
        invariant 0 <= n <= |told| && trace == old(trace) + told[..n]
        invariant raises.Some? ==> n <= raises.value || raises.value < 0
      {
        assert told[..n + 1] == told[..n] + [told[n]];
        trace := trace + [told[n]];
        n := n + 1;
      }
      broken := raises == Some(n);
      assert told[..|told|] == told;
    }

    /** The commit of a step, after rivals. */
    method Save(o: Operation, expected: nat, write: Option<WorldWrite>, rivals: seq<Plan>)
      returns (r: Result<Operation>)
      modifies repository
      ensures var mid := ApplyAll(old(repository.View()), rivals);
              repository.View() == Apply(mid, SaveOp(o, expected, write)) && r == SaveOperation(mid, o, expected, write).1
    {
      Meanwhile(repository, rivals);
      r := repository.SaveOp(o, expected, write);
    }

    method MoveToPhase(o: Operation, phase: Phase, rivals: seq<Plan>) returns (r: Result<Operation>)
      modifies repository
      ensures var mid := ApplyAll(old(repository.View()), rivals);
              repository.View() == Apply(mid, Move(o, phase)) && r == Reply(mid, o, Move(o, phase))
    {
      r := Save(o.(status := Running, phase := phase, version := o.version + 1), o.version, None, rivals);
    }

    /** The write of a wake step. */
    method CommitWake(o: Operation, w: World, e: Outside, rivals: seq<Plan>) returns (r: Result<Operation>)
      requires PlanWakeStep(o, w, e).SaveOp?
      modifies repository
      ensures var mid := ApplyAll(old(repository.View()), rivals);
              repository.View() == Apply(mid, PlanWakeStep(o, w, e)) && r == Reply(mid, o, PlanWakeStep(o, w, e))
    {
      hide ApplyAll, Apply, SaveOperation;
      if o.phase.Requested? {
        r := MoveToPhase(o, ProvisioningRuntime, rivals);
      } else if o.phase.ProvisioningRuntime? {
        r := Save(
          o.(phase := RestoringWorld, runtime := Some(e.runtime), startedAt := Some(e.now), version := o.version + 1), o.version,
          Some(WorldWrite(w.(runtime := Some(e.runtime), startedAt := Some(e.now), version := w.version + 1), w.version)), rivals);
      } else if o.phase.RestoringWorld? {
        r := MoveToPhase(o, ApplyingConfiguration, rivals);
      } else if o.phase.ApplyingConfiguration? {
        if w.pendingConfiguration.Some? {
          r := Save(
            o.(status := Running, phase := StartingGame, version := o.version + 1), o.version,
            Some(WorldWrite(w.(configuration := w.pendingConfiguration.value, pendingConfiguration := None,
                               version := w.version + 1), w.version)), rivals);
        } else {
          r := MoveToPhase(o, StartingGame, rivals);
        }
      } else if o.phase.StartingGame? {
        r := MoveToPhase(o, CheckingGameHealth, rivals);
      } else if o.phase.CheckingGameHealth? {
        if !e.healthy {
          r := MoveToPhase(o, StoppingGame, rivals);
        } else {
          r := Save(
            o.(status := Succeeded, phase := Complete, version := o.version + 1), o.version,
            Some(WorldWrite(w.(status := Online, emptySince := None, version := w.version + 1), w.version)), rivals);
        }
      } else if o.phase.StoppingGame? {
        r := MoveToPhase(o, ReleasingRuntime, rivals);
      } else {
        r := Save(
          o.(status := NeedsAttention, phase := Complete, version := o.version + 1), o.version,
          Some(WorldWrite(Cleared(w).(status := Attention, version := w.version + 1), w.version)), rivals);
      }
    }

    method AdvanceWake(o: Operation, w: World, s: Surroundings) returns (r: Result<Operation>)
      requires Live(o) && o.kind.Wake?
      modifies this`trace, repository
      ensures old(trace) <= trace
      ensures Advanced(old(repository.View()), o, w, s, recorder, backups, repository.View(), trace[|old(trace)|..], r)
    {
      hide ApplyAll, Apply, SaveOperation;
      var e := s.answers;
      if o.runtime.None? && !o.phase.Requested? && !o.phase.ProvisioningRuntime? {
        return Err(NoRuntime);
      }
      if o.phase in {CheckingPlayers, SavingGame, PersistingWorld, CreatingBackup, Complete} {
        return Err(Unsupported);
      }
      var effects := AdvanceEffects(o, w, e);
      var broken := Perform(o, effects, s.raises);
      if broken {
        return Err(Outage);
      }
      r := CommitWake(o, w, e, s.rivals);
    }

    /** The write of a sleep step. */
    method CommitSleep(o: Operation, w: World, e: Outside, rivals: seq<Plan>) returns (r: Result<Operation>)
      requires PlanSleepStep(o, w, e).SaveOp?
      modifies repository
      ensures var mid := ApplyAll(old(repository.View()), rivals);
              repository.View() == Apply(mid, PlanSleepStep(o, w, e)) && r == Reply(mid, o, PlanSleepStep(o, w, e))
    {
      hide ApplyAll, Apply, SaveOperation;
      if o.phase.Requested? {
        r := MoveToPhase(o, CheckingPlayers, rivals);
      } else if o.phase.CheckingPlayers? {
        if e.players > 0 && !o.force {
          r := Save(
            o.(status := Cancelled, phase := Complete, version := o.version + 1), o.version,
            Some(WorldWrite(w.(status := Online, emptySince := None, version := w.version + 1), w.version)), rivals);
        } else {
          r := MoveToPhase(o, SavingGame, rivals);
        }
      } else if o.phase.SavingGame? {
        r := MoveToPhase(o, StoppingGame, rivals);
      } else if o.phase.StoppingGame? {
        r := MoveToPhase(o, PersistingWorld, rivals);
      } else if o.phase.PersistingWorld? {
        if !e.validated {
          r := Save(o.(status := NeedsAttention, version := o.version + 1), o.version,
                    Some(WorldWrite(w.(status := Attention, version := w.version + 1), w.version)), rivals);
        } else {
          r := Save(o.(phase := CreatingBackup, stored := Some(e.stored), version := o.version + 1), o.version, None, rivals);
        }
      } else if o.phase.CreatingBackup? {
        r := Save(o.(phase := ReleasingRuntime, backup := Some(e.backup), version := o.version + 1), o.version, None, rivals);
      } else {
        r := Save(
          o.(status := Succeeded, phase := Complete, version := o.version + 1), o.version,
          Some(WorldWrite(Cleared(w).(status := Sleeping, stored := o.stored, emptySince := None, version := w.version + 1),
                          w.version)), rivals);
      }
    }

    method AdvanceSleep(o: Operation, w: World, s: Surroundings) returns (r: Result<Operation>)
      requires Live(o) && o.kind.Sleep?
      modifies this`trace, repository
      ensures old(trace) <= trace
      ensures Advanced(old(repository.View()), o, w, s, recorder, backups, repository.View(), trace[|old(trace)|..], r)
    {
      hide ApplyAll, Apply, SaveOperation;
      var e := s.answers;
      if o.runtime.None? {
        return Err(NoRuntime);
      }
      if o.phase.CreatingBackup? && o.stored.None? {
        return Err(NoState);
      }
      if o.phase !in {Requested, CheckingPlayers, SavingGame, StoppingGame, PersistingWorld, CreatingBackup, ReleasingRuntime} {
        return Err(Unsupported);
      }
      if o.phase.CreatingBackup? && !backups {
        return Err(Outage);
      }
      var effects := AdvanceEffects(o, w, e);
      var broken := Perform(o, effects, s.raises);
      if broken {
        return Err(Outage);
      }
      r := CommitSleep(o, w, e, s.rivals);
    }

    method AdvanceRecovery(o: Operation, w: World, s: Surroundings) returns (r: Result<Operation>)
      requires Live(o) && o.kind.Recover?
      modifies this`trace, repository
      ensures old(trace) <= trace
      ensures Advanced(old(repository.View()), o, w, s, recorder, backups, repository.View(), trace[|old(trace)|..], r)
    {
      hide ApplyAll, Apply;
      var e, rivals := s.answers, s.rivals;
      if o.runtime.None? {
        return Err(NoRuntime);
      }
      if o.phase !in {Requested, StartingGame, CheckingGameHealth} {
        return Err(Unsupported);
      }
      var effects := AdvanceEffects(o, w, e);
      var broken := Perform(o, effects, s.raises);
      if broken {
        return Err(Outage);
      }
      if o.phase.Requested? {
        r := MoveToPhase(o, StartingGame, rivals);
      } else if o.phase.StartingGame? {
        r := MoveToPhase(o, CheckingGameHealth, rivals);
      } else {
        var exhausted := o.attempt >= RECOVERY_LIMIT;
        var status, shown := Failed, Waking;
        if e.healthy {
          status, shown := Succeeded, Online;
        } else if exhausted {
          status, shown := NeedsAttention, Attention;
        }
        r := Save(o.(status := status, phase := Complete, version := o.version + 1), o.version,
                  Some(WorldWrite(w.(status := shown, version := w.version + 1), w.version)), rivals);
      }
    }

    /** Giving up: the cleanup effects, until one raises; then the write. */
    method MarkNeedsAttention(account: Id, id: Id, raises: Option<nat>) returns (r: Result<Operation>)
      modifies this`trace, repository
      ensures var before := old(repository.View());
              if id !in before.operations || before.operations[id].account != account then
                r == Err(Missing) && repository.View() == before && trace == old(trace)
              else
                var o := before.operations[id];
                if !Live(o) then r == Ok(o) && repository.View() == before && trace == old(trace)
                else if KeyFor(o) !in before.worlds then
                  r == Err(Missing) && repository.View() == before && trace == old(trace)
                else
                  var p, effects := PlanAttention(o, before.worlds[KeyFor(o)]), Told(recorder, AttentionEffects(o));
                  if raises.Some? && raises.value <= |effects| then
                    r == Err(Outage) && repository.View() == before && trace == old(trace) + effects[..raises.value]
                  else r == Reply(before, o, p) && repository.View() == Apply(before, p) && trace == old(trace) + effects
    {
      var found := repository.GetOperation(account, id);
      if found.Err? {
        return found;
      }
      var o := found.value;
      if !Live(o) {
        return Ok(o);
      }
      var got := repository.Get(WorldKey(account, o.world));
      if got.Err? {
        return Err(Missing);
      }
      var w := got.value;
      var effects: seq<Effect> := [];
      if o.kind.Wake? {
        effects := if o.runtime.Some? then [ReleaseRuntime(o.runtime.value), CloseSession(false)] else [CancelSession];
      }
      var broken := Perform(o, effects, raises);
      if broken {
        return Err(Outage);
      }
      var shown := if o.kind.Wake? then Cleared(w) else w;
      r := repository.SaveOp(o.(status := NeedsAttention, version := o.version + 1), o.version,
                             Some(WorldWrite(shown.(status := Attention, version := w.version + 1), w.version)));
    }

    /** run_to_completion among other clients, who write between its rounds and within them, and with effects
        that may raise. It returns a finished operation, or raises in a round that wrote nothing; within as
        many rounds as the operation's rank, and with the repository consistent throughout. */
    method RunToCompletion(account: Id, id: Id, outside: nat -> (Outside, Option<nat>),
                           rivals: (nat, Repo) -> seq<Plan>)
      returns (r: Result<Operation>, rounds: nat)
      requires Consistent(repository.View())
      requires id in repository.operations && repository.operations[id].account == account
      requires forall n, v :: Consistent(v) ==> Harmless(v, ApplyAll(v, rivals(n, v)), id)
      modifies this`trace, repository
      ensures Consistent(repository.View())
      ensures rounds <= Rank(old(repository.operations[id]))
      ensures r.Ok? ==> !Live(r.value) && id in repository.operations && r.value == repository.operations[id]
      ensures r.Err? ==> r.error in {Missing, Conflict, Outage}
    {
      hide Consistent, Rank, ApplyAll, Continues, Progress;
      rounds := 0;
      ghost var rank := Rank(repository.operations[id]);
      while true
        invariant Consistent(repository.View())
        invariant id in repository.operations ==> repository.operations[id].account == account
        invariant id in repository.operations ==> rounds + Rank(repository.operations[id]) <= rank
        invariant rounds <= rank
        decreases rank - rounds
      {
        ghost var start := repository.View();
        Meanwhile(repository, rivals(2 * rounds, repository.View()));
        if id in repository.operations {
          ContinuesRank(start.operations[id], repository.operations[id]);
        }
        var found := repository.GetOperation(account, id);
        if found.Err? || !Live(found.value) {
          return found, rounds;
        }
        var before := repository.View();
        var during := rivals(2 * rounds + 1, before);
        RankIsPositive(found.value);
        var advanced := Advance(account, id, Surroundings(outside(rounds).0, outside(rounds).1, during));
        RoundKeeps(before, id, outside(rounds).0, ApplyAll(before, during));
        if advanced.Err? {
          return advanced, rounds;
        }
        rounds := rounds + 1;
      }
    }

    method MonitorSession(account: Id, world: Id, now: Time, idle: Option<int>, players: nat, guardSleeps: bool,
                          id: Id, minute: string)
      returns (r: Result<Option<Operation>>)
      modifies repository
      ensures var before, k := old(repository.View()), WorldKey(account, world);
              if k !in before.worlds then r == Err(Missing) && repository.View() == before
              else
                var p := PlanMonitor(before.worlds[k], now, idle, players, guardSleeps, id, minute);
                && repository.View() == Apply(before, p)
                && (p.Done? ==> r == Ok(None))
                && (p.Stop? ==> r == Err(p.error))
                && (p.Touch? ==>
                      var saved := SaveWorld(before, p.touched, p.expectedWorld).1;
                      r == if saved.Ok? then Ok(None) else Err(saved.error))
                && (p.BeginOp? ==>
                      var began := Begin(before, p.after, p.operation, p.expected).1;
                      r == if began.Ok? then Ok(Some(began.value)) else Err(began.error))
    {
      hide Begin, SaveWorld;
      var k := WorldKey(account, world);
      var got := repository.Get(k);
      if got.Err? {
        return Err(Missing);
      }
      var w := got.value;
      var limit := if idle.None? then w.autoSleep else idle;
      if limit.Some? && limit.value <= 0 {
        return Err(Invalid);
      }
      if !w.status.Online? {
        return Ok(None);
      }
      if w.runtime.None? {
        return Err(NoRuntime);
      }
      var empty: Option<Time> := None;
      if players == 0 {
        empty := if w.emptySince.Some? then w.emptySince else Some(now);
      }
      var idleSleeps := limit.Some? && empty.Some? && now - empty.value >= limit.value * MINUTE;
      if !guardSleeps && !idleSleeps {
        if empty != w.emptySince {
          var saved := repository.Save(w.(emptySince := empty, version := w.version + 1), w.version);
          if saved.Err? {
            return Err(saved.error);
          }
        }
        return Ok(None);
      }
      var key := "monitor:" + w.id + ":" + (if guardSleeps then "balance" else "idle") + ":" + minute;
      var began := repository.BeginOperation(
        w.(status := GoingToSleep, emptySince := empty, version := w.version + 1),
        SleepOperation(w, id, key, now, guardSleeps), w.version);
      r := if began.Ok? then Ok(Some(began.value)) else Err(began.error);
    }
  }

  /** What other clients may do meanwhile: keep the invariant, move versions forward, and continue the operation. */
  ghost predicate Harmless(r: Repo, s: Repo, id: Id) {
    && Consistent(s) && Progress(r, s)
    && (id in s.operations ==> id in r.operations && Continues(r.operations[id], s.operations[id]))
  }

  lemma RankIsPositive(o: Operation)
    requires Live(o)
    ensures Rank(o) > 0
  {
  }

  lemma ContinuesRank(o: Operation, o': Operation)
    requires Continues(o, o')
    ensures Rank(o') <= Rank(o) && o'.account == o.account
  {
  }

  /** A round that read current records and wrote after others did: it commits and lowers the rank, or its save
      is refused and changes nothing. */
  lemma RoundKeeps(r: Repo, id: Id, e: Outside, mid: Repo)
    requires Consistent(r) && id in r.operations && Live(r.operations[id]) && Harmless(r, mid, id)
    ensures var o := r.operations[id];
            && KeyFor(o) in r.worlds
            && var p := PlanAdvance(o, r.worlds[KeyFor(o)], e);
               && p.SaveOp? && Consistent(Apply(mid, p)) && Consistent(mid)
               && (Reply(mid, o, p).Err? ==> Apply(mid, p) == mid && Reply(mid, o, p).error in {Missing, Conflict})
               && (Reply(mid, o, p).Ok? ==>
                     && id in Apply(mid, p).operations && Apply(mid, p).operations[id].account == o.account
                     && Rank(Apply(mid, p).operations[id]) < Rank(o))
  {
    hide Consistent, PlanAdvance, Rank, Continues, Progress;
    var o := r.operations[id];
    OneAdvance(r, id, e);
    ReadsAreSeen(r, mid, id);
    LateActs(mid, o, r.worlds[KeyFor(o)], e);
    assert PlanAdvance(o, r.worlds[KeyFor(o)], e).saved.id == id by { SavesItself(o, r.worlds[KeyFor(o)], e); }
  }

  lemma SavesItself(o: Operation, w: World, e: Outside)
    requires PlanAdvance(o, w, e).SaveOp?
    ensures PlanAdvance(o, w, e).saved.id == o.id
  {
  }

  lemma ReadsAreSeen(r: Repo, mid: Repo, id: Id)
    requires Consistent(r) && Consistent(mid) && Progress(r, mid)
    requires id in r.operations && KeyFor(r.operations[id]) in r.worlds
    ensures r.operations[id].id == id
    ensures var o := r.operations[id];
            SeenOperation(mid, o) && SeenWorld(mid, r.worlds[KeyFor(o)]) && KeyOf(r.worlds[KeyFor(o)]) == KeyFor(o)
  {
    assert Filed(r) && Filed(mid);
    hide IndexExact, Settled;
  }

  lemma LateActs(mid: Repo, o: Operation, w: World, e: Outside)
    requires Consistent(mid) && SeenOperation(mid, o) && SeenWorld(mid, w) && KeyOf(w) == KeyFor(o)
    ensures Consistent(Apply(mid, PlanAdvance(o, w, e)))
  {
    hide Consistent, PlanAdvance;
    OperationActs(mid, o, w, Advance(e));
    assert PlanFor(Memory(Some(o), Some(w), None), Advance(e)) == PlanAdvance(o, w, e);
    KeptIsConsistent(mid, Apply(mid, PlanAdvance(o, w, e)));
  }

  /** One advance by a worker whose reads are current succeeds, lowers the rank and keeps the invariant. */
  lemma OneAdvance(r: Repo, id: Id, e: Outside)
    requires Consistent(r) && id in r.operations && Live(r.operations[id])
    ensures var o := r.operations[id];
            && KeyFor(o) in r.worlds
            && var p := PlanAdvance(o, r.worlds[KeyFor(o)], e);
               && p.SaveOp? && Reply(r, o, p) == Ok(p.saved)
               && Consistent(Apply(r, p))
               && id in Apply(r, p).operations && Apply(r, p).operations[id] == p.saved
               && p.saved.account == o.account && Rank(p.saved) < Rank(o)
  {
    hide Consistent, Coupled, PlanAdvance, Rank, LegalPlan, Kept;
    var o := r.operations[id];
    assert Filed(r) by { Unfold(r); }
    LiveIsCoupled(r, o);
    var w := r.worlds[KeyFor(o)];
    AdvanceLegal(o, w, w, e);
    var p := PlanAdvance(o, w, e);
    LegalPlanKeeps(r, o, w, p);
    KeptIsConsistent(r, Apply(r, p));
    LegalCommits(r, o, p);
  }

  lemma KeptIsConsistent(r: Repo, s: Repo)
    requires Kept(r, s, None)
    ensures Consistent(s)
  {
  }

  lemma LegalCommits(r: Repo, o: Operation, p: Plan)
    requires o.id in r.operations && r.operations[o.id] == o && KeyFor(o) in r.worlds
    requires KeyOf(r.worlds[KeyFor(o)]) == KeyFor(o) && LegalPlan(o, r.worlds[KeyFor(o)], r.worlds[KeyFor(o)], p)
    ensures p.SaveOp? && Reply(r, o, p) == Ok(p.saved) && o.id in Apply(r, p).operations
    ensures Apply(r, p).operations[o.id] == p.saved && p.saved.account == o.account
  {
    hide Coupled;
  }

  /** The bounds of run_to_completion: eight advances for a wake, seven for a sleep, three for a recovery. */
  lemma RankBounds(o: Operation)
    ensures Rank(o) <= match o.kind case Wake => 8 case Sleep => 7 case Recover => 3
    ensures Rank(o) == 0 <==> !Live(o)
  {
  }
}
