/** Automatic recovery stays within three attempts in any fifteen minutes, and finished operations stay
    finished, over any interleaving of the clients of the repository. */
module RecoveryWindow {
  import opened Base
  import opened WorldModel
  import opened WorldPlans
  import opened WorldLaws
  import opened WorldProtocol

  /** What no commit changes about an operation: who it is, when it began, and how it ended. */
  predicate Continues(o: Operation, o': Operation) {
    && o'.id == o.id && KeyFor(o') == KeyFor(o) && o'.kind == o.kind && o'.createdAt == o.createdAt
    && o'.attempt == o.attempt && o'.key == o.key
    && (!Live(o) ==> o'.status == o.status && o'.phase == o.phase)
    && (Live(o) ==> Rank(o') < Rank(o) || (o'.status == o.status && o'.phase == o.phase))
  }

  /** A save a client asks for continues the operation it read. */
  lemma SavesContinue(m: Memory, i: Intent)
    requires PlanFor(m, i).SaveOp?
    ensures m.operation.Some? && PlanFor(m, i).expectedOp == m.operation.value.version
    ensures Supported(m.operation.value) || !i.Advance? ==>
              Continues(m.operation.value, PlanFor(m, i).saved)
  {
    hide EmptySince, IdleElapsed, Propose;
    var o, w := m.operation.value, m.world.value;
    if i.Advance? {
      match o.kind
      case Wake => assert PlanFor(m, i) == PlanWakeStep(o, w, i.outside);
      case Sleep => assert PlanFor(m, i) == PlanSleepStep(o, w, i.outside);
      case Recover => assert PlanFor(m, i) == PlanRecoveryStep(o, w, i.outside);
    }
  }

  /** One action on the operations: each that stays continues, and at most one is new. */
  ghost predicate Advances(r: Repo, s: Repo, p: Plan) {
    && (forall id :: id in r.operations && id in s.operations ==> Continues(r.operations[id], s.operations[id]))
    && (forall id :: id in s.operations && id !in r.operations ==>
          p.BeginOp? && id == p.operation.id && s.operations[id] == p.operation && r != s)
    && (r.operations.Keys <= s.operations.Keys || p.Remove?)
  }

  lemma SaveAdvances(r: Repo, m: Memory, i: Intent)
    requires Consistent(r) && m.operation.Some? && SeenOperation(r, m.operation.value)
    requires PlanFor(m, i).SaveOp?
    ensures Advances(r, Apply(r, PlanFor(m, i)), PlanFor(m, i))
  {
    hide Consistent, PlanFor, Continues;
    var p, o := PlanFor(m, i), m.operation.value;
    assert Filed(r) by { Unfold(r); }
    forall x ensures Continues(x, x) { StillContinues(x); }
    if Apply(r, p) != r {
      SaveTouches(m, i);
      SavesContinue(m, i);
      assert r.operations[o.id] == o;
      if i.Advance? {
        OnlyLiveAdvance(m, i);
        LiveIsCoupled(r, o);
        assert Supported(o);
      }
    }
  }

  lemma StillContinues(o: Operation)
    ensures Continues(o, o)
  {
  }

  lemma SaveTouches(m: Memory, i: Intent)
    requires PlanFor(m, i).SaveOp?
    ensures m.operation.Some? && PlanFor(m, i).saved.id == m.operation.value.id
    ensures PlanFor(m, i).expectedOp == m.operation.value.version
  {
    hide EmptySince, IdleElapsed, Propose;
  }

  lemma OnlyLiveAdvance(m: Memory, i: Intent)
    requires PlanFor(m, i).SaveOp? && i.Advance?
    ensures Live(m.operation.value)
  {
  }

  lemma ActAdvances(r: Repo, used: set<Id>, m: Memory, i: Intent)
    requires Consistent(r) && MemoryCoherent(r, used, m)
    requires NewId(i).Some? ==> NewId(i).value !in r.operations
    ensures Advances(r, Apply(r, PlanFor(m, i)), PlanFor(m, i))
  {
    hide Consistent, PlanFor, Continues, Apply, Filed, IndexExact;
    forall x ensures Continues(x, x) { StillContinues(x); }
    var p := PlanFor(m, i);
    if p.SaveOp? {
      SaveTouches(m, i);
      SaveAdvances(r, m, i);
    } else {
      if p.BeginOp? {
        BeginsItself(m, i);
      }
      Unfold(r);
      AppliesOnce(r, p);
    }
  }

  lemma BeginsItself(m: Memory, i: Intent)
    requires PlanFor(m, i).BeginOp?
    ensures NewId(i) == Some(PlanFor(m, i).operation.id) && m.world.Some?
    ensures KeyFor(PlanFor(m, i).operation) == KeyOf(m.world.value) && PlanFor(m, i).expected == m.world.value.version
    ensures var o := PlanFor(m, i).operation;
            (o.kind.Recover? <==> i.AskRecovery?)
            && (o.kind.Recover? ==> m.listed.Some? && o.createdAt == i.detectedAt
                                    && |Recent(m.listed.value, i.detectedAt)| < RECOVERY_LIMIT
                                    && o.attempt == |Recent(m.listed.value, i.detectedAt)| + 1)
  {
    hide Recent, EmptySince, IdleElapsed, Propose;
  }

  // ----- the window

  /** The recoveries created in the closed interval of fifteen minutes that starts at `t`. */
  function Within(listed: map<Id, Time>, t: Time): set<Id> {
    set id | id in listed && t <= listed[id] <= t + RECOVERY_WINDOW
  }

  ghost predicate Limited(r: Repo) {
    && (forall k, t :: |Within(Recoveries(r, k), t)| <= RECOVERY_LIMIT)
    && (forall id :: id in r.operations && r.operations[id].kind.Recover? ==> 1 <= r.operations[id].attempt <= RECOVERY_LIMIT)
  }

  lemma Fewer<T>(a: set<T>, b: set<T>)
    requires a <= b
    ensures |a| <= |b|
  {
    if a != b {
      assert |b| == |a| + |b - a| by { assert a + (b - a) == b; }
    }
  }

  /** One more recovery keeps every window within the limit, wherever its detection time falls. */
  lemma OneMore(listed: map<Id, Time>, id: Id, at: Time, more: map<Id, Time>, t: Time)
    requires forall x :: x in more ==> (x in listed && more[x] == listed[x]) || (x == id && more[x] == at)
    requires |Within(listed, t)| <= RECOVERY_LIMIT && |Recent(listed, at)| < RECOVERY_LIMIT
    ensures |Within(more, t)| <= RECOVERY_LIMIT
  {
    if t <= at <= t + RECOVERY_WINDOW {
      assert Within(more, t) <= Recent(listed, at) + {id};
      Fewer(Within(more, t), Recent(listed, at) + {id});
    } else {
      assert Within(more, t) <= Within(listed, t);
      Fewer(Within(more, t), Within(listed, t));
    }
  }

  lemma NoMore(listed: map<Id, Time>, fewer: map<Id, Time>, t: Time)
    requires forall x :: x in fewer ==> x in listed && fewer[x] == listed[x]
    ensures |Within(fewer, t)| <= |Within(listed, t)|
  {
    assert Within(fewer, t) <= Within(listed, t);
    Fewer(Within(fewer, t), Within(listed, t));
  }

  /** A recovery is only begun from a list that was still complete when it was written. */
  lemma ListedIsCurrent(r: Repo, used: set<Id>, m: Memory, i: Intent)
    requires Consistent(r) && MemoryCoherent(r, used, m) && PlanFor(m, i).BeginOp?
    requires PlanFor(m, i).operation.kind.Recover?
    requires Apply(r, PlanFor(m, i)) != r
    ensures m.listed.Some? && m.listed.value == Recoveries(r, KeyOf(m.world.value))
  {
    hide Consistent, PlanFor, Begin, Recoveries;
    var p := PlanFor(m, i);
    BeginsItself(m, i);
    assert Filed(r) && IndexExact(r) by { Unfold(r); }
    BeginWrites(r, p.after, p.operation, p.expected);
    assert r.worlds[KeyOf(m.world.value)] == m.world.value;
  }

  lemma ActLimited(r: Repo, used: set<Id>, m: Memory, i: Intent)
    requires Consistent(r) && MemoryCoherent(r, used, m) && Limited(r)
    requires NewId(i).Some? ==> NewId(i).value !in r.operations
    ensures Limited(Apply(r, PlanFor(m, i)))
  {
    hide Consistent, PlanFor, Apply, Within, Recent, MemoryCoherent;
    var p := PlanFor(m, i);
    var s := Apply(r, p);
    ActAdvances(r, used, m, i);
    var grows := p.BeginOp? && p.operation.kind.Recover? && s != r;
    if grows {
      BeginsItself(m, i);
      ListedIsCurrent(r, used, m, i);
    }
    forall k, t ensures |Within(Recoveries(s, k), t)| <= RECOVERY_LIMIT {
      assert |Within(Recoveries(r, k), t)| <= RECOVERY_LIMIT;
      if grows && k == KeyFor(p.operation) {
        OneMore(Recoveries(r, k), p.operation.id, p.operation.createdAt, Recoveries(s, k), t);
      } else {
        NoMore(Recoveries(r, k), Recoveries(s, k), t);
      }
    }
  }

  ghost predicate Bounded(s: System) { Invariant(s) && Limited(s.repo) }

  lemma NextLimited(s: System, e: Event)
    requires Bounded(s) && FreshEvent(s, e)
    ensures Bounded(Next(s, e))
  {
    hide Consistent, MemoryCoherent, Limited, Apply, PlanFor;
    NextKeeps(s, e);
    if e.Act? {
      RecallClient(s, e.client);
      ActLimited(s.repo, s.used, MemoryOf(s, e.client), e.intent);
    }
  }

  /** The limit over whole runs: racing detectors, stale lists and detection times in any order leave no
      closed fifteen-minute interval with more than three recoveries of one World, and attempts in 1..3. */
  lemma {:induction false} RunLimited(s: System, events: seq<Event>)
    requires Bounded(s) && FreshRun(s, events)
    ensures Bounded(Exec(s, events))
  {
    hide Bounded, FreshEvent, Next;
    if |events| > 0 {
      var n := |events| - 1;
      forall i | 0 <= i < n ensures FreshEvent(Exec(s, events[..n][..i]), events[..n][i]) {
        assert events[..n][..i] == events[..i];
      }
      RunLimited(s, events[..n]);
      NextLimited(Exec(s, events[..n]), events[n]);
    }
  }

  // ----- operations over a run

  predicate Purges(e: Event) { e.Act? && e.intent.Purge? }

  lemma OnlyPurgeRemoves(m: Memory, i: Intent)
    requires PlanFor(m, i).Remove?
    ensures i.Purge?
  {
    hide EmptySince, IdleElapsed, Propose;
  }

  lemma ContinuesFurther(a: Operation, b: Operation, c: Operation)
    requires Continues(a, b) && Continues(b, c)
    ensures Continues(a, c)
  {
  }

  /** Over any run an operation that stays in the repository keeps its identity and attempt number; once
      terminal its status and phase never change; while live its rank only falls. Without a purge no
      operation leaves the repository, so the window above counts every recovery ever created. */
  lemma {:induction false} RunContinues(s: System, events: seq<Event>, id: Id)
    requires Invariant(s) && FreshRun(s, events) && id in s.repo.operations
    requires forall e :: e in events ==> !Purges(e)
    ensures id in Exec(s, events).repo.operations
    ensures Continues(s.repo.operations[id], Exec(s, events).repo.operations[id])
  {
    hide Invariant, Continues, PlanFor, Apply, FreshEvent;
    if |events| == 0 {
      StillContinues(s.repo.operations[id]);
    } else {
      var n := |events| - 1;
      forall i | 0 <= i < n ensures FreshEvent(Exec(s, events[..n][..i]), events[..n][i]) {
        assert events[..n][..i] == events[..i];
      }
      assert forall e :: e in events[..n] ==> !Purges(e);
      RunContinues(s, events[..n], id);
      RunKeeps(s, events[..n]);
      var t := Exec(s, events[..n]);
      assert FreshEvent(t, events[n]);
      StepContinues(t, events[n], id);
      ContinuesFurther(s.repo.operations[id], t.repo.operations[id], Next(t, events[n]).repo.operations[id]);
    }
  }

  lemma StepContinues(s: System, e: Event, id: Id)
    requires Invariant(s) && FreshEvent(s, e) && id in s.repo.operations && !Purges(e)
    ensures id in Next(s, e).repo.operations && Continues(s.repo.operations[id], Next(s, e).repo.operations[id])
  {
    hide Consistent, MemoryCoherent, Continues, PlanFor, Apply;
    StillContinues(s.repo.operations[id]);
    if e.Act? {
      var m := MemoryOf(s, e.client);
      RecallClient(s, e.client);
      ActAdvances(s.repo, s.used, m, e.intent);
      if PlanFor(m, e.intent).Remove? {
        OnlyPurgeRemoves(m, e.intent);
      }
    }
  }
}
