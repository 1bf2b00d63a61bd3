/** The Balance Guard: a hold taken for a window pays every capture inside it, and each alert fires once. */
module BalanceGuard {
  import opened Base
  import opened Money
  import opened Wallet
  import opened Solvency

  // ----- coverage

  /** The reservation is active, belongs to the quote and pays `seconds` at its rate. */
  ghost predicate Covered(w: Wallet, id: Id, q: Quote, seconds: nat) {
    && Find(w.quotes, QuoteIs(q.id)) == Some(q)
    && exists r :: r in w.reservations && Covering(r, id, q, seconds)
  }

  predicate Covering(r: Reservation, id: Id, q: Quote, seconds: nat) {
    r.id == id && r.status.Active? && r.quote == Some(q.id) && r.amount >= HoldFor(q.rate, seconds)
  }

  function Horizon(c: Command): int
    requires c.Protect?
  {
    if c.observedAt < c.startedAt then 0 else CeilSeconds(c.observedAt - c.startedAt) + c.sleepSeconds
  }

  /** Commands that neither close the reservation nor guard it for a shorter horizon. */
  predicate Respects(c: Command, id: Id, seconds: nat) {
    && !(c.Release? && c.reservation == id) && !(c.Capture? && c.reservation == id)
    && !(c.CaptureUsage? && c.reservation == id)
    && (c.Protect? && c.reservation == id ==> Horizon(c) >= seconds)
  }

  predicate Targets(c: Command, id: Id) {
    (c.Release? || c.Capture? || c.CaptureUsage? || c.Protect?) && c.reservation == id
  }

  lemma OtherReservationsStay(w: Wallet, c: Command, env: Env, cal: Calendar, r: Reservation)
    requires r in w.reservations && !Targets(c, r.id)
    ensures r in Step(w, c, env, cal).reservations
  {
    hide Attempt;
    if HoldsCommand(c) {
      HoldsElsewhere(w, c, env, cal, r);
    } else if PostsOne(c) {
      if Attempt(w, c, env, cal).Save? {
        OnePosted(w, c, env, cal);
      }
    } else if c.ProcessEvent? {
      if Attempt(w, c, env, cal).Save? {
        EventWrites(w, c, env, cal);
      }
    } else {
      NothingPosted(w, c, env, cal);
    }
  }

  lemma HoldsElsewhere(w: Wallet, c: Command, env: Env, cal: Calendar, r: Reservation)
    requires r in w.reservations && !Targets(c, r.id) && HoldsCommand(c)
    ensures r in Step(w, c, env, cal).reservations
  {
    hide Available, PlanGuard, BudgetAvailable, GuardMinutes, GuardPercents, GuardDecision, Put, ChargeFor, HoldFor;
    var i :| 0 <= i < |w.reservations| && w.reservations[i] == r;
    var v := Step(w, c, env, cal);
    assert v.reservations[i] == r;
  }

  lemma QuotesStay(w: Wallet, v: Wallet, q: Quote)
    requires Find(w.quotes, QuoteIs(q.id)) == Some(q) && w.quotes <= v.quotes
    ensures Find(v.quotes, QuoteIs(q.id)) == Some(q)
  {
    var i, j := FirstIndex(w.quotes, QuoteIs(q.id)), FirstIndex(v.quotes, QuoteIs(q.id));
    assert v.quotes[i] == w.quotes[i] && QuoteIs(q.id)(v.quotes[i]);
    assert forall k :: 0 <= k < i ==> v.quotes[k] == w.quotes[k] && !QuoteIs(q.id)(w.quotes[k]);
  }

  lemma GuardKeepsCover(w: Wallet, c: Command, cal: Calendar, q: Quote, seconds: nat)
    requires Sound(w) && c.Protect? && Covered(w, c.reservation, q, seconds) && Horizon(c) >= seconds
    ensures Covered(After(w, DoProtect(w, c.quote, c.reservation, c.startedAt, c.observedAt, c.sleepSeconds, c.interval, cal)),
                    c.reservation, q, seconds)
  {
    hide Guarded;
    var o := DoProtect(w, c.quote, c.reservation, c.startedAt, c.observedAt, c.sleepSeconds, c.interval, cal);
    var r :| r in w.reservations && Covering(r, c.reservation, q, seconds);
    assert ReservationId()(Find(w.reservations, ReservationIs(c.reservation)).value) == ReservationId()(r);
    if o.Save? {
      GuardedHold(w, q, r, c.observedAt, Horizon(c), c.interval, cal);
      HoldMonotone(q.rate, seconds, Horizon(c));
      AmountCovers(w, o.next, r, q, seconds, o.reply.decision.reserved);
    }
  }

  lemma AmountCovers(w: Wallet, v: Wallet, r: Reservation, q: Quote, seconds: nat, amount: int)
    requires r in w.reservations && r.status.Active? && r.quote == Some(q.id) && amount >= HoldFor(q.rate, seconds)
    requires v.reservations == Substitute(w.reservations, ReservationIs(r.id), r.(amount := amount))
    requires v.quotes == w.quotes && Find(w.quotes, QuoteIs(q.id)) == Some(q)
    ensures Covered(v, r.id, q, seconds)
  {
    var i :| 0 <= i < |w.reservations| && w.reservations[i] == r;
    assert Covering(v.reservations[i], r.id, q, seconds);
  }

  /** A guard leaves the old hold, or the hold for its horizon; it reports which. */
  lemma GuardedHold(w: Wallet, q: Quote, r: Reservation, observedAt: Time, seconds: nat, interval: nat, cal: Calendar)
    ensures var o := Guarded(w, q, r, observedAt, seconds, interval, cal);
            && !o.Raise? && o.reply.Decided?
            && var d := o.reply.decision;
               && d.reserved == (if d.safeSleepReserved then HoldFor(q.rate, seconds) else r.amount)
               && (o.Save? ==> o.next.quotes == w.quotes
                               && o.next.reservations == Substitute(w.reservations, ReservationIs(r.id), r.(amount := d.reserved)))
               && (o.Return? ==> w.reservations == Substitute(w.reservations, ReservationIs(r.id), r.(amount := d.reserved)))
  {
    hide Put, GuardPercents, GuardMinutes, Available, BudgetAvailable, Committed;
  }

  lemma StepKeepsCover(w: Wallet, c: Command, env: Env, cal: Calendar, id: Id, q: Quote, seconds: nat)
    requires Sound(w) && Fresh(w, env) && Covered(w, id, q, seconds) && Respects(c, id, seconds)
    ensures Covered(Step(w, c, env, cal), id, q, seconds)
  {
    hide DoProtect, DoReserve, DoReserveForWake, DoRelease, DoCapture, DoCaptureUsage, DoEvent, DoAttach, DoReconcile;
    hide DoCredit, DoChargeStorage, DoGuarantee, DoAvailability, DoSupport, DoCreateQuote, DoStartDeposit;
    hide DoSetBudget, DoRecordRefund;
    if c.Protect? && c.reservation == id {
      GuardKeepsCover(w, c, cal, q, seconds);
    } else {
      var r :| r in w.reservations && Covering(r, id, q, seconds);
      OtherReservationsStay(w, c, env, cal, r);
      AttemptGood(w, c, env, cal);
      QuotesStay(w, Step(w, c, env, cal), q);
    }
  }

  /** A guard that reports the window reserved covers its horizon. */
  lemma GuardCovers(w: Wallet, c: Command, q: Quote, cal: Calendar)
    requires Sound(w) && c.Protect? && Find(w.quotes, QuoteIs(c.quote)) == Some(q)
    requires var o := DoProtect(w, c.quote, c.reservation, c.startedAt, c.observedAt, c.sleepSeconds, c.interval, cal);
             !o.Raise? && (o.reply.Decided? ==> o.reply.decision.safeSleepReserved)
    ensures c.observedAt >= c.startedAt && c.sleepSeconds > 0
    ensures Covered(After(w, DoProtect(w, c.quote, c.reservation, c.startedAt, c.observedAt, c.sleepSeconds, c.interval, cal)),
                    c.reservation, q, Horizon(c))
  {
    hide Guarded;
    var o := DoProtect(w, c.quote, c.reservation, c.startedAt, c.observedAt, c.sleepSeconds, c.interval, cal);
    var r := Find(w.reservations, ReservationIs(c.reservation)).value;
    GuardedHold(w, q, r, c.observedAt, Horizon(c), c.interval, cal);
    AmountCovers(w, After(w, o), r, q, Horizon(c), HoldFor(q.rate, Horizon(c)));
  }

  lemma CoverPays(w: Wallet, id: Id, q: Quote, seconds: nat, startedAt: Time, releasedAt: Time, key: string, env: Env)
    requires Sound(w) && Covered(w, id, q, seconds)
    requires startedAt <= releasedAt && BillableSeconds(releasedAt - startedAt) <= seconds
    ensures var o := DoCaptureUsage(w, q.id, id, startedAt, releasedAt, key, env);
            !o.Raise? && (Find(w.usages, UsageKeyed(key)).None? ==> o.Save?)
  {
    var r :| r in w.reservations && Covering(r, id, q, seconds);
    var found := Find(w.reservations, ReservationIs(id)).value;
    assert ReservationId()(found) == ReservationId()(r);
    HoldCoversCharge(q.rate, BillableSeconds(releasedAt - startedAt), seconds);
  }

  lemma {:induction false} RunKeepsCover(w: Wallet, moves: seq<Move>, cal: Calendar, id: Id, q: Quote, seconds: nat)
    requires Sound(w) && Covered(w, id, q, seconds) && FreshMoves(w, moves, cal)
    requires forall m :: m in moves ==> Respects(m.command, id, seconds)
    ensures Sound(Run(w, moves, cal)) && Covered(Run(w, moves, cal), id, q, seconds)
  {
    hide Attempt;
    RunSound(w, moves, cal);
    if |moves| > 0 {
      var n := |moves| - 1;
      FreshPrefix(w, moves, n, cal);
      RunKeepsCover(w, moves[..n], cal, id, q, seconds);
      RunSound(w, moves[..n], cal);
      StepKeepsCover(Run(w, moves[..n], cal), moves[n].command, moves[n].env, cal, id, q, seconds);
    }
  }

  /** After a guard that reserved its safe-sleep window, whatever else happens to the wallet short of
      closing the reservation or guarding it for less, the session's capture is accepted up to the end
      of the window. */
  lemma GuardCoversCapture(w: Wallet, guard: Command, guardEnv: Env, moves: seq<Move>, cal: Calendar, q: Quote,
                           releasedAt: Time, key: string, env: Env)
    requires Sound(w) && guard.Protect? && guard.sleepSeconds >= 60
    requires Fresh(w, guardEnv) && Find(w.quotes, QuoteIs(guard.quote)) == Some(q)
    requires !Attempt(w, guard, guardEnv, cal).Raise? && Attempt(w, guard, guardEnv, cal).reply.Decided?
    requires Attempt(w, guard, guardEnv, cal).reply.decision.safeSleepReserved
    requires FreshMoves(Step(w, guard, guardEnv, cal), moves, cal)
    requires forall m :: m in moves ==> Respects(m.command, guard.reservation, Horizon(guard))
    requires guard.startedAt <= releasedAt && CeilSeconds(releasedAt - guard.startedAt) <= Horizon(guard)
    ensures var v := Run(Step(w, guard, guardEnv, cal), moves, cal);
            !DoCaptureUsage(v, q.id, guard.reservation, guard.startedAt, releasedAt, key, env).Raise?
  {
    hide Attempt, DoCaptureUsage;
    AttemptGood(w, guard, guardEnv, cal);
    var v := Step(w, guard, guardEnv, cal);
    GuardStepCovers(w, guard, guardEnv, cal, q);
    RunKeepsCover(v, moves, cal, guard.reservation, q, Horizon(guard));
    CoverPays(Run(v, moves, cal), guard.reservation, q, Horizon(guard), guard.startedAt, releasedAt, key, env);
  }

  lemma GuardStepCovers(w: Wallet, c: Command, env: Env, cal: Calendar, q: Quote)
    requires Sound(w) && c.Protect? && Find(w.quotes, QuoteIs(c.quote)) == Some(q)
    requires !Attempt(w, c, env, cal).Raise? && Attempt(w, c, env, cal).reply.Decided?
    requires Attempt(w, c, env, cal).reply.decision.safeSleepReserved
    ensures c.observedAt >= c.startedAt && c.sleepSeconds > 0
    ensures Covered(Step(w, c, env, cal), c.reservation, q, Horizon(c))
  {
    hide DoProtect;
    GuardCovers(w, c, q, cal);
  }

  /** Guards that observe later with at least the same window never shorten the horizon. */
  lemma LaterGuardsRespect(earlier: Command, later: Command)
    requires earlier.Protect? && later.Protect? && earlier.startedAt <= earlier.observedAt
    requires later.startedAt == earlier.startedAt && later.observedAt >= earlier.observedAt
    requires later.sleepSeconds >= earlier.sleepSeconds > 0
    ensures Respects(later, earlier.reservation, Horizon(earlier))
  {
    CeilMonotone(earlier.observedAt - earlier.startedAt, later.observedAt - later.startedAt);
  }

  // ----- alerts

  /** The only sets of thresholds a guard can have notified. */
  predicate MinuteChain(s: set<int>) { s == {} || s == {30} || s == {30, 10} || s == {30, 10, 5} }
  predicate PercentChain(s: set<int>) { s == {} || s == {50} || s == {50, 80} || s == {50, 80, 100} }

  ghost predicate AlertsSound(w: Wallet) {
    && (forall g :: g in w.guards ==> MinuteChain(g.notified))
    && (forall a :: a in w.alerts ==> PercentChain(a.notified))
  }

  lemma ReachedAreChains(available: int, rate: nat, committed: int, limit: nat)
    ensures MinuteChain(MinutesReached(available, rate)) && PercentChain(PercentReached(committed, limit))
  {
    var m, p := MinutesReached(available, rate), PercentReached(committed, limit);
    assert 5 in m ==> 10 in m;
    assert 10 in m ==> 30 in m;
    assert 100 in p ==> 80 in p;
    assert 80 in p ==> 50 in p;
    assert m == (if 30 in m then {30} else {}) + (if 10 in m then {10} else {}) + (if 5 in m then {5} else {});
    assert p == (if 50 in p then {50} else {}) + (if 80 in p then {80} else {}) + (if 100 in p then {100} else {});
  }

  /** A new minute alert is below every earlier one; a new percentage is above every earlier one. */
  lemma NewestIsExtreme(already: set<int>, reached: set<int>)
    ensures MinuteChain(already) && MinuteChain(reached) && Smallest(reached - already).Some? ==>
              forall t :: t in already ==> Smallest(reached - already).value < t
    ensures PercentChain(already) && PercentChain(reached) && Largest(reached - already).Some? ==>
              forall t :: t in already ==> t < Largest(reached - already).value
    ensures MinuteChain(already) && MinuteChain(reached) ==> MinuteChain(already + reached)
    ensures PercentChain(already) && PercentChain(reached) ==> PercentChain(already + reached)
  {
  }

  lemma FindPut<T>(xs: seq<T>, p: T -> bool, v: T, other: T -> bool)
    requires p(v)
    ensures Find(Put(xs, p, v), p) == Some(v)
    ensures !other(v) && (forall x :: x in xs && p(x) ==> !other(x)) ==> Find(Put(xs, p, v), other) == Find(xs, other)
    ensures forall x :: x in Put(xs, p, v) ==> x == v || x in xs
  {
    var ys := Put(xs, p, v);
    var i := FirstIndex(xs, p);
    assert p(ys[i]) && ys[i] == v;
    if FirstIndex(ys, p) < i {
      assert ys[FirstIndex(ys, p)] == xs[FirstIndex(ys, p)];
    }
    if !other(v) && forall x :: x in xs && p(x) ==> !other(x) {
      SameFirst(xs, ys, other);
    }
  }

  lemma SameFirst<T>(xs: seq<T>, ys: seq<T>, other: T -> bool)
    requires |xs| <= |ys|
    requires forall i :: 0 <= i < |xs| ==> ys[i] == xs[i] || (!other(ys[i]) && !other(xs[i]))
    requires forall i :: |xs| <= i < |ys| ==> !other(ys[i])
    ensures Find(ys, other) == Find(xs, other)
  {
    var i, j := FirstIndex(xs, other), FirstIndex(ys, other);
    if i < |xs| {
      assert other(ys[i]);
      assert forall k :: 0 <= k < i ==> !other(xs[k]) && !other(ys[k]);
    }
  }

  /** The minute alert a step announces for a reservation, and the percentage for a World and month. */
  function MinuteAlert(w: Wallet, m: Move, cal: Calendar, reservation: Id): Option<int> {
    var o := Attempt(w, m.command, m.env, cal);
    if !m.command.Protect? || o.Raise? || !o.reply.Decided? || o.reply.decision.reservation != reservation
    then None else o.reply.decision.minuteAlert
  }

  function PercentAlert(w: Wallet, m: Move, cal: Calendar, world: Id, month: int): Option<int> {
    if !m.command.Protect? then None else
    var o := Attempt(w, m.command, m.env, cal);
    var q := Find(w.quotes, QuoteIs(m.command.quote));
    if o.Raise? || !o.reply.Decided? || q.None? || q.value.world != world || cal(m.command.observedAt) != month
    then None else o.reply.decision.budgetAlert
  }

  function Append(xs: seq<int>, x: Option<int>): seq<int> { if x.Some? then xs + [x.value] else xs }

  function RunMinutes(w: Wallet, moves: seq<Move>, cal: Calendar, reservation: Id): seq<int> {
    if |moves| == 0 then [] else
    var n := |moves| - 1;
    Append(RunMinutes(w, moves[..n], cal, reservation), MinuteAlert(Run(w, moves[..n], cal), moves[n], cal, reservation))
  }

  function RunPercents(w: Wallet, moves: seq<Move>, cal: Calendar, world: Id, month: int): seq<int> {
    if |moves| == 0 then [] else
    var n := |moves| - 1;
    Append(RunPercents(w, moves[..n], cal, world, month), PercentAlert(Run(w, moves[..n], cal), moves[n], cal, world, month))
  }

  /** A step adds to what was notified; a new minute alert is below all of it and joins it. */
  predicate Falls(before: set<int>, after: set<int>, alert: Option<int>) {
    && before <= after
    && (alert.Some? ==> alert.value in after && forall t :: t in before ==> alert.value < t)
  }
  predicate Rises(before: set<int>, after: set<int>, alert: Option<int>) {
    && before <= after
    && (alert.Some? ==> alert.value in after && forall t :: t in before ==> t < alert.value)
  }

  lemma GuardedMinutes(w: Wallet, q: Quote, r: Reservation, plan: GuardPlan, month: int, interval: nat, cal: Calendar,
                       id: Id)
    requires forall g :: g in w.guards ==> MinuteChain(g.notified)
    ensures var v := GuardedWallet(w, q, r, plan, month, cal);
            var d := GuardDecision(w, q, r, plan, month, interval, cal);
            && (forall g :: g in v.guards ==> MinuteChain(g.notified))
            && Falls(NotifiedMinutes(w, id), NotifiedMinutes(v, id), if r.id == id then d.minuteAlert else None)
  {
    hide GuardPercents, Put, MinutesReached;
    var reached, already := GuardMinutes(q, plan), NotifiedMinutes(w, r.id);
    ReachedAreChains(plan.availableAfter, q.rate, 0, 0);
    NewestIsExtreme(already, reached);
    FindPut(w.guards, GuardOf(r.id), Guard(r.id, already + reached), GuardOf(id));
  }

  lemma GuardedPercents(w: Wallet, q: Quote, r: Reservation, plan: GuardPlan, now: int, interval: nat, cal: Calendar,
                        world: Id, month: int)
    requires forall a :: a in w.alerts ==> PercentChain(a.notified)
    ensures var v := GuardedWallet(w, q, r, plan, now, cal);
            var d := GuardDecision(w, q, r, plan, now, interval, cal);
            && (forall a :: a in v.alerts ==> PercentChain(a.notified))
            && Rises(NotifiedPercents(w, world, month), NotifiedPercents(v, world, month),
                     if q.world == world && now == month then d.budgetAlert else None)
  {
    hide GuardMinutes, Put, PercentReached, Committed;
    var reached, already := GuardPercents(w, q, plan, now, cal), NotifiedPercents(w, q.world, now);
    assert PercentChain(reached) by {
      var budget := Find(w.budgets, BudgetOf(q.world));
      if budget.Some? {
        ReachedAreChains(0, 0, Committed(w, q.world, now, cal) + (if plan.canExtend then plan.additional else 0),
                         budget.value.limit);
      }
    }
    NewestIsExtreme(already, reached);
    FindPut(w.alerts, AlertsOf(q.world, now), BudgetAlerts(q.world, now, already + reached), AlertsOf(world, month));
  }

  lemma OtherCommandsKeepAlerts(w: Wallet, c: Command, env: Env, cal: Calendar)
    requires !c.Protect?
    ensures var v := Step(w, c, env, cal); v.guards == w.guards && v.alerts == w.alerts
  {
    AlertsAndBudgetsStay(w, c, env, cal);
  }

  ghost predicate AlertsMove(w: Wallet, m: Move, cal: Calendar, id: Id, world: Id, month: int) {
    var v := Step(w, m.command, m.env, cal);
    && AlertsSound(v)
    && Falls(NotifiedMinutes(w, id), NotifiedMinutes(v, id), MinuteAlert(w, m, cal, id))
    && Rises(NotifiedPercents(w, world, month), NotifiedPercents(v, world, month), PercentAlert(w, m, cal, world, month))
  }

  lemma StepAlerts(w: Wallet, m: Move, cal: Calendar, id: Id, world: Id, month: int)
    requires AlertsSound(w)
    ensures AlertsMove(w, m, cal, id, world, month)
  {
    hide GuardedWallet, GuardDecision, PlanGuard, NotifiedMinutes, NotifiedPercents;
    var c := m.command;
    if !c.Protect? {
      OtherCommandsKeepAlerts(w, c, m.env, cal);
      assert NotifiedMinutes(w, id) == NotifiedMinutes(Step(w, c, m.env, cal), id) by {
        NotifiedSame(w, Step(w, c, m.env, cal), id, world, month); }
      NotifiedSame(w, Step(w, c, m.env, cal), id, world, month);
    } else if !Attempt(w, c, m.env, cal).Raise? {
      var q, r := Find(w.quotes, QuoteIs(c.quote)).value, Find(w.reservations, ReservationIs(c.reservation)).value;
      var plan := PlanGuard(w, q, r, c.observedAt, Horizon(c), cal);
      GuardedMinutes(w, q, r, plan, cal(c.observedAt), c.interval, cal, id);
      GuardedPercents(w, q, r, plan, cal(c.observedAt), c.interval, cal, world, month);
      DecisionNames(w, q, r, plan, cal(c.observedAt), c.interval, cal);
    }
  }

  lemma NotifiedSame(w: Wallet, v: Wallet, id: Id, world: Id, month: int)
    requires w.guards == v.guards && w.alerts == v.alerts
    ensures NotifiedMinutes(w, id) == NotifiedMinutes(v, id)
    ensures NotifiedPercents(w, world, month) == NotifiedPercents(v, world, month)
  {
  }

  lemma DecisionNames(w: Wallet, q: Quote, r: Reservation, plan: GuardPlan, month: int, interval: nat, cal: Calendar)
    ensures GuardDecision(w, q, r, plan, month, interval, cal).reservation == r.id
  {
  }

  predicate Decreasing(xs: seq<int>) { forall i, j :: 0 <= i < j < |xs| ==> xs[i] > xs[j] }
  predicate Increasing(xs: seq<int>) { forall i, j :: 0 <= i < j < |xs| ==> xs[i] < xs[j] }

  lemma AppendOrdered(minutes: seq<int>, percents: seq<int>, below: set<int>, above: set<int>, m: Option<int>,
                      p: Option<int>)
    requires Decreasing(minutes) && Increasing(percents)
    requires (forall t :: t in minutes ==> t in below) && forall t :: t in percents ==> t in above
    requires m.Some? ==> forall t :: t in below ==> m.value < t
    requires p.Some? ==> forall t :: t in above ==> t < p.value
    ensures Decreasing(Append(minutes, m)) && Increasing(Append(percents, p))
  {
    assert forall i :: 0 <= i < |minutes| ==> minutes[i] in minutes;
    assert forall i :: 0 <= i < |percents| ==> percents[i] in percents;
  }

  /** Over any run the minute alerts of a reservation strictly decrease and the budget percentages of a
      World and month strictly increase, so no threshold fires twice. */
  lemma {:induction false} AlertsFireOnce(w: Wallet, moves: seq<Move>, cal: Calendar, id: Id, world: Id, month: int)
    requires AlertsSound(w)
    ensures var minutes, percents := RunMinutes(w, moves, cal, id), RunPercents(w, moves, cal, world, month);
            var v := Run(w, moves, cal);
            && AlertsSound(v) && Decreasing(minutes) && Increasing(percents)
            && (forall t :: t in minutes ==> t in NotifiedMinutes(v, id))
            && (forall t :: t in percents ==> t in NotifiedPercents(v, world, month))
  {
    hide Attempt, NotifiedMinutes, NotifiedPercents, MinuteAlert, PercentAlert, AlertsSound;
    if |moves| > 0 {
      var n := |moves| - 1;
      AlertsFireOnce(w, moves[..n], cal, id, world, month);
      var before := Run(w, moves[..n], cal);
      StepAlerts(before, moves[n], cal, id, world, month);
      AppendOrdered(RunMinutes(w, moves[..n], cal, id), RunPercents(w, moves[..n], cal, world, month),
                    NotifiedMinutes(before, id), NotifiedPercents(before, world, month),
                    MinuteAlert(before, moves[n], cal, id), PercentAlert(before, moves[n], cal, world, month));
    }
  }

  lemma NothingNew(minutes: set<int>, percents: set<int>, m: Option<int>, p: Option<int>)
    requires Falls(minutes, minutes, m) && Rises(percents, percents, p)
    ensures m.None? && p.None?
  {
    assert forall x: int :: x in minutes ==> m != Some(x);
    assert forall x: int :: x in percents ==> p != Some(x);
  }

  /** An alert is only ever announced by an attempt whose new state is saved. */
  lemma UnsavedIsSilent(w: Wallet, m: Move, cal: Calendar, id: Id, world: Id, month: int)
    requires AlertsSound(w) && !Attempt(w, m.command, m.env, cal).Save?
    ensures MinuteAlert(w, m, cal, id).None? && PercentAlert(w, m, cal, world, month).None?
  {
    hide Attempt, NotifiedMinutes, NotifiedPercents, MinuteAlert, PercentAlert;
    StepAlerts(w, m, cal, id, world, month);
    assert Step(w, m.command, m.env, cal) == w;
    NothingNew(NotifiedMinutes(w, id), NotifiedPercents(w, world, month), MinuteAlert(w, m, cal, id),
               PercentAlert(w, m, cal, world, month));
  }
}
