/** What the Balance Guard decides, told from the ledger, the holds and the World's budget: when it reserves
    its window, when it asks for sleep and why, how long the money lasts, and whom it alerts. */
module GuardDecisions {
  import opened Base
  import opened Money
  import opened Wallet
  import opened Solvency
  import opened WalletDecisions
  import G = BalanceGuard

  /** What a guard sees: the hold that covers the session so far and its safe sleep, how much more than the
      present hold that is, what the wallet can spend, and what is left of the World's budget, if it has one. */
  datatype Sight = Sight(hold: int, extra: int, money: int, budget: Option<int>)

  ghost predicate Windowed(c: Command, q: Quote, hold: int)
    requires c.Protect?
  {
    exists seconds :: Lasted(seconds, c.startedAt, c.observedAt) && Covers(hold, q.rate, seconds + c.sleepSeconds)
  }

  predicate Lasted(seconds: int, from: Time, until: Time) { Started(seconds, until - from) }

  ghost predicate Sees(w: Wallet, c: Command, cal: Calendar, q: Quote, r: Reservation, x: Sight)
    requires c.Protect?
  {
    && Windowed(c, q, x.hold)
    && x.extra == (if x.hold > r.amount then x.hold - r.amount else 0)
    && x.money == Spendable(w)
    && (x.budget.None? <==> forall n :: !HasBudget(w, q.world, n))
    && (forall n :: HasBudget(w, q.world, n) ==>
          x.budget == Some(LeftOf(w.budgets[n].limit, CommittedIn(w, q.world, cal(c.observedAt), cal))))
  }

  function LeftOf(limit: int, committed: int): int { if committed < limit then limit - committed else 0 }

  /** Both the wallet and the budget pay what the window costs more. */
  predicate Pays(x: Sight) { x.extra <= x.money && (x.budget.Some? ==> x.extra <= x.budget.value) }

  /** What the smaller of the two has left once they paid. */
  function Left(x: Sight): int {
    (if x.budget.Some? && x.budget.value < x.money then x.budget.value else x.money) - x.extra
  }

  /** The guard accepts its arguments: a session of this quote whose reservation is active. */
  ghost predicate Guards(w: Wallet, c: Command, q: Quote, r: Reservation)
    requires c.Protect?
  {
    && c.startedAt <= c.observedAt && c.sleepSeconds > 0 && c.interval > 0
    && Offered(w, c.quote, q) && Holding(w, c.reservation, r) && r.quote == Some(c.quote)
  }

  // ----- who was told before

  ghost predicate ToldMinutes(w: Wallet, reservation: Id, minutes: int) {
    exists n :: 0 <= n < |w.guards| && w.guards[n].reservation == reservation && minutes in w.guards[n].notified
                && forall k :: 0 <= k < n ==> w.guards[k].reservation != reservation
  }

  ghost predicate ToldPercent(w: Wallet, world: Id, month: int, percent: int) {
    exists n :: 0 <= n < |w.alerts| && w.alerts[n].world == world && w.alerts[n].period == month
                && percent in w.alerts[n].notified
                && forall k :: 0 <= k < n ==> !(w.alerts[k].world == world && w.alerts[k].period == month)
  }

  lemma ToldIs(w: Wallet, reservation: Id, world: Id, month: int)
    ensures forall t :: ToldMinutes(w, reservation, t) <==> t in NotifiedMinutes(w, reservation)
    ensures forall t :: ToldPercent(w, world, month, t) <==> t in NotifiedPercents(w, world, month)
  {
    var i, j := FirstIndex(w.guards, GuardOf(reservation)), FirstIndex(w.alerts, AlertsOf(world, month));
    assert forall n :: 0 <= n < |w.guards| ==> (GuardOf(reservation)(w.guards[n]) <==> w.guards[n].reservation == reservation);
    assert forall n :: 0 <= n < |w.alerts| ==>
        (AlertsOf(world, month)(w.alerts[n]) <==> w.alerts[n].world == world && w.alerts[n].period == month);
    forall t | t in NotifiedMinutes(w, reservation) ensures ToldMinutes(w, reservation, t) {
      assert w.guards[i].reservation == reservation;
    }
    forall t | t in NotifiedPercents(w, world, month) ensures ToldPercent(w, world, month, t) {
      assert w.alerts[j].world == world;
    }
  }

  // ----- what is seen

  lemma WindowIs(c: Command, q: Quote)
    requires c.Protect? && c.startedAt <= c.observedAt && c.sleepSeconds > 0
    ensures forall hold :: Windowed(c, q, hold)
                           <==> hold == HoldFor(q.rate, CeilSeconds(c.observedAt - c.startedAt) + c.sleepSeconds)
  {
    hide Started, CeilSeconds, Covers, HoldFor;
    StartedIs(c.observedAt - c.startedAt);
    assert Lasted(CeilSeconds(c.observedAt - c.startedAt), c.startedAt, c.observedAt);
    CoversIs(q.rate, CeilSeconds(c.observedAt - c.startedAt) + c.sleepSeconds);
  }

  function PlanOf(w: Wallet, c: Command, cal: Calendar, q: Quote, r: Reservation): GuardPlan
    requires c.Protect? && c.startedAt <= c.observedAt && c.sleepSeconds > 0
  {
    PlanGuard(w, q, r, c.observedAt, CeilSeconds(c.observedAt - c.startedAt) + c.sleepSeconds, cal)
  }

  /** The plan of a guard, from what it sees. */
  lemma PlanIs(w: Wallet, c: Command, cal: Calendar, q: Quote, r: Reservation, x: Sight)
    requires c.Protect? && c.startedAt <= c.observedAt && c.sleepSeconds > 0 && Sees(w, c, cal, q, r, x)
    ensures var plan := PlanOf(w, c, cal, q, r);
            && plan.canExtend == Pays(x) && plan.additional == x.extra
            && plan.reserved == (if Pays(x) then x.hold else r.amount)
            && plan.availableAfter == (if Pays(x) then Left(x) else 0)
            && (plan.reason == BudgetExhausted <==>
                  x.budget.Some? && (x.budget.value < x.extra || (Pays(x) && x.budget.value <= x.money)))
  {
    hide Available, BudgetAvailable, HoldFor, CeilSeconds, CommittedIn, Spendable, Windowed;
    WindowIs(c, q);
    SpendableIs(w);
    BudgetIs(w, q.world, c.observedAt, cal);
  }

  /** There is always exactly this to see. */
  lemma SightOf(w: Wallet, c: Command, cal: Calendar, q: Quote, r: Reservation) returns (x: Sight)
    requires c.Protect? && c.startedAt <= c.observedAt && c.sleepSeconds > 0
    ensures Sees(w, c, cal, q, r, x)
  {
    hide HoldFor, CeilSeconds, Windowed, Available, Committed, CommittedIn, Spendable;
    WindowIs(c, q);
    BudgetIs(w, q.world, c.observedAt, cal);
    var hold := HoldFor(q.rate, CeilSeconds(c.observedAt - c.startedAt) + c.sleepSeconds);
    var b := BudgetAvailable(w, q.world, c.observedAt, cal);
    x := Sight(hold, if hold > r.amount then hold - r.amount else 0, Spendable(w), b);
  }

  // ----- what is decided

  /** The percentages of its budget the World has committed, with what this guard reserved. */
  ghost predicate PercentDue(w: Wallet, c: Command, cal: Calendar, q: Quote, x: Sight, percent: int)
    requires c.Protect?
  {
    && percent in {50, 80, 100} && !ToldPercent(w, q.world, cal(c.observedAt), percent)
    && PercentNow(w, c, cal, q, x, percent)
  }

  ghost predicate PercentNow(w: Wallet, c: Command, cal: Calendar, q: Quote, x: Sight, percent: int)
    requires c.Protect?
  {
    exists n ::
      && HasBudget(w, q.world, n)
      && (CommittedIn(w, q.world, cal(c.observedAt), cal) + if Pays(x) then x.extra else 0) * 100
         >= percent * w.budgets[n].limit
  }

  /** The money left lasts no longer than this many minutes. */
  predicate MinutesNow(q: Quote, x: Sight, minutes: int) { (if Pays(x) then Left(x) else 0) * 60 <= minutes * q.rate }

  ghost predicate MinutesDue(w: Wallet, q: Quote, r: Reservation, x: Sight, minutes: int) {
    minutes in {5, 10, 30} && MinutesNow(q, x, minutes) && !ToldMinutes(w, r.id, minutes)
  }

  /** The window, the order to sleep, its reason and the time left. */
  ghost predicate RightOrder(c: Command, q: Quote, r: Reservation, x: Sight, d: Decision)
    requires c.Protect?
  {
    && d.reservation == r.id
    // the window is reserved exactly when both pay for it
    && (d.safeSleepReserved <==> Pays(x)) && d.reserved == (if Pays(x) then x.hold else r.amount)
    // sleep is asked for exactly without a window, or when the smaller rest does not pay the next interval
    && (d.shouldSleep <==> !Pays(x) || Left(x) * 3600 < q.rate * c.interval)
    && (d.reason.Some? <==> d.shouldSleep)
    && (d.reason == Some(BudgetExhausted) <==>
          d.shouldSleep && x.budget.Some? && (x.budget.value < x.extra || (Pays(x) && x.budget.value <= x.money)))
    // whole minutes the rest pays for
    && (if Pays(x) && Left(x) > 0 && q.rate > 0 then d.remaining * q.rate <= Left(x) * 60 < (d.remaining + 1) * q.rate
        else d.remaining == 0)
  }

  /** The most pressing of the alerts that nobody was given yet. */
  ghost predicate RightAlerts(w: Wallet, c: Command, cal: Calendar, q: Quote, r: Reservation, x: Sight, d: Decision)
    requires c.Protect?
  {
    && (forall t :: d.minuteAlert == Some(t) <==>
          MinutesDue(w, q, r, x, t) && forall s :: MinutesDue(w, q, r, x, s) ==> t <= s)
    && (forall t :: d.budgetAlert == Some(t) <==>
          PercentDue(w, c, cal, q, x, t) && forall s :: PercentDue(w, c, cal, q, x, s) ==> s <= t)
  }

  lemma MinutesAre(w: Wallet, c: Command, cal: Calendar, q: Quote, r: Reservation, x: Sight)
    requires c.Protect? && c.startedAt <= c.observedAt && c.sleepSeconds > 0 && Sees(w, c, cal, q, r, x)
    ensures var reached := GuardMinutes(q, PlanOf(w, c, cal, q, r));
            && (forall t :: t in reached <==> t in {5, 10, 30} && MinutesNow(q, x, t))
            && (forall t :: MinutesDue(w, q, r, x, t) <==> t in reached - NotifiedMinutes(w, r.id))
  {
    PlanIs(w, c, cal, q, r, x);
    ToldIs(w, r.id, q.world, 0);
    hide Sees, Pays, Left, PlanGuard, NotifiedMinutes, ToldMinutes;
  }

  lemma PercentsAre(w: Wallet, c: Command, cal: Calendar, q: Quote, r: Reservation, x: Sight)
    requires c.Protect? && c.startedAt <= c.observedAt && c.sleepSeconds > 0 && Sees(w, c, cal, q, r, x)
    ensures var month := cal(c.observedAt);
            var reached := GuardPercents(w, q, PlanOf(w, c, cal, q, r), month, cal);
            && (forall t :: t in reached <==> t in {50, 80, 100} && PercentNow(w, c, cal, q, x, t))
            && (forall t :: PercentDue(w, c, cal, q, x, t) <==> t in reached - NotifiedPercents(w, q.world, month))
  {
    var month := cal(c.observedAt);
    PlanIs(w, c, cal, q, r, x);
    ToldIs(w, r.id, q.world, month);
    CommittedIs(w, q.world, month, cal);
    hide Sees, Pays, PlanGuard, NotifiedPercents, ToldPercent, CommittedIn, Committed;
    var k := FirstIndex(w.budgets, BudgetOf(q.world));
    assert forall n :: 0 <= n < |w.budgets| ==> (BudgetOf(q.world)(w.budgets[n]) <==> w.budgets[n].world == q.world);
    assert k < |w.budgets| ==> HasBudget(w, q.world, k);
    assert forall n :: HasBudget(w, q.world, n) ==> n == k;
  }

  lemma Minutes(cents: nat, rate: nat)
    requires rate > 0
    ensures var minutes := cents * 60 / rate; minutes * rate <= cents * 60 < (minutes + 1) * rate
  {
  }

  lemma Orders(w: Wallet, c: Command, cal: Calendar, q: Quote, r: Reservation, x: Sight, month: int)
    requires c.Protect? && c.startedAt <= c.observedAt && c.sleepSeconds > 0 && c.interval > 0 && Sees(w, c, cal, q, r, x)
    ensures RightOrder(c, q, r, x, GuardDecision(w, q, r, PlanOf(w, c, cal, q, r), month, c.interval, cal))
  {
    PlanIs(w, c, cal, q, r, x);
    var plan := PlanOf(w, c, cal, q, r);
    if plan.availableAfter > 0 && q.rate > 0 {
      Minutes(plan.availableAfter, q.rate);
    }
    hide Sees, Pays, Left, PlanOf, PlanGuard, GuardMinutes, GuardPercents, NotifiedMinutes, NotifiedPercents;
  }

  lemma Alerts(w: Wallet, c: Command, cal: Calendar, q: Quote, r: Reservation, x: Sight)
    requires c.Protect? && c.startedAt <= c.observedAt && c.sleepSeconds > 0 && c.interval > 0 && Sees(w, c, cal, q, r, x)
    ensures RightAlerts(w, c, cal, q, r, x,
                        GuardDecision(w, q, r, PlanOf(w, c, cal, q, r), cal(c.observedAt), c.interval, cal))
  {
    hide Sees, Pays, Left, PlanOf, PlanGuard, GuardMinutes, GuardPercents, MinutesDue, PercentDue, NotifiedMinutes, NotifiedPercents;
    MinutesAre(w, c, cal, q, r, x);
    PercentsAre(w, c, cal, q, r, x);
  }

  // ----- what is left

  /** The hold covers the window if it was paid; who was told now has been told, and nothing else moves. */
  ghost predicate GuardLeaves(w: Wallet, c: Command, cal: Calendar, q: Quote, r: Reservation, x: Sight, v: Wallet)
    requires c.Protect?
  {
    && v == w.(reservations := v.reservations, guards := v.guards, alerts := v.alerts)
    && |v.reservations| == |w.reservations|
    && (forall n :: 0 <= n < |w.reservations| ==>
          v.reservations[n] == if w.reservations[n].id == r.id then r.(amount := if Pays(x) then x.hold else r.amount)
                               else w.reservations[n])
    && (forall id :: MinutesTold(w, q, r, x, v, id))
    && (forall world, month :: PercentsTold(w, c, cal, q, x, v, world, month))
  }

  ghost predicate MinutesTold(w: Wallet, q: Quote, r: Reservation, x: Sight, v: Wallet, id: Id) {
    forall t :: ToldMinutes(v, id, t) <==> ToldMinutes(w, id, t) || (id == r.id && t in {5, 10, 30} && MinutesNow(q, x, t))
  }

  ghost predicate PercentsTold(w: Wallet, c: Command, cal: Calendar, q: Quote, x: Sight, v: Wallet, world: Id, month: int)
    requires c.Protect?
  {
    forall t :: ToldPercent(v, world, month, t) <==>
      || ToldPercent(w, world, month, t)
      || (world == q.world && month == cal(c.observedAt) && t in {50, 80, 100} && PercentNow(w, c, cal, q, x, t))
  }

  lemma MinutesLeft(w: Wallet, c: Command, cal: Calendar, q: Quote, r: Reservation, x: Sight, id: Id)
    requires c.Protect? && c.startedAt <= c.observedAt && c.sleepSeconds > 0 && Sees(w, c, cal, q, r, x)
    ensures MinutesTold(w, q, r, x, GuardedWallet(w, q, r, PlanOf(w, c, cal, q, r), cal(c.observedAt), cal), id)
  {
    hide Sees, PlanOf, GuardMinutes, GuardPercents, ToldMinutes, ToldPercent, MinutesNow, MinutesDue, Put;
    var plan := PlanOf(w, c, cal, q, r);
    var v := GuardedWallet(w, q, r, plan, cal(c.observedAt), cal);
    ToldIs(w, id, "", 0);
    ToldIs(v, id, "", 0);
    MinutesAre(w, c, cal, q, r, x);
    G.FindPut(w.guards, GuardOf(r.id), Guard(r.id, NotifiedMinutes(w, r.id) + GuardMinutes(q, plan)), GuardOf(id));
  }

  lemma PercentsLeft(w: Wallet, c: Command, cal: Calendar, q: Quote, r: Reservation, x: Sight, world: Id, month: int)
    requires c.Protect? && c.startedAt <= c.observedAt && c.sleepSeconds > 0 && Sees(w, c, cal, q, r, x)
    ensures PercentsTold(w, c, cal, q, x, GuardedWallet(w, q, r, PlanOf(w, c, cal, q, r), cal(c.observedAt), cal), world, month)
  {
    hide Sees, PlanOf, GuardMinutes, GuardPercents, ToldMinutes, ToldPercent, PercentNow, PercentDue, Put;
    var plan, now := PlanOf(w, c, cal, q, r), cal(c.observedAt);
    var v := GuardedWallet(w, q, r, plan, now, cal);
    ToldIs(w, "", world, month);
    ToldIs(v, "", world, month);
    PercentsAre(w, c, cal, q, r, x);
    if Find(w.budgets, BudgetOf(q.world)).None? {
      assert GuardPercents(w, q, plan, now, cal) == {} by { NoBudgetNoPercent(w, q, plan, now, cal); }
    } else {
      G.FindPut(w.alerts, AlertsOf(q.world, now),
               BudgetAlerts(q.world, now, NotifiedPercents(w, q.world, now) + GuardPercents(w, q, plan, now, cal)),
               AlertsOf(world, month));
    }
  }

  lemma NoBudgetNoPercent(w: Wallet, q: Quote, plan: GuardPlan, month: int, cal: Calendar)
    requires Find(w.budgets, BudgetOf(q.world)).None?
    ensures GuardPercents(w, q, plan, month, cal) == {}
  {
  }

  lemma GuardLeft(w: Wallet, c: Command, cal: Calendar, q: Quote, r: Reservation, x: Sight)
    requires WfReservations(w.reservations) && c.Protect? && Guards(w, c, q, r) && Sees(w, c, cal, q, r, x)
    ensures GuardLeaves(w, c, cal, q, r, x, GuardedWallet(w, q, r, PlanOf(w, c, cal, q, r), cal(c.observedAt), cal))
  {
    var plan := PlanOf(w, c, cal, q, r);
    PlanIs(w, c, cal, q, r, x);
    var v := GuardedWallet(w, q, r, plan, cal(c.observedAt), cal);
    hide Sees, PlanOf, GuardMinutes, GuardPercents, ToldMinutes, ToldPercent, MinutesTold, PercentsTold, Put, Pays, WfReservations;
    forall id ensures MinutesTold(w, q, r, x, v, id) {
      MinutesLeft(w, c, cal, q, r, x, id);
    }
    forall world, month ensures PercentsTold(w, c, cal, q, x, v, world, month) {
      PercentsLeft(w, c, cal, q, r, x, world, month);
    }
  }

  // ----- the command

  /** The guard answers exactly a session of a known quote whose own reservation is active. */
  lemma GuardsExactly(w: Wallet, c: Command, env: Env, cal: Calendar)
    requires WellFormed(w) && c.Protect?
    ensures Attempt(w, c, env, cal).Raise? <==> forall q, r :: !Guards(w, c, q, r)
  {
    hide WellFormed, WfQuotes, WfReservations, GuardedWallet, GuardDecision, PlanGuard, Offered, Holding;
    assert WfReservations(w.reservations) && WfQuotes(w.quotes) by { Parts(w); }
    FoundQuote(w, c.quote);
    FoundHold(w, c.reservation);
    var q, r := Find(w.quotes, QuoteIs(c.quote)), Find(w.reservations, ReservationIs(c.reservation));
    if q.Some? && r.Some? && r.value.status.Active? {
      assert Offered(w, c.quote, q.value) && Holding(w, c.reservation, r.value);
      assert Guards(w, c, q.value, r.value) <==> !Attempt(w, c, env, cal).Raise?;
    }
  }

  /** What the guard decides and what it leaves, for everything it may see. */
  lemma GuardExactly(w: Wallet, c: Command, env: Env, cal: Calendar, q: Quote, r: Reservation, x: Sight)
    requires WellFormed(w) && c.Protect? && Guards(w, c, q, r) && Sees(w, c, cal, q, r, x)
    ensures var o := Attempt(w, c, env, cal);
            && !o.Raise? && o.reply.Decided?
            && RightOrder(c, q, r, x, o.reply.decision) && RightAlerts(w, c, cal, q, r, x, o.reply.decision)
            && GuardLeaves(w, c, cal, q, r, x, After(w, o))
  {
    hide WellFormed, WfQuotes, WfReservations, Sees, RightOrder, RightAlerts, GuardLeaves, GuardedWallet, GuardDecision, PlanGuard;
    assert WfReservations(w.reservations) && WfQuotes(w.quotes) by { Parts(w); }
    FoundQuote(w, c.quote);
    FoundHold(w, c.reservation);
    Orders(w, c, cal, q, r, x, cal(c.observedAt));
    Alerts(w, c, cal, q, r, x);
    GuardLeft(w, c, cal, q, r, x);
  }

  /** A contribution under review stops the guard: a window that costs more than the hold is not reserved, the
      hold stays as it is, and sleep is asked for. */
  lemma ReviewStopsGuard(w: Wallet, c: Command, env: Env, cal: Calendar, q: Quote, r: Reservation, x: Sight)
    requires WellFormed(w) && c.Protect? && Guards(w, c, q, r) && Sees(w, c, cal, q, r, x)
    requires UnderReview(w) && x.hold > r.amount
    ensures var o := Attempt(w, c, env, cal);
            && !o.Raise? && o.reply.Decided? && After(w, o).reservations == w.reservations
            && !o.reply.decision.safeSleepReserved && o.reply.decision.reserved == r.amount && o.reply.decision.shouldSleep
  {
    GuardExactly(w, c, env, cal, q, r, x);
    FrozenIsNothing(w);
    hide Attempt, Windowed, RightAlerts, MinutesTold, PercentsTold, Spendable;
    assert forall n :: 0 <= n < |w.reservations| && w.reservations[n].id == r.id ==> w.reservations[n] == r by { OneHold(w, r); }
  }

  lemma OneHold(w: Wallet, r: Reservation)
    requires WellFormed(w) && r in w.reservations
    ensures forall n :: 0 <= n < |w.reservations| && w.reservations[n].id == r.id ==> w.reservations[n] == r
  {
    var i :| 0 <= i < |w.reservations| && w.reservations[i] == r;
    assert forall n :: 0 <= n < |w.reservations| && ReservationId()(w.reservations[n]) == ReservationId()(w.reservations[i]) ==> n == i;
  }
}
