/** World budgets: only a reserve or a guard extension can raise what a World has committed in a
    month, and neither passes the limit. */
module Budgets {
  import opened Base
  import opened Money
  import opened Wallet
  import opened Solvency
  import opened Usages

  /** A reservation made for a quote is held for the quote's World. */
  ghost predicate Tied(w: Wallet) {
    forall r :: r in w.reservations && r.quote.Some? ==> HeldForQuote(w, r.quote.value, r.world)
  }

  ghost predicate HeldForQuote(w: Wallet, quote: Id, world: Option<Id>) {
    exists q :: q in w.quotes && q.id == quote && world == Some(q.world)
  }

  /** Callers pass the World of the quote, and close a reservation with its own quote. */
  ghost predicate TiedCommand(w: Wallet, c: Command) {
    && (c.Reserve? && c.quoteId.Some? ==> HeldForQuote(w, c.quoteId.value, c.worldId))
    && (c.CaptureUsage? ==> forall r :: r in w.reservations && r.id == c.reservation ==> r.quote == Some(c.quote))
  }

  ghost predicate TiedMoves(w: Wallet, moves: seq<Move>, cal: Calendar) {
    forall i :: 0 <= i < |moves| ==> TiedCommand(Run(w, moves[..i], cal), moves[i].command)
  }

  ghost predicate Kept(w: Wallet) { Sound(w) && Accounted(w) && Tied(w) }

  // ----- how the sums move

  lemma SpentAfterPost(w: Wallet, e: Entry, world: Id, month: int, cal: Calendar)
    ensures (forall u :: CreditsUsage(e, u) ==> e.amount >= 0) ==>
              Sum(w.usages, SpentOn(w.entries + [e], world, month, cal)) <= Sum(w.usages, SpentOn(w.entries, world, month, cal))
    ensures (forall u :: !CreditsUsage(e, u)) ==>
              Sum(w.usages, SpentOn(w.entries + [e], world, month, cal)) == Sum(w.usages, SpentOn(w.entries, world, month, cal))
  {
    forall u: Usage ensures Sum(w.entries + [e], CreditOf(u.id)) == Sum(w.entries, CreditOf(u.id)) + CreditOf(u.id)(e) {
      SumAppend(w.entries, e, CreditOf(u.id));
    }
    if forall u :: CreditsUsage(e, u) ==> e.amount >= 0 {
      forall u: Usage ensures SpentOn(w.entries + [e], world, month, cal)(u) <= SpentOn(w.entries, world, month, cal)(u) {
        assert CreditOf(u.id)(e) >= 0;
        assert Sum(w.entries + [e], CreditOf(u.id)) >= Sum(w.entries, CreditOf(u.id));
      }
      SumOrder(w.usages, SpentOn(w.entries + [e], world, month, cal), SpentOn(w.entries, world, month, cal));
    }
    if forall u :: !CreditsUsage(e, u) {
      SumAgree(w.usages, SpentOn(w.entries + [e], world, month, cal), SpentOn(w.entries, world, month, cal));
    }
  }

  /** A usage that no ledger line mentions yet has no credits. */
  lemma NoCreditsYet(w: Wallet, id: Id)
    requires Accounted(w) && forall u :: u in w.usages ==> u.id != id
    ensures Sum(w.entries, CreditOf(id)) == 0
  {
    forall e | e in w.entries ensures CreditOf(id)(e) == 0 {
      assert e.kind.WakeGuarantee? ==> Guarantees(w, e);
      assert e.kind.AvailabilityCredit? ==> Credits(w, e);
    }
    SumZero(w.entries, CreditOf(id));
  }

  // ----- command by command

  lemma PostKeepsCommitted(w: Wallet, e: Entry, world: Id, month: int, cal: Calendar)
    requires forall u :: CreditsUsage(e, u) ==> e.amount >= 0
    ensures Committed(w.(entries := w.entries + [e]), world, month, cal) <= Committed(w, world, month, cal)
  {
    SpentAfterPost(w, e, world, month, cal);
  }

  lemma ReplaceKeepsSpent(w: Wallet, rs: seq<Reservation>, world: Id, month: int, cal: Calendar)
    ensures Committed(w.(reservations := rs), world, month, cal) == Spent(w, world, month, cal) + Sum(rs, HoldIn(world))
  {
  }

  lemma ReleaseLowers(w: Wallet, id: Id, world: Id, month: int, cal: Calendar)
    requires Sound(w)
    ensures Committed(After(w, DoRelease(w, id)), world, month, cal) <= Committed(w, world, month, cal)
  {
    var o := DoRelease(w, id);
    if o.Save? {
      var r := Find(w.reservations, ReservationIs(id)).value;
      ReplaceReservation(w.reservations, r, r.(status := Released));
      ReplaceKeepsSpent(w, o.next.reservations, world, month, cal);
    }
  }

  lemma CaptureLowers(w: Wallet, id: Id, amount: int, key: string, env: Env, world: Id, month: int, cal: Calendar)
    requires Sound(w)
    ensures Committed(After(w, DoCapture(w, id, amount, key, env)), world, month, cal) <= Committed(w, world, month, cal)
  {
    var o := DoCapture(w, id, amount, key, env);
    if o.Save? {
      var r := Find(w.reservations, ReservationIs(id)).value;
      ReplaceReservation(w.reservations, r, r.(status := Captured));
      SpentAfterPost(w, o.reply.entry, world, month, cal);
    }
  }

  lemma AddUsageSpent(w: Wallet, charge: Entry, usage: Usage, world: Id, month: int, cal: Calendar)
    requires Accounted(w) && charge.kind.RuntimeCharge? && usage.amount >= 0
    requires forall u :: u in w.usages ==> u.id != usage.id
    ensures Sum(w.usages + [usage], SpentOn(w.entries + [charge], world, month, cal))
         <= Spent(w, world, month, cal) + (if usage.world == world then usage.amount else 0)
  {
    SpentAfterPost(w, charge, world, month, cal);
    NoCreditsYet(w, usage.id);
    SumAppend(w.entries, charge, CreditOf(usage.id));
    SumAppend(w.usages, usage, SpentOn(w.entries + [charge], world, month, cal));
  }

  lemma TiedReservation(w: Wallet, q: Quote, r: Reservation)
    requires Kept(w) && q in w.quotes && r in w.reservations && r.quote == Some(q.id)
    ensures r.world == Some(q.world)
  {
    assert HeldForQuote(w, q.id, r.world);
    var tied :| tied in w.quotes && tied.id == q.id && r.world == Some(tied.world);
    assert QuoteId()(tied) == QuoteId()(q);
  }

  lemma CaptureUsageLowers(w: Wallet, c: Command, env: Env, world: Id, month: int, cal: Calendar)
    requires Kept(w) && Fresh(w, env) && c.CaptureUsage? && TiedCommand(w, c)
    ensures Committed(After(w, DoCaptureUsage(w, c.quote, c.reservation, c.startedAt, c.releasedAt, c.key, env)), world, month, cal)
         <= Committed(w, world, month, cal)
  {
    hide ChargeFor, BillableSeconds, Spent, SpentOn, CreditOf;
    var o := DoCaptureUsage(w, c.quote, c.reservation, c.startedAt, c.releasedAt, c.key, env);
    if o.Save? {
      var q, r := Find(w.quotes, QuoteIs(c.quote)).value, Find(w.reservations, ReservationIs(c.reservation)).value;
      TiedReservation(w, q, r);
      ReplaceReservation(w.reservations, r, r.(status := Captured));
      AddUsageSpent(w, o.next.entries[|w.entries|], o.reply.usage, world, month, cal);
      SpentIs(o.next, world, month, cal);
    }
  }

  lemma SpentIs(w: Wallet, world: Id, month: int, cal: Calendar)
    ensures Spent(w, world, month, cal) == Sum(w.usages, SpentOn(w.entries, world, month, cal))
  {
  }

  lemma EventKeeps(w: Wallet, c: Command, env: Env, world: Id, month: int, cal: Calendar)
    requires Sound(w) && c.ProcessEvent?
    ensures Committed(After(w, DoEvent(w, c.event, c.kind, c.deposit, c.checkout, c.paid, c.charged, env)), world, month, cal)
         == Committed(w, world, month, cal)
  {
    var o := DoEvent(w, c.event, c.kind, c.deposit, c.checkout, c.paid, c.charged, env);
    EventStep(w, c.event, c.kind, c.deposit, c.checkout, c.paid, c.charged, env, cal);
    if o.Save? {
      EventWrites(w, c, env, cal);
      var d := Find(w.deposits, DepositIs(c.deposit)).value;
      EffectShape(w, d, c.event, c.kind, c.paid, c.charged, env);
      EventLinesCreditNoUsage(w, d, c.event, c.kind, c.paid, c.charged, env);
      hide DoEvent, EventEffect, Attempt;
      var posted := EventEffect(w, d, c.event, c.kind, c.paid, c.charged, env).value.entries;
      if posted == [] {
        assert o.next.entries == w.entries;
      } else {
        SpentAfterPost(w, posted[0], world, month, cal);
      }
    }
  }

  lemma EventLinesCreditNoUsage(w: Wallet, d: Deposit, event: Id, kind: EventKind, paid: Option<int>,
                                charged: Option<int>, env: Env)
    requires EventEffect(w, d, event, kind, paid, charged, env).Some?
    ensures forall e, u :: e in EventEffect(w, d, event, kind, paid, charged, env).value.entries ==> !CreditsUsage(e, u)
  {
    hide Available;
  }

  /** Commands that grant no hold: nothing they do raises what any World has committed in any month. */
  predicate Grants(c: Command) { c.Reserve? || c.ReserveForWake? || c.Protect? }

  lemma OnlyGrantsRaise(w: Wallet, c: Command, env: Env, world: Id, month: int, cal: Calendar)
    requires Kept(w) && Fresh(w, env) && TiedCommand(w, c) && !Grants(c)
    ensures Committed(Step(w, c, env, cal), world, month, cal) <= Committed(w, world, month, cal)
  {
    hide DoCapture, DoCaptureUsage, DoEvent, DoRelease, Committed;
    if c.Capture? {
      CaptureLowers(w, c.reservation, c.amount, c.key, env, world, month, cal);
    } else if c.CaptureUsage? {
      CaptureUsageLowers(w, c, env, world, month, cal);
    } else if c.ProcessEvent? {
      EventKeeps(w, c, env, world, month, cal);
    } else if c.Release? {
      ReleaseLowers(w, c.reservation, world, month, cal);
    } else {
      PostsKeep(w, c, env, world, month, cal);
    }
  }

  lemma PostsKeep(w: Wallet, c: Command, env: Env, world: Id, month: int, cal: Calendar)
    requires Sound(w) && !Grants(c) && !c.Capture? && !c.CaptureUsage? && !c.ProcessEvent? && !c.Release?
    ensures Committed(Step(w, c, env, cal), world, month, cal) <= Committed(w, world, month, cal)
  {
    hide Attempt, Sum;
    if PostsOne(c) {
      var o := Attempt(w, c, env, cal);
      if o.Save? {
        OnePosted(w, c, env, cal);
        CreditsAreNotNegative(w, c, env, cal);
        PostKeepsCommitted(w, o.reply.entry, world, month, cal);
      }
    } else {
      NothingPosted(w, c, env, cal);
    }
  }

  lemma CreditsAreNotNegative(w: Wallet, c: Command, env: Env, cal: Calendar)
    requires Sound(w) && PostsOne(c) && Attempt(w, c, env, cal).Save?
    ensures Attempt(w, c, env, cal).reply.Posted?
    ensures forall u :: CreditsUsage(Attempt(w, c, env, cal).reply.entry, u) ==> Attempt(w, c, env, cal).reply.entry.amount >= 0
  {
    if c.ApplyGuarantee? {
      GuaranteeNotNegative(w, c, env, cal);
    } else if c.ApplyAvailability? {
      hide ChargeFor, CeilSeconds;
      assert Attempt(w, c, env, cal) == DoAvailability(w, c.usage, c.unavailableAt, c.recoveredAt, c.key, env);
    } else {
      OtherCreditsNameNoUsage(w, c, env, cal);
    }
  }

  lemma GuaranteeNotNegative(w: Wallet, c: Command, env: Env, cal: Calendar)
    requires Sound(w) && c.ApplyGuarantee? && Attempt(w, c, env, cal).Save?
    ensures Attempt(w, c, env, cal).reply.Posted? && Attempt(w, c, env, cal).reply.entry.amount >= 0
  {
    assert Attempt(w, c, env, cal) == DoGuarantee(w, c.usage, c.reachedOnline, c.key, env);
    assert Find(w.usages, UsageIs(c.usage)).value in w.usages;
  }

  lemma OtherCreditsNameNoUsage(w: Wallet, c: Command, env: Env, cal: Calendar)
    requires (c.CreditWallet? || c.ChargeStorage? || c.ApplySupport?) && Attempt(w, c, env, cal).Save?
    ensures Attempt(w, c, env, cal).reply.Posted?
    ensures forall u :: !CreditsUsage(Attempt(w, c, env, cal).reply.entry, u)
  {
    hide Available, HalfUp;
  }

  lemma ReserveWithinBudget(w: Wallet, amount: int, purpose: string, key: string, quote: Option<Id>, held: Option<Id>,
                            env: Env,
                            cal: Calendar, world: Id)
    ensures var v := After(w, DoReserve(w, amount, purpose, key, quote, held, env, cal));
            var b := Find(w.budgets, BudgetOf(world));
            && (held != Some(world) ==> forall month :: Committed(v, world, month, cal) == Committed(w, world, month, cal))
            && (b.Some? ==> Committed(v, world, cal(env.now), cal) <= Max(b.value.limit, Committed(w, world, cal(env.now), cal)))
  {
    hide Available, Spent;
    var o := DoReserve(w, amount, purpose, key, quote, held, env, cal);
    if o.Save? {
      SumAppend(w.reservations, o.reply.reservation, HoldIn(world));
      SpentSame(w, o.next);
    }
  }

  lemma SpentSame(w: Wallet, v: Wallet)
    requires v.entries == w.entries && v.usages == w.usages
    ensures forall world, month, cal :: Spent(v, world, month, cal) == Spent(w, world, month, cal)
  {
  }

  lemma GuardWithinBudget(w: Wallet, q: Quote, r: Reservation, observedAt: Time, seconds: nat, interval: nat,
                          cal: Calendar, world: Id)
    requires Sound(w) && r in w.reservations && r.status.Active? && r.world == Some(q.world)
    ensures var v := After(w, Guarded(w, q, r, observedAt, seconds, interval, cal));
            var b := Find(w.budgets, BudgetOf(world));
            && (q.world != world ==> forall month :: Committed(v, world, month, cal) == Committed(w, world, month, cal))
            && (b.Some? ==> Committed(v, world, cal(observedAt), cal) <= Max(b.value.limit, Committed(w, world, cal(observedAt), cal)))
  {
    hide Available, Put, GuardMinutes, GuardPercents, Spent, GuardDecision, HoldFor;
    var plan := PlanGuard(w, q, r, observedAt, seconds, cal);
    var v := After(w, Guarded(w, q, r, observedAt, seconds, interval, cal));
    ReplaceReservation(w.reservations, r, r.(amount := plan.reserved));
    SpentSame(w, v);
  }

  /** What a guard that extends leaves in the wallet and in the budget is at least what it reports. */
  lemma GuardLeaves(w: Wallet, q: Quote, r: Reservation, observedAt: Time, seconds: nat, interval: nat, later: Time,
                    cal: Calendar)
    requires Sound(w) && r in w.reservations && r.status.Active? && r.world == Some(q.world)
    requires cal(later) == cal(observedAt)
    requires PlanGuard(w, q, r, observedAt, seconds, cal).canExtend
    ensures var v, plan := After(w, Guarded(w, q, r, observedAt, seconds, interval, cal)), PlanGuard(w, q, r, observedAt, seconds, cal);
            var budget := BudgetAvailable(v, q.world, later, cal);
            && Available(v) >= plan.availableAfter && (budget.Some? ==> budget.value >= plan.availableAfter)
            && plan.reserved == HoldFor(q.rate, seconds)
  {
    hide Put, GuardMinutes, GuardPercents, Spent, GuardDecision, HoldFor;
    var plan := PlanGuard(w, q, r, observedAt, seconds, cal);
    var v := After(w, Guarded(w, q, r, observedAt, seconds, interval, cal));
    ReplaceReservation(w.reservations, r, r.(amount := plan.reserved));
    SpentSame(w, v);
  }

  /** A guard that does not ask for sleep can be repeated one interval later: with nothing else spent
      meanwhile, in the same month, the next guard gets its window. */
  lemma NextGuardExtends(w: Wallet, q: Quote, r: Reservation, observedAt: Time, seconds: nat, interval: nat,
                         later: Time, cal: Calendar)
    requires Sound(w) && r in w.reservations && r.status.Active? && r.world == Some(q.world)
    requires cal(later) == cal(observedAt)
    requires !Guarded(w, q, r, observedAt, seconds, interval, cal).reply.decision.shouldSleep
    ensures var v := After(w, Guarded(w, q, r, observedAt, seconds, interval, cal));
            var held := r.(amount := HoldFor(q.rate, seconds));
            Guarded(v, q, held, later, seconds + interval, interval, cal).reply.decision.safeSleepReserved
  {
    hide Put, GuardMinutes, GuardPercents, Available, BudgetAvailable, HoldFor;
    var plan := PlanGuard(w, q, r, observedAt, seconds, cal);
    GuardLeaves(w, q, r, observedAt, seconds, interval, later, cal);
    HoldSubadditive(q.rate, seconds, interval);
    IntervalFits(q.rate, interval, plan.availableAfter);
  }

  lemma IntervalFits(rate: nat, interval: nat, cents: int)
    requires cents * HOUR_SECONDS >= rate * interval
    ensures HoldFor(rate, interval) <= cents
  {
  }

  /** The budget figure that a grant for this World is checked against is this month's. */
  ghost predicate ObservedIn(w: Wallet, m: Move, cal: Calendar, world: Id, month: int) {
    var c := m.command;
    && !(c.SetBudget? && c.world == world)
    && (c.Reserve? && c.worldId == Some(world) ==> cal(m.env.now) == month)
    && (c.ReserveForWake? && Find(w.quotes, QuoteIs(c.quote)).Some? && Find(w.quotes, QuoteIs(c.quote)).value.world == world
        ==> cal(m.env.now) == month)
    && (c.Protect? && Find(w.quotes, QuoteIs(c.quote)).Some? && Find(w.quotes, QuoteIs(c.quote)).value.world == world
        ==> cal(c.observedAt) == month)
  }

  lemma ProtectWithinBudget(w: Wallet, m: Move, cal: Calendar, world: Id, month: int)
    requires Kept(w) && m.command.Protect? && ObservedIn(w, m, cal, world, month)
    requires Find(w.budgets, BudgetOf(world)).Some?
    ensures var c := m.command;
            var v := After(w, DoProtect(w, c.quote, c.reservation, c.startedAt, c.observedAt, c.sleepSeconds, c.interval, cal));
            Committed(v, world, month, cal) <= Max(Find(w.budgets, BudgetOf(world)).value.limit, Committed(w, world, month, cal))
  {
    hide Guarded, Committed;
    var c := m.command;
    var o := DoProtect(w, c.quote, c.reservation, c.startedAt, c.observedAt, c.sleepSeconds, c.interval, cal);
    if o.Save? {
      var q, r := Find(w.quotes, QuoteIs(c.quote)).value, Find(w.reservations, ReservationIs(c.reservation)).value;
      TiedReservation(w, q, r);
      GuardWithinBudget(w, q, r, c.observedAt, CeilSeconds(c.observedAt - c.startedAt) + c.sleepSeconds, c.interval,
                        cal, world);
    }
  }

  lemma WakeWithinBudget(w: Wallet, m: Move, cal: Calendar, world: Id, month: int)
    requires m.command.ReserveForWake? && ObservedIn(w, m, cal, world, month)
    requires Find(w.budgets, BudgetOf(world)).Some?
    ensures Committed(After(w, DoReserveForWake(w, m.command.quote, m.command.key, m.env, cal)), world, month, cal)
         <= Max(Find(w.budgets, BudgetOf(world)).value.limit, Committed(w, world, month, cal))
  {
    hide DoReserve, Committed;
    var q := Find(w.quotes, QuoteIs(m.command.quote));
    if q.Some? {
      ReserveWithinBudget(w, HoldFor(q.value.rate, WAKE_SECONDS), "wake:" + q.value.world, m.command.key,
                          Some(q.value.id), Some(q.value.world), m.env, cal, world);
    }
  }

  /** No step takes a World past its limit in the observed month, unless it was already past it. */
  lemma StepWithinBudget(w: Wallet, m: Move, cal: Calendar, world: Id, month: int)
    requires Kept(w) && Fresh(w, m.env) && TiedCommand(w, m.command) && ObservedIn(w, m, cal, world, month)
    requires Find(w.budgets, BudgetOf(world)).Some?
    ensures Committed(Step(w, m.command, m.env, cal), world, month, cal)
         <= Max(Find(w.budgets, BudgetOf(world)).value.limit, Committed(w, world, month, cal))
  {
    var c := m.command;
    if !Grants(c) {
      hide Attempt, Committed;
      OnlyGrantsRaise(w, c, m.env, world, month, cal);
    } else if c.Protect? {
      hide DoProtect, Committed;
      ProtectWithinBudget(w, m, cal, world, month);
    } else if c.ReserveForWake? {
      hide DoReserveForWake, Committed;
      WakeWithinBudget(w, m, cal, world, month);
    } else {
      hide DoReserve, Committed;
      ReserveWithinBudget(w, c.amount, c.purpose, c.key, c.quoteId, c.worldId, m.env, cal, world);
    }
  }

  // ----- what the run keeps

  lemma OtherBudgetsStay(w: Wallet, m: Move, cal: Calendar, world: Id)
    requires !(m.command.SetBudget? && m.command.world == world)
    ensures Find(Step(w, m.command, m.env, cal).budgets, BudgetOf(world)) == Find(w.budgets, BudgetOf(world))
  {
    var c := m.command;
    if c.SetBudget? {
      var o := DoSetBudget(w, c.world, c.limit, c.key, m.env);
      if o.Save? {
        assert o.next.budgets == Put(w.budgets, BudgetOf(c.world), o.reply.budget);
        BudgetPut(w.budgets, c.world, o.reply.budget, world);
      }
    } else {
      OthersKeepBudgets(w, c, m.env, cal);
    }
  }

  lemma OthersKeepBudgets(w: Wallet, c: Command, env: Env, cal: Calendar)
    requires !c.SetBudget?
    ensures Step(w, c, env, cal).budgets == w.budgets
  {
    AlertsAndBudgetsStay(w, c, env, cal);
  }

  lemma BudgetPut(bs: seq<Budget>, changed: Id, b: Budget, world: Id)
    requires b.world == changed && changed != world
    ensures Find(Put(bs, BudgetOf(changed), b), BudgetOf(world)) == Find(bs, BudgetOf(world))
  {
    var cs := Put(bs, BudgetOf(changed), b);
    var i := FirstIndex(bs, BudgetOf(world));
    assert forall k :: 0 <= k < i ==> !BudgetOf(world)(bs[k]) && !BudgetOf(world)(cs[k]);
    if i < |bs| {
      assert cs[i] == bs[i];
    }
  }

  lemma TiedEvolves(w: Wallet, v: Wallet)
    requires Tied(w) && Evolves(w, v)
    requires forall i :: |w.reservations| <= i < |v.reservations| && v.reservations[i].quote.Some? ==>
               HeldForQuote(w, v.reservations[i].quote.value, v.reservations[i].world)
    ensures Tied(v)
  {
    forall r | r in v.reservations && r.quote.Some? ensures HeldForQuote(v, r.quote.value, r.world) {
      var i :| 0 <= i < |v.reservations| && v.reservations[i] == r;
      if i < |w.reservations| {
        assert Continues(w.reservations[i], r);
        assert w.reservations[i] in w.reservations;
      }
      var q :| q in w.quotes && q.id == r.quote.value && r.world == Some(q.world);
      assert q in v.quotes;
    }
  }

  lemma AddedReservations(w: Wallet, c: Command, env: Env, cal: Calendar)
    requires TiedCommand(w, c) && Attempt(w, c, env, cal).Save?
    ensures var v := Attempt(w, c, env, cal).next;
            forall i :: |w.reservations| <= i < |v.reservations| && v.reservations[i].quote.Some? ==>
              HeldForQuote(w, v.reservations[i].quote.value, v.reservations[i].world)
  {
    hide Attempt, HeldForQuote;
    if HoldsCommand(c) {
      HeldReservations(w, c, env, cal);
    } else if PostsOne(c) {
      OnePosted(w, c, env, cal);
    } else if c.ProcessEvent? {
      EventWrites(w, c, env, cal);
    } else {
      NothingPosted(w, c, env, cal);
    }
  }

  lemma HeldReservations(w: Wallet, c: Command, env: Env, cal: Calendar)
    requires TiedCommand(w, c) && HoldsCommand(c) && Attempt(w, c, env, cal).Save?
    ensures var v := Attempt(w, c, env, cal).next;
            forall i :: |w.reservations| <= i < |v.reservations| && v.reservations[i].quote.Some? ==>
              HeldForQuote(w, v.reservations[i].quote.value, v.reservations[i].world)
  {
    hide Available, BudgetAvailable, GuardMinutes, GuardPercents, PlanGuard, GuardDecision, HoldFor, ChargeFor, Put;
  }

  lemma StepKept(w: Wallet, c: Command, env: Env, cal: Calendar)
    requires Kept(w) && Fresh(w, env) && TiedCommand(w, c)
    ensures Kept(Step(w, c, env, cal))
  {
    hide Attempt;
    AttemptGood(w, c, env, cal);
    AttemptAccounted(w, c, env, cal);
    if Attempt(w, c, env, cal).Save? {
      AddedReservations(w, c, env, cal);
      TiedEvolves(w, Attempt(w, c, env, cal).next);
    }
  }

  ghost predicate ObservedMoves(w: Wallet, moves: seq<Move>, cal: Calendar, world: Id, month: int) {
    forall i :: 0 <= i < |moves| ==> ObservedIn(Run(w, moves[..i], cal), moves[i], cal, world, month)
  }

  lemma PrefixMoves(w: Wallet, moves: seq<Move>, n: nat, cal: Calendar, world: Id, month: int)
    requires n <= |moves| && TiedMoves(w, moves, cal) && ObservedMoves(w, moves, cal, world, month)
    ensures TiedMoves(w, moves[..n], cal) && ObservedMoves(w, moves[..n], cal, world, month)
  {
    hide TiedCommand, ObservedIn;
    forall i | 0 <= i < n
      ensures TiedCommand(Run(w, moves[..n][..i], cal), moves[..n][i].command)
      ensures ObservedIn(Run(w, moves[..n][..i], cal), moves[..n][i], cal, world, month)
    {
      assert moves[..n][..i] == moves[..i];
    }
  }

  /** Over a whole run whose grants for the World are observed in one month and whose budget stays the
      same, spending and holds never pass the limit, or the figure they started from. */
  lemma {:induction false} RunWithinBudget(w: Wallet, moves: seq<Move>, cal: Calendar, world: Id, month: int, b: Budget)
    requires Kept(w) && FreshMoves(w, moves, cal) && TiedMoves(w, moves, cal)
    requires Find(w.budgets, BudgetOf(world)) == Some(b)
    requires ObservedMoves(w, moves, cal, world, month)
    ensures var v := Run(w, moves, cal);
            && Kept(v) && Find(v.budgets, BudgetOf(world)) == Some(b)
            && Committed(v, world, month, cal) <= Max(b.limit, Committed(w, world, month, cal))
  {
    hide Step, Committed, Kept, TiedCommand, Fresh;
    if |moves| > 0 {
      var n := |moves| - 1;
      var before := Run(w, moves[..n], cal);
      FreshPrefix(w, moves, n, cal);
      PrefixMoves(w, moves, n, cal, world, month);
      RunWithinBudget(w, moves[..n], cal, world, month, b);
      StepWithinBudget(before, moves[n], cal, world, month);
      OtherBudgetsStay(before, moves[n], cal, world);
      StepKept(before, moves[n].command, moves[n].env, cal);
    }
  }
}
