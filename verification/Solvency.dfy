/** What every billing command keeps: a funded wallet, an append-only ledger, final reservations. */
module Solvency {
  import opened Base
  import opened Money
  import opened Wallet

  // ----- well-formed aggregates

  function EntryId(): Entry -> Id { (e: Entry) => e.id }
  function ReservationId(): Reservation -> Id { (r: Reservation) => r.id }
  function ReservationKey(): Reservation -> string { (r: Reservation) => r.key }
  function QuoteId(): Quote -> Id { (q: Quote) => q.id }
  function QuoteKey(): Quote -> string { (q: Quote) => q.key }
  function UsageId(): Usage -> Id { (u: Usage) => u.id }
  function UsageKey(): Usage -> string { (u: Usage) => u.key }
  function DepositId(): Deposit -> Id { (d: Deposit) => d.id }
  function EventId(): PaymentEvent -> Id { (e: PaymentEvent) => e.id }

  ghost predicate WfReservations(rs: seq<Reservation>) {
    Distinct(rs, ReservationId()) && Distinct(rs, ReservationKey()) && forall r :: r in rs ==> r.amount >= 0
  }
  ghost predicate WfQuotes(qs: seq<Quote>) {
    Distinct(qs, QuoteId()) && Distinct(qs, QuoteKey()) && forall q :: q in qs ==> q.rate > 0
  }
  ghost predicate WfUsages(us: seq<Usage>) {
    Distinct(us, UsageId()) && Distinct(us, UsageKey()) && forall u :: u in us ==> u.amount >= 0
  }
  ghost predicate WfDeposits(ds: seq<Deposit>) {
    Distinct(ds, DepositId()) && forall d :: d in ds ==> d.amount > 0
  }

  ghost predicate WellFormed(w: Wallet) {
    && WfReservations(w.reservations) && WfQuotes(w.quotes) && WfUsages(w.usages) && WfDeposits(w.deposits)
    && Distinct(w.entries, EntryId()) && Distinct(w.events, EventId())
  }

  /** The identifiers of an attempt name nothing yet. */
  ghost predicate Fresh(w: Wallet, env: Env) {
    && env.id != env.id2
    && (forall e :: e in w.entries ==> e.id != env.id)
    && (forall r :: r in w.reservations ==> r.id != env.id)
    && (forall q :: q in w.quotes ==> q.id != env.id)
    && (forall u :: u in w.usages ==> u.id != env.id2)
    && (forall d :: d in w.deposits ==> d.id != env.id)
  }

  ghost predicate FreshMoves(w: Wallet, moves: seq<Move>, cal: Calendar) {
    forall i :: 0 <= i < |moves| ==> Fresh(Run(w, moves[..i], cal), moves[i].env)
  }

  // ----- what no command undoes

  ghost predicate Evolves(w: Wallet, v: Wallet) {
    && w.entries <= v.entries && w.quotes <= v.quotes && w.usages <= v.usages && w.events <= v.events
    && |w.reservations| <= |v.reservations| && |w.deposits| <= |v.deposits|
    && (forall i :: 0 <= i < |w.reservations| ==> Continues(w.reservations[i], v.reservations[i]))
    && (forall i :: 0 <= i < |w.deposits| ==> SameContribution(w.deposits[i], v.deposits[i]))
  }

  /** A contribution keeps who pays what under which key. */
  predicate SameContribution(d: Deposit, e: Deposit) {
    d.(checkout := e.checkout, status := e.status, refund := e.refund) == e
  }

  /** A reservation keeps its identity; once captured or released it never changes. */
  predicate Continues(r: Reservation, s: Reservation) {
    && r.(amount := s.amount, status := s.status) == s
    && (!r.status.Active? ==> s == r)
  }

  lemma EvolvesTransitive(u: Wallet, v: Wallet, w: Wallet)
    requires Evolves(u, v) && Evolves(v, w)
    ensures Evolves(u, w)
  {
    forall i | 0 <= i < |u.reservations| ensures Continues(u.reservations[i], w.reservations[i]) {
      assert Continues(u.reservations[i], v.reservations[i]) && Continues(v.reservations[i], w.reservations[i]);
    }
  }

  // ----- one reservation or one contribution replaced

  lemma ReplaceReservation(rs: seq<Reservation>, r: Reservation, s: Reservation)
    requires WfReservations(rs) && r in rs
    requires s.id == r.id && s.key == r.key && s.amount >= 0
    ensures var ts := Substitute(rs, ReservationIs(r.id), s);
            && WfReservations(ts) && |ts| == |rs|
            && Sum(ts, HoldOf()) == Sum(rs, HoldOf()) - HoldOf()(r) + HoldOf()(s)
            && (forall world :: Sum(ts, HoldIn(world)) == Sum(rs, HoldIn(world)) - HoldIn(world)(r) + HoldIn(world)(s))
            && (forall i :: 0 <= i < |rs| ==> ts[i] == if rs[i] == r then s else rs[i])
  {
    var i :| 0 <= i < |rs| && rs[i] == r;
    assert forall j :: 0 <= j < |rs| ==> (ReservationId()(rs[j]) == ReservationId()(rs[i]) <==> j == i);
    SubstituteOne(rs, ReservationIs(r.id), i, s);
    DistinctUpdate(rs, i, s, ReservationId());
    DistinctUpdate(rs, i, s, ReservationKey());
    SumUpdate(rs, i, s, HoldOf());
    forall world ensures Sum(rs[i := s], HoldIn(world)) == Sum(rs, HoldIn(world)) - HoldIn(world)(r) + HoldIn(world)(s) {
      SumUpdate(rs, i, s, HoldIn(world));
    }
  }

  lemma ReplaceDeposit(ds: seq<Deposit>, d: Deposit, d': Deposit)
    requires WfDeposits(ds) && d in ds && d'.id == d.id && d'.amount == d.amount
    ensures var ts := Substitute(ds, DepositIs(d.id), d');
            && WfDeposits(ts) && |ts| == |ds|
            && (forall i :: 0 <= i < |ds| ==> ts[i] == if ds[i] == d then d' else ds[i])
  {
    var i :| 0 <= i < |ds| && ds[i] == d;
    assert forall j :: 0 <= j < |ds| ==> (DepositId()(ds[j]) == DepositId()(ds[i]) <==> j == i);
    SubstituteOne(ds, DepositIs(d.id), i, d');
    DistinctUpdate(ds, i, d', DepositId());
  }

  // ----- solvency, command by command

  ghost predicate Sound(w: Wallet) { WellFormed(w) && Uncommitted(w) >= 0 }

  /** A save from `w`: sound again, and nothing final undone. */
  ghost predicate Good(w: Wallet, o: Outcome) {
    o.Save? ==> Sound(o.next) && Evolves(w, o.next)
  }

  lemma PostGood(w: Wallet, e: Entry)
    requires Sound(w) && Uncommitted(w) + e.amount >= 0
    requires forall x :: x in w.entries ==> x.id != e.id
    ensures Good(w, Post(w, e))
  {
    SumAppend(w.entries, e, AmountOf());
    DistinctAppend(w.entries, e, EntryId());
  }

  lemma AvailableIsFunded(w: Wallet)
    requires Uncommitted(w) >= 0
    ensures 0 <= Available(w) <= Uncommitted(w)
  {
  }

  lemma ReserveGood(w: Wallet, amount: int, purpose: string, key: string, quote: Option<Id>, world: Option<Id>,
                    env: Env, cal: Calendar)
    requires Sound(w) && Fresh(w, env)
    ensures Good(w, DoReserve(w, amount, purpose, key, quote, world, env, cal))
  {
    var o := DoReserve(w, amount, purpose, key, quote, world, env, cal);
    if o.Save? {
      var r := o.reply.reservation;
      SumAppend(w.reservations, r, HoldOf());
      DistinctAppend(w.reservations, r, ReservationId());
      assert forall x :: x in w.reservations ==> !ReservationKeyed(key)(x);
      DistinctAppend(w.reservations, r, ReservationKey());
    }
  }

  lemma ReleaseGood(w: Wallet, id: Id)
    requires Sound(w)
    ensures Good(w, DoRelease(w, id))
  {
    var o := DoRelease(w, id);
    if o.Save? {
      var r := Find(w.reservations, ReservationIs(id)).value;
      ReplaceReservation(w.reservations, r, r.(status := Released));
    }
  }

  lemma CaptureGood(w: Wallet, id: Id, amount: int, key: string, env: Env)
    requires Sound(w) && Fresh(w, env)
    ensures Good(w, DoCapture(w, id, amount, key, env))
  {
    var o := DoCapture(w, id, amount, key, env);
    if o.Save? {
      var r := Find(w.reservations, ReservationIs(id)).value;
      ReplaceReservation(w.reservations, r, r.(status := Captured));
      SumAppend(w.entries, o.reply.entry, AmountOf());
      DistinctAppend(w.entries, o.reply.entry, EntryId());
    }
  }

  lemma CaptureUsageGood(w: Wallet, quote: Id, id: Id, startedAt: Time, releasedAt: Time, key: string, env: Env)
    requires Sound(w) && Fresh(w, env)
    ensures Good(w, DoCaptureUsage(w, quote, id, startedAt, releasedAt, key, env))
  {
    hide BillableSeconds, HoldFor;
    var o := DoCaptureUsage(w, quote, id, startedAt, releasedAt, key, env);
    if o.Save? {
      var r := Find(w.reservations, ReservationIs(id)).value;
      var charge := o.next.entries[|w.entries|];
      var usage := o.reply.usage;
      ReplaceReservation(w.reservations, r, r.(status := Captured));
      SumAppend(w.entries, charge, AmountOf());
      DistinctAppend(w.entries, charge, EntryId());
      DistinctAppend(w.usages, usage, UsageId());
      assert forall x :: x in w.usages ==> !UsageKeyed(key)(x);
      DistinctAppend(w.usages, usage, UsageKey());
    }
  }

  lemma GuardGood(w: Wallet, q: Quote, r: Reservation, observedAt: Time, seconds: nat, interval: nat, cal: Calendar)
    requires Sound(w) && r in w.reservations && r.status.Active?
    ensures Good(w, Guarded(w, q, r, observedAt, seconds, interval, cal))
  {
    hide Available, GuardMinutes, GuardPercents, GuardDecision, Put, BudgetAvailable;
    var plan := PlanGuard(w, q, r, observedAt, seconds, cal);
    ReplaceReservation(w.reservations, r, r.(amount := plan.reserved));
    AvailableIsFunded(w);
  }

  lemma SetDepositGood(w: Wallet, d: Deposit, d': Deposit)
    requires Sound(w) && d in w.deposits && SameContribution(d, d')
    ensures Sound(SetDeposit(w, d')) && Evolves(w, SetDeposit(w, d'))
  {
    ReplaceDeposit(w.deposits, d, d');
  }

  /** An event posts nothing or one entry that the wallet can fund, and keeps who the contribution is. */
  lemma EffectShape(w: Wallet, d: Deposit, event: Id, kind: EventKind, paid: Option<int>, charged: Option<int>,
                    env: Env)
    requires Uncommitted(w) >= 0 && d.amount > 0
    requires EventEffect(w, d, event, kind, paid, charged, env).Some?
    ensures var effect := EventEffect(w, d, event, kind, paid, charged, env).value;
            && SameContribution(d, effect.deposit)
            && (effect.entries == []
                || (&& effect.entries == [effect.entries[0]] && effect.entries[0].id == env.id
                    && Uncommitted(w) + effect.entries[0].amount >= 0))
  {
    AvailableIsFunded(w);
  }

  lemma EventGood(w: Wallet, event: Id, kind: EventKind, id: Id, checkout: Id, paid: Option<int>, charged: Option<int>,
                  env: Env)
    requires Sound(w) && Fresh(w, env)
    ensures Good(w, DoEvent(w, event, kind, id, checkout, paid, charged, env))
  {
    var o := DoEvent(w, event, kind, id, checkout, paid, charged, env);
    if o.Save? {
      var d := Find(w.deposits, DepositIs(id)).value;
      var effect := EventEffect(w, d, event, kind, paid, charged, env).value;
      EffectShape(w, d, event, kind, paid, charged, env);
      ReplaceDeposit(w.deposits, d, effect.deposit);
      assert forall x :: x in w.events ==> !EventIs(event)(x);
      DistinctAppend(w.events, o.reply.event, EventId());
      if effect.entries == [] {
        assert o.next.entries == w.entries;
      } else {
        SumAppend(w.entries, effect.entries[0], AmountOf());
        DistinctAppend(w.entries, effect.entries[0], EntryId());
      }
    }
  }

  lemma QuoteGood(w: Wallet, world: Id, profile: string, rate: int, key: string, env: Env)
    requires Sound(w) && Fresh(w, env)
    ensures Good(w, DoCreateQuote(w, world, profile, rate, key, env))
  {
    var o := DoCreateQuote(w, world, profile, rate, key, env);
    if o.Save? {
      DistinctAppend(w.quotes, o.reply.quote, QuoteId());
      assert forall x :: x in w.quotes ==> !QuoteKeyed(key)(x);
      DistinctAppend(w.quotes, o.reply.quote, QuoteKey());
    }
  }

  lemma StartDepositGood(w: Wallet, payer: Id, package: Id, amount: int, key: string, env: Env)
    requires Sound(w) && Fresh(w, env)
    ensures Good(w, DoStartDeposit(w, payer, package, amount, key, env))
  {
    var o := DoStartDeposit(w, payer, package, amount, key, env);
    if o.Save? {
      DistinctAppend(w.deposits, o.reply.deposit, DepositId());
    }
  }

  lemma BudgetGood(w: Wallet, world: Id, limit: int, key: string, env: Env)
    requires Sound(w)
    ensures Good(w, DoSetBudget(w, world, limit, key, env))
  {
  }

  lemma StartGood(w: Wallet, c: Command, env: Env, cal: Calendar)
    requires Sound(w) && Fresh(w, env) && (c.CreateQuote? || c.StartDeposit? || c.SetBudget?)
    ensures Good(w, Attempt(w, c, env, cal))
  {
    hide DoCreateQuote, DoStartDeposit, DoSetBudget, Good;
    if c.CreateQuote? {
      QuoteGood(w, c.world, c.profile, c.rate, c.key, env);
    } else if c.StartDeposit? {
      StartDepositGood(w, c.payer, c.package, c.amount, c.key, env);
    } else {
      BudgetGood(w, c.world, c.limit, c.key, env);
    }
  }

  lemma PostIsFunded(w: Wallet, c: Command, env: Env, cal: Calendar)
    requires Sound(w) && PostsOne(c) && Attempt(w, c, env, cal).Save?
    ensures var o := Attempt(w, c, env, cal);
            o.reply.Posted? && o.reply.entry.id == env.id && Uncommitted(w) + o.reply.entry.amount >= 0
  {
    AvailableIsFunded(w);
    hide Available, Uncommitted, ChargeFor, HalfUp, CeilSeconds, Distinct, WfReservations, WfQuotes, WfDeposits;
  }

  lemma CreditGood(w: Wallet, c: Command, env: Env, cal: Calendar)
    requires Sound(w) && Fresh(w, env)
    requires c.CreditWallet? || c.ChargeStorage? || c.ApplyGuarantee? || c.ApplyAvailability? || c.ApplySupport?
    ensures Good(w, Attempt(w, c, env, cal))
  {
    var o := Attempt(w, c, env, cal);
    hide Attempt;
    if o.Save? {
      OnePosted(w, c, env, cal);
      PostIsFunded(w, c, env, cal);
      PostGood(w, o.reply.entry);
    }
  }

  lemma WakeHoldGood(w: Wallet, quote: Id, key: string, env: Env, cal: Calendar)
    requires Sound(w) && Fresh(w, env)
    ensures Good(w, DoReserveForWake(w, quote, key, env, cal))
  {
    hide DoReserve;
    var q := Find(w.quotes, QuoteIs(quote));
    if q.Some? {
      ReserveGood(w, HoldFor(q.value.rate, WAKE_SECONDS), "wake:" + q.value.world, key, Some(q.value.id),
                  Some(q.value.world), env, cal);
    }
  }

  lemma ProtectGood(w: Wallet, quote: Id, id: Id, startedAt: Time, observedAt: Time, sleepSeconds: int, interval: int,
                    cal: Calendar)
    requires Sound(w)
    ensures Good(w, DoProtect(w, quote, id, startedAt, observedAt, sleepSeconds, interval, cal))
  {
    hide Guarded;
    var q, r := Find(w.quotes, QuoteIs(quote)), Find(w.reservations, ReservationIs(id));
    if observedAt >= startedAt && sleepSeconds > 0 && interval > 0 && q.Some? && r.Some? {
      var seconds := CeilSeconds(observedAt - startedAt) + sleepSeconds;
      if r.value.quote == Some(q.value.id) && r.value.status.Active? {
        assert DoProtect(w, quote, id, startedAt, observedAt, sleepSeconds, interval, cal)
            == Guarded(w, q.value, r.value, observedAt, seconds, interval, cal);
        GuardGood(w, q.value, r.value, observedAt, seconds, interval, cal);
      }
    }
  }

  /** Every command, on every wallet that is sound, leaves it sound and undoes nothing final. */
  lemma AttemptGood(w: Wallet, c: Command, env: Env, cal: Calendar)
    requires Sound(w) && Fresh(w, env)
    ensures Good(w, Attempt(w, c, env, cal))
  {
    hide DoReserve, DoReserveForWake, DoProtect, DoRelease, DoCapture, DoCaptureUsage, DoEvent, DoAttach, DoReconcile;
    hide DoRecordRefund;
    hide DoCredit, DoChargeStorage, DoGuarantee, DoAvailability, DoSupport, DoCreateQuote, DoStartDeposit, DoSetBudget;
    if c.CreateQuote? || c.StartDeposit? || c.SetBudget? {
      StartGood(w, c, env, cal);
    } else if c.ReserveForWake? {
      WakeHoldGood(w, c.quote, c.key, env, cal);
    } else if c.Protect? {
      ProtectGood(w, c.quote, c.reservation, c.startedAt, c.observedAt, c.sleepSeconds, c.interval, cal);
    } else if c.Reserve? {
      ReserveGood(w, c.amount, c.purpose, c.key, c.quoteId, c.worldId, env, cal);
    } else if c.Release? {
      ReleaseGood(w, c.reservation);
    } else if c.Capture? {
      CaptureGood(w, c.reservation, c.amount, c.key, env);
    } else if c.CaptureUsage? {
      CaptureUsageGood(w, c.quote, c.reservation, c.startedAt, c.releasedAt, c.key, env);
    } else if c.ProcessEvent? {
      EventGood(w, c.event, c.kind, c.deposit, c.checkout, c.paid, c.charged, env);
    } else if c.AttachCheckout? || c.ReconcileCheckout? || c.RecordRefund? {
      DepositCommandGood(w, c, env, cal);
    } else {
      CreditGood(w, c, env, cal);
    }
  }

  lemma DepositCommandGood(w: Wallet, c: Command, env: Env, cal: Calendar)
    requires Sound(w) && (c.AttachCheckout? || c.ReconcileCheckout? || c.RecordRefund?)
    ensures Good(w, Attempt(w, c, env, cal))
  {
    var o := Attempt(w, c, env, cal);
    if o.Save? {
      SetDepositGood(w, Find(w.deposits, DepositIs(c.deposit)).value, o.reply.deposit);
    }
  }

  // ----- what a command leaves alone

  predicate HoldsCommand(c: Command) {
    c.Reserve? || c.ReserveForWake? || c.Protect? || c.Release? || c.Capture? || c.CaptureUsage?
  }

  predicate PostsOne(c: Command) {
    c.CreditWallet? || c.ChargeStorage? || c.ApplyGuarantee? || c.ApplyAvailability? || c.ApplySupport?
  }

  predicate PostsNothing(c: Command) { !HoldsCommand(c) && !PostsOne(c) && !c.ProcessEvent? }

  lemma OnePosted(w: Wallet, c: Command, env: Env, cal: Calendar)
    requires PostsOne(c) && Attempt(w, c, env, cal).Save?
    ensures var o := Attempt(w, c, env, cal); o.reply.Posted? && o == Post(w, o.reply.entry)
  {
    hide Available, ChargeFor, HalfUp;
  }

  lemma NothingPosted(w: Wallet, c: Command, env: Env, cal: Calendar)
    requires PostsNothing(c)
    ensures var v := Step(w, c, env, cal);
            && v.entries == w.entries && v.reservations == w.reservations && v.usages == w.usages
            && v.guards == w.guards && v.alerts == w.alerts && (!c.SetBudget? ==> v.budgets == w.budgets)
  {
    hide Available;
  }

  lemma HoldsFrame(w: Wallet, c: Command, env: Env, cal: Calendar)
    requires HoldsCommand(c)
    ensures var v := Step(w, c, env, cal);
            v.budgets == w.budgets && v.deposits == w.deposits && (!c.Protect? ==> v.guards == w.guards && v.alerts == w.alerts)
  {
    hide Available, BudgetAvailable, PlanGuard, GuardMinutes, GuardPercents, GuardDecision, Put, ChargeFor, HoldFor;
    hide BillableSeconds;
  }

  /** No command but a guard touches the alerts, and only set_world_budget the budgets. */
  lemma AlertsAndBudgetsStay(w: Wallet, c: Command, env: Env, cal: Calendar)
    ensures var v := Step(w, c, env, cal);
            (!c.Protect? ==> v.guards == w.guards && v.alerts == w.alerts) && (!c.SetBudget? ==> v.budgets == w.budgets)
  {
    hide Attempt;
    if HoldsCommand(c) {
      HoldsFrame(w, c, env, cal);
    } else if PostsOne(c) {
      if Attempt(w, c, env, cal).Save? {
        OnePosted(w, c, env, cal);
      }
    } else if c.ProcessEvent? {
      if Attempt(w, c, env, cal).Save? {
        EventWrites(w, c, env, cal);
      }
    } else {
      NothingPosted(w, c, env, cal);
    }
  }

  /** Step is the command's own function. */
  lemma EventStep(w: Wallet, event: Id, kind: EventKind, id: Id, checkout: Id, paid: Option<int>, charged: Option<int>,
                  env: Env, cal: Calendar)
    ensures var c := ProcessEvent(event, kind, id, checkout, paid, charged);
            && Attempt(w, c, env, cal) == DoEvent(w, event, kind, id, checkout, paid, charged, env)
            && Step(w, c, env, cal) == After(w, DoEvent(w, event, kind, id, checkout, paid, charged, env))
  {
    hide DoEvent;
  }

  lemma EventWrites(w: Wallet, c: Command, env: Env, cal: Calendar)
    requires c.ProcessEvent? && Attempt(w, c, env, cal).Save?
    ensures var o := Attempt(w, c, env, cal);
            && Find(w.deposits, DepositIs(c.deposit)).Some?
            && var d := Find(w.deposits, DepositIs(c.deposit)).value;
               && EventEffect(w, d, c.event, c.kind, c.paid, c.charged, env).Some?
               && var effect := EventEffect(w, d, c.event, c.kind, c.paid, c.charged, env).value;
                  && o.next.entries == w.entries + effect.entries
                  && o.next.deposits == Substitute(w.deposits, DepositIs(effect.deposit.id), effect.deposit)
                  && o.next.usages == w.usages && o.next.reservations == w.reservations && o.next.quotes == w.quotes
                  && o.next.guards == w.guards && o.next.alerts == w.alerts && o.next.budgets == w.budgets
  {
    hide EventEffect;
  }

  // ----- whole runs

  /** Over any run the wallet never overdraws, the ledger only grows by appending, and a captured or
      released reservation never changes again. */
  lemma {:induction false} RunSound(w: Wallet, moves: seq<Move>, cal: Calendar)
    requires Sound(w) && FreshMoves(w, moves, cal)
    ensures Sound(Run(w, moves, cal)) && Evolves(w, Run(w, moves, cal))
  {
    if |moves| > 0 {
      var n := |moves| - 1;
      var before := Run(w, moves[..n], cal);
      hide Attempt;
      FreshPrefix(w, moves, n, cal);
      RunSound(w, moves[..n], cal);
      assert Fresh(before, moves[n].env);
      AttemptGood(before, moves[n].command, moves[n].env, cal);
      EvolvesTransitive(w, before, Run(w, moves, cal));
    }
  }

  lemma FreshPrefix(w: Wallet, moves: seq<Move>, n: nat, cal: Calendar)
    requires FreshMoves(w, moves, cal) && n <= |moves|
    ensures FreshMoves(w, moves[..n], cal)
  {
    forall i | 0 <= i < n ensures Fresh(Run(w, moves[..n][..i], cal), moves[..n][i].env) {
      assert moves[..n][..i] == moves[..i];
    }
  }

  lemma EmptyIsSound()
    ensures Sound(EmptyWallet)
  {
  }
}
