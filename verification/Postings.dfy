/** What each command does to the ledger balance and to the holds, stated without its code. */
module Postings {
  import opened Base
  import opened Money
  import opened Wallet
  import opened Solvency

  /** `cents` is the nearest whole number to `n / d`, a half rounded up. */
  predicate Nearest(cents: int, n: int, d: int) { (2 * cents - 1) * d <= 2 * n < (2 * cents + 1) * d }

  /** Seconds billed for a session: the elapsed time in started seconds, at least a minute. */
  predicate Billed(seconds: int, elapsed: int) {
    seconds >= 60 && seconds * SECOND >= elapsed && (seconds > 60 ==> (seconds - 1) * SECOND < elapsed)
  }

  ghost predicate Charged(w: Wallet, c: Command, amount: int)
    requires c.CaptureUsage?
  {
    exists q, seconds ::
      && q in w.quotes && q.id == c.quote && Billed(seconds, c.releasedAt - c.startedAt)
      && Nearest(amount, q.rate * seconds, HOUR_SECONDS)
  }

  /** An outage of more than two minutes inside the usage, at the usage's own rate, never more than it cost. */
  ghost predicate Credited(w: Wallet, u: Usage, outage: int, amount: int) {
    && outage > 120 * SECOND && amount <= u.amount
    && exists q, seconds :: q in w.quotes && q.id == u.quote && CoversOutage(q, u, seconds, outage, amount)
  }

  predicate CoversOutage(q: Quote, u: Usage, seconds: int, outage: int, amount: int) {
    (seconds - 1) * SECOND < outage <= seconds * SECOND && (amount == u.amount || Nearest(amount, q.rate * seconds, HOUR_SECONDS))
  }

  lemma OutageCharge(rate: nat, outage: nat)
    ensures Nearest(ChargeFor(rate, CeilSeconds(outage)), rate * CeilSeconds(outage), HOUR_SECONDS)
    ensures (CeilSeconds(outage) - 1) * SECOND < outage <= CeilSeconds(outage) * SECOND
  {
  }

  lemma OutageCredited(w: Wallet, u: Usage, q: Quote, outage: nat)
    requires q in w.quotes && q.id == u.quote && outage > 120 * SECOND
    ensures Credited(w, u, outage, Min(ChargeFor(q.rate, CeilSeconds(outage)), u.amount))
  {
    OutageCharge(q.rate, outage);
    hide ChargeFor, CeilSeconds, Nearest;
    assert CoversOutage(q, u, CeilSeconds(outage), outage, Min(ChargeFor(q.rate, CeilSeconds(outage)), u.amount));
  }

  lemma AvailabilityPosts(w: Wallet, c: Command, env: Env, cal: Calendar)
    requires c.ApplyAvailability? && Attempt(w, c, env, cal).Save?
    ensures Posts(w, c, Balance(Attempt(w, c, env, cal).next) - Balance(w))
  {
    hide ChargeFor, CeilSeconds, Credited;
    LedgerChange(w, Attempt(w, c, env, cal).next);
    var u := Find(w.usages, UsageIs(c.usage)).value;
    var q := Find(w.quotes, QuoteIs(u.quote)).value;
    OutageCredited(w, u, q, c.recoveredAt - c.unavailableAt);
  }

  /** The change of the ledger balance a saved command makes. */
  ghost predicate Posts(w: Wallet, c: Command, change: int) {
    match c
    case CreditWallet(amount, _, _) => change == amount
    case ApplySupport(amount, _, _, _, _) => change == amount
    case Capture(_, amount, _) => change == -amount
    case ChargeStorage(excess, rate, _, _) => change < 0 && Nearest(-change, rate * excess, GIB)
    case CaptureUsage(_, _, _, _, _) => change <= 0 && Charged(w, c, -change)
    case ApplyGuarantee(usage, _, _) => exists u :: u in w.usages && u.id == usage && change == u.amount
    case ApplyAvailability(usage, from, until, _) =>
        change > 0 && exists u :: u in w.usages && u.id == usage && Credited(w, u, until - from, change)
    case ProcessEvent(_, kind, deposit, _, _, _) =>
      change == 0
      || exists d :: d in w.deposits && d.id == deposit
                     && (if kind.CheckoutCompleted? then change == d.amount else !kind.OtherEvent? && change == -d.amount)
    case _ => change == 0
  }

  lemma LedgerChange(w: Wallet, v: Wallet)
    requires v.entries == w.entries || (|v.entries| == |w.entries| + 1 && w.entries <= v.entries)
    ensures Balance(v) == Balance(w) + if v.entries == w.entries then 0 else v.entries[|w.entries|].amount
  {
    if v.entries != w.entries {
      assert v.entries == w.entries + [v.entries[|w.entries|]];
      SumAppend(w.entries, v.entries[|w.entries|], AmountOf());
    }
  }

  lemma UsagePosts(w: Wallet, c: Command, env: Env, cal: Calendar)
    requires c.CaptureUsage? && Attempt(w, c, env, cal).Save?
    ensures Posts(w, c, Balance(Attempt(w, c, env, cal).next) - Balance(w))
  {
    var v := Attempt(w, c, env, cal).next;
    LedgerChange(w, v);
    var q := Find(w.quotes, QuoteIs(c.quote)).value;
    var seconds := BillableSeconds(c.releasedAt - c.startedAt);
    assert Billed(seconds, c.releasedAt - c.startedAt);
    assert Nearest(ChargeFor(q.rate, seconds), q.rate * seconds, HOUR_SECONDS);
  }

  lemma EventPosts(w: Wallet, c: Command, env: Env, cal: Calendar)
    requires c.ProcessEvent? && Attempt(w, c, env, cal).Save?
    ensures Posts(w, c, Balance(Attempt(w, c, env, cal).next) - Balance(w))
  {
    hide Available;
    var v := Attempt(w, c, env, cal).next;
    var d := Find(w.deposits, DepositIs(c.deposit)).value;
    var effect := EventEffect(w, d, c.event, c.kind, c.paid, c.charged, env).value;
    if effect.entries == [] {
      assert v.entries == w.entries;
    }
    LedgerChange(w, v);
    assert d in w.deposits && d.id == c.deposit;
  }

  lemma StoragePosts(w: Wallet, c: Command, env: Env, cal: Calendar)
    requires c.ChargeStorage? && Attempt(w, c, env, cal).Save?
    ensures Posts(w, c, Balance(Attempt(w, c, env, cal).next) - Balance(w))
  {
    hide Available;
    assert c.storageRate * c.excess >= 0;
    LedgerChange(w, Attempt(w, c, env, cal).next);
  }

  lemma CreditPosts(w: Wallet, c: Command, env: Env, cal: Calendar)
    requires c.CreditWallet? || c.ApplySupport? || c.ApplyGuarantee? || c.Capture?
    requires Attempt(w, c, env, cal).Save?
    ensures Posts(w, c, Balance(Attempt(w, c, env, cal).next) - Balance(w))
  {
    hide ChargeFor;
    LedgerChange(w, Attempt(w, c, env, cal).next);
  }

  lemma GrantsPostNothing(w: Wallet, c: Command, env: Env, cal: Calendar)
    requires (c.Reserve? || c.ReserveForWake? || c.Protect? || c.Release?) && Attempt(w, c, env, cal).Save?
    ensures Attempt(w, c, env, cal).next.entries == w.entries
  {
    hide Available, BudgetAvailable, PlanGuard, GuardMinutes, GuardPercents, HoldFor;
  }

  /** Every saved command moves the balance by exactly what its kind promises: charges are the nearest cent
      of rate times time or size, a guarantee is its usage's charge, an availability credit never exceeds
      it, and holds, quotes, budgets and checkouts move no money. */
  lemma CommandPosts(w: Wallet, c: Command, env: Env, cal: Calendar)
    requires Attempt(w, c, env, cal).Save?
    ensures Posts(w, c, Balance(Attempt(w, c, env, cal).next) - Balance(w))
  {
    hide Attempt;
    if c.CaptureUsage? {
      UsagePosts(w, c, env, cal);
    } else if c.ProcessEvent? {
      EventPosts(w, c, env, cal);
    } else if c.ChargeStorage? {
      StoragePosts(w, c, env, cal);
    } else if c.ApplyAvailability? {
      AvailabilityPosts(w, c, env, cal);
    } else if c.CreditWallet? || c.ApplySupport? || c.ApplyGuarantee? || c.Capture? {
      CreditPosts(w, c, env, cal);
    } else {
      if HoldsCommand(c) {
        GrantsPostNothing(w, c, env, cal);
      } else {
        NothingPosted(w, c, env, cal);
      }
      LedgerChange(w, Attempt(w, c, env, cal).next);
    }
  }

  /** Holds move only by reserving, guarding, capturing and releasing: a reservation adds its own amount,
      which a wake makes cover twenty-five minutes, and a capture or release takes back exactly the hold. */
  ghost predicate Moves(w: Wallet, c: Command, change: int) {
    match c
    case Reserve(amount, _, _, _, _) => change == amount
    case ReserveForWake(quote, _) =>
      exists q :: q in w.quotes && q.id == quote && (change - 1) * HOUR_SECONDS < q.rate * WAKE_SECONDS <= change * HOUR_SECONDS
    case Release(id) => exists r :: r in w.reservations && r.id == id && r.status.Active? && change == -r.amount
    case Capture(id, amount, _) =>
        exists r :: r in w.reservations && r.id == id && r.status.Active? && change == -r.amount && amount <= r.amount
    case CaptureUsage(_, id, _, _, _) => exists r :: r in w.reservations && r.id == id && r.status.Active? && change == -r.amount
    case Protect(_, id, _, _, _, _) => exists r :: r in w.reservations && r.id == id && r.status.Active? && r.amount + change >= 0
    case _ => change == 0
  }

  lemma SettleMoves(w: Wallet, v: Wallet, r: Reservation, s: Reservation)
    requires WfReservations(w.reservations) && r in w.reservations && r.status.Active?
    requires s.id == r.id && s.key == r.key && s.amount >= 0
    requires v.reservations == Substitute(w.reservations, ReservationIs(r.id), s)
    ensures HeldTotal(v) == HeldTotal(w) - r.amount + HoldOf()(s)
  {
    ReplaceReservation(w.reservations, r, s);
  }

  lemma GrantMoves(w: Wallet, c: Command, env: Env, cal: Calendar)
    requires (c.Reserve? || c.ReserveForWake?) && Attempt(w, c, env, cal).Save?
    ensures Moves(w, c, HeldTotal(Attempt(w, c, env, cal).next) - HeldTotal(w))
  {
    hide Available, BudgetAvailable;
    var v := Attempt(w, c, env, cal).next;
    SumAppend(w.reservations, v.reservations[|w.reservations|], HoldOf());
    if c.ReserveForWake? {
      assert Find(w.quotes, QuoteIs(c.quote)).value in w.quotes;
    }
  }

  lemma ClosingMoves(w: Wallet, c: Command, env: Env, cal: Calendar)
    requires WfReservations(w.reservations) && (c.Release? || c.Capture? || c.CaptureUsage?)
    requires Attempt(w, c, env, cal).Save?
    ensures Moves(w, c, HeldTotal(Attempt(w, c, env, cal).next) - HeldTotal(w))
  {
    hide ChargeFor;
    var r := Find(w.reservations, ReservationIs(c.reservation)).value;
    SettleMoves(w, Attempt(w, c, env, cal).next, r, r.(status := if c.Release? then Released else Captured));
  }

  lemma GuardMoves(w: Wallet, c: Command, env: Env, cal: Calendar)
    requires WfReservations(w.reservations) && c.Protect? && Attempt(w, c, env, cal).Save?
    ensures Moves(w, c, HeldTotal(Attempt(w, c, env, cal).next) - HeldTotal(w))
  {
    hide Available, BudgetAvailable, GuardMinutes, GuardPercents, GuardDecision, Put;
    var r := Find(w.reservations, ReservationIs(c.reservation)).value;
    var q := Find(w.quotes, QuoteIs(c.quote)).value;
    var plan := PlanGuard(w, q, r, c.observedAt, CeilSeconds(c.observedAt - c.startedAt) + c.sleepSeconds, cal);
    SettleMoves(w, Attempt(w, c, env, cal).next, r, r.(amount := plan.reserved));
  }

  lemma HoldsMove(w: Wallet, c: Command, env: Env, cal: Calendar)
    requires WellFormed(w) && Attempt(w, c, env, cal).Save?
    ensures Moves(w, c, HeldTotal(Attempt(w, c, env, cal).next) - HeldTotal(w))
  {
    hide Attempt, Moves;
    if c.Reserve? || c.ReserveForWake? {
      GrantMoves(w, c, env, cal);
    } else if c.Release? || c.Capture? || c.CaptureUsage? {
      ClosingMoves(w, c, env, cal);
    } else if c.Protect? {
      GuardMoves(w, c, env, cal);
    } else {
      NothingHeld(w, c, env, cal);
    }
  }

  lemma NothingHeld(w: Wallet, c: Command, env: Env, cal: Calendar)
    requires !HoldsCommand(c) && Attempt(w, c, env, cal).Save?
    ensures Moves(w, c, HeldTotal(Attempt(w, c, env, cal).next) - HeldTotal(w))
  {
    hide Attempt;
    if PostsOne(c) {
      OnePosted(w, c, env, cal);
    } else if c.ProcessEvent? {
      EventWrites(w, c, env, cal);
    } else {
      NothingPosted(w, c, env, cal);
    }
    assert Attempt(w, c, env, cal).next.reservations == w.reservations;
  }
}
