/** When each billing command takes effect and what it leaves, told from the records of the wallet alone:
    from the ledger, the holds, the contributions and the World's budget. */
module WalletDecisions {
  import opened Base
  import opened Money
  import opened Wallet
  import opened Solvency
  import opened Postings

  // ----- what may be spent

  ghost predicate UnderReview(w: Wallet) { exists d :: d in w.deposits && d.status == NeedsReview }

  /** A contribution under review freezes the wallet; otherwise the ledger balance less the active holds. */
  ghost function Spendable(w: Wallet): int { if UnderReview(w) then 0 else Balance(w) - HeldTotal(w) }

  /** A line that gives money of this usage back. */
  predicate GivesBack(e: Entry, usage: Id) {
    && e.kind in {WakeGuarantee, AvailabilityCredit}
    && match e.reference
       case OfUsage(u) => u == usage
       case OfInterval(u, _, _) => u == usage
       case _ => false
  }

  function GivenBack(usage: Id): Entry -> int { (e: Entry) => if GivesBack(e, usage) then e.amount else 0 }

  /** What a usage costs its World in a month: its charge less what was given back, and never less than nothing. */
  function CostIn(w: Wallet, world: Id, month: int, cal: Calendar): Usage -> int {
    (u: Usage) =>
      if u.world != world || cal(u.releasedAt) != month || u.amount <= Sum(w.entries, GivenBack(u.id)) then 0
      else u.amount - Sum(w.entries, GivenBack(u.id))
  }

  function HeldFor(world: Id): Reservation -> int {
    (r: Reservation) => if r.world == Some(world) && r.status == Active then r.amount else 0
  }

  function CommittedIn(w: Wallet, world: Id, month: int, cal: Calendar): int {
    Sum(w.usages, CostIn(w, world, month, cal)) + Sum(w.reservations, HeldFor(world))
  }

  ghost predicate HasBudget(w: Wallet, world: Id, n: int) {
    0 <= n < |w.budgets| && w.budgets[n].world == world && forall k :: 0 <= k < n ==> w.budgets[k].world != world
  }

  /** The World's budget, if it has one, pays this much more in the month. */
  ghost predicate BudgetPays(w: Wallet, world: Id, month: int, cal: Calendar, amount: int) {
    forall n :: HasBudget(w, world, n) ==> CommittedIn(w, world, month, cal) + amount <= w.budgets[n].limit
  }

  lemma SpendableIs(w: Wallet)
    ensures Available(w) == Spendable(w)
  {
    if d :| d in w.deposits && d.status == NeedsReview {
      assert InReview()(d);
    }
  }

  lemma CommittedIs(w: Wallet, world: Id, month: int, cal: Calendar)
    ensures Committed(w, world, month, cal) == CommittedIn(w, world, month, cal)
  {
    forall u | u in w.usages ensures SpentOn(w.entries, world, month, cal)(u) == CostIn(w, world, month, cal)(u) {
      forall e ensures CreditOf(u.id)(e) == GivenBack(u.id)(e) {
      }
      SumAgree(w.entries, CreditOf(u.id), GivenBack(u.id));
      var back := Sum(w.entries, GivenBack(u.id));
      var counts := u.world == world && cal(u.releasedAt) == month;
      assert SpentOn(w.entries, world, month, cal)(u) == if counts then Max(0, u.amount - back) else 0;
      assert CostIn(w, world, month, cal)(u) == if !counts || u.amount <= back then 0 else u.amount - back;
    }
    SumAgree(w.usages, SpentOn(w.entries, world, month, cal), CostIn(w, world, month, cal));
    SumAgree(w.reservations, HoldIn(world), HeldFor(world));
  }

  lemma BudgetIs(w: Wallet, world: Id, at: Time, cal: Calendar)
    ensures var b := BudgetAvailable(w, world, at, cal);
            forall amount :: amount > 0 ==> ((b.None? || amount <= b.value) <==> BudgetPays(w, world, cal(at), cal, amount))
    ensures var b := Find(w.budgets, BudgetOf(world));
            && (b.None? ==> BudgetAvailable(w, world, at, cal).None? && forall n :: !HasBudget(w, world, n))
            && (b.Some? ==> exists n :: HasBudget(w, world, n) && w.budgets[n] == b.value)
    ensures forall n :: HasBudget(w, world, n) ==>
              BudgetAvailable(w, world, at, cal) == Some(Max(0, w.budgets[n].limit - CommittedIn(w, world, cal(at), cal)))
  {
    CommittedIs(w, world, cal(at), cal);
    hide Committed, CommittedIn;
    var n := FirstIndex(w.budgets, BudgetOf(world));
    assert forall k :: 0 <= k < |w.budgets| ==> (BudgetOf(world)(w.budgets[k]) <==> w.budgets[k].world == world);
    assert n < |w.budgets| ==> HasBudget(w, world, n);
    assert forall k :: HasBudget(w, world, k) ==> k == n;
  }

  // ----- amounts

  /** The least whole number of cents not below the rate over these seconds. */
  predicate Covers(cents: int, rate: int, seconds: int) { (cents - 1) * 3600 < rate * seconds <= cents * 3600 }

  lemma CoversIs(rate: nat, seconds: nat)
    ensures Covers(HoldFor(rate, seconds), rate, seconds)
    ensures forall cents :: Covers(cents, rate, seconds) ==> cents == HoldFor(rate, seconds)
  {
  }

  lemma NearestIs(n: nat, d: nat)
    requires d == 3600 || d == 1_073_741_824
    ensures Nearest(HalfUp(n, d), n, d)
    ensures forall cents :: Nearest(cents, n, d) ==> cents == HalfUp(n, d)
  {
  }

  lemma BilledIs(elapsed: nat)
    ensures Billed(BillableSeconds(elapsed), elapsed)
    ensures forall seconds :: Billed(seconds, elapsed) ==> seconds == BillableSeconds(elapsed)
  {
  }

  predicate Started(seconds: int, elapsed: int) { (seconds - 1) * 1_000_000 < elapsed <= seconds * 1_000_000 }

  lemma StartedIs(elapsed: nat)
    ensures Started(CeilSeconds(elapsed), elapsed)
    ensures forall seconds :: Started(seconds, elapsed) ==> seconds == CeilSeconds(elapsed)
  {
  }

  // ----- when a command takes effect

  ghost predicate KeyUsed(w: Wallet, key: string) { exists e :: e in w.entries && e.key == key }
  ghost predicate HoldKeyUsed(w: Wallet, key: string) { exists r :: r in w.reservations && r.key == key }

  ghost predicate Holding(w: Wallet, id: Id, r: Reservation) { r in w.reservations && r.id == id && r.status == Active }
  ghost predicate Offered(w: Wallet, id: Id, q: Quote) { q in w.quotes && q.id == id }
  ghost predicate Measured(w: Wallet, id: Id, u: Usage) { u in w.usages && u.id == id }
  ghost predicate Contributed(w: Wallet, id: Id, d: Deposit) { d in w.deposits && d.id == id }

  /** The wallet, unfrozen, and the World's budget pay this hold. */
  ghost predicate Payable(w: Wallet, amount: int, world: Option<Id>, month: int, cal: Calendar) {
    0 < amount <= Spendable(w) && (world.Some? ==> BudgetPays(w, world.value, month, cal, amount))
  }

  /** What a usage of this quote costs: started seconds, a minute at least, at the nearest cent. */
  ghost predicate Costs(q: Quote, from: Time, until: Time, cents: int) {
    exists seconds :: Billed(seconds, until - from) && Nearest(cents, q.rate * seconds, 3600)
  }

  /** What an outage of a usage is worth: its started seconds at the nearest cent, the usage's charge at most. */
  ghost predicate OutageWorth(q: Quote, u: Usage, from: Time, until: Time, cents: int) {
    exists seconds, full ::
      && Started(seconds, until - from) && Nearest(full, q.rate * seconds, 3600)
      && cents == if full < u.amount then full else u.amount
  }

  /** A completed checkout whose contribution still waits for it, with an amount missing or negative. */
  predicate Malformed(d: Deposit, kind: EventKind, paid: Option<int>, charged: Option<int>) {
    && kind == CheckoutCompleted && d.status in {CreatingCheckout, Pending, NeedsReview}
    && (paid.None? || charged.None? || paid.value < 0 || charged.value < 0)
  }

  ghost predicate Takes(w: Wallet, c: Command, now: Time, cal: Calendar)
    requires !c.Protect?
  {
    match c
    case CreateQuote(_, _, rate, key) => rate > 0 && forall q :: q in w.quotes ==> q.key != key
    case ReserveForWake(quote, key) =>
      && !HoldKeyUsed(w, key)
      && exists q, hold :: Offered(w, quote, q) && now <= q.expiresAt && Covers(hold, q.rate, 1500)
                           && Payable(w, hold, Some(q.world), cal(now), cal)
    case Reserve(amount, _, key, _, world) => !HoldKeyUsed(w, key) && Payable(w, amount, world, cal(now), cal)
    case SetBudget(_, limit, key) => limit > 0 && forall b :: b in w.budgets ==> b.key != key
    case CreditWallet(amount, _, key) => amount > 0 && !KeyUsed(w, key)
    case ChargeStorage(excess, rate, _, key) =>
      && excess > 0 && rate > 0 && !KeyUsed(w, key)
      && exists cents :: Nearest(cents, rate * excess, 1_073_741_824) && 0 < cents <= Spendable(w)
    case Release(id) => exists r :: Holding(w, id, r)
    case ApplyGuarantee(usage, reachedOnline, _) =>
      && !reachedOnline && (exists u :: Measured(w, usage, u))
      && forall e :: e in w.entries ==> !(e.kind == WakeGuarantee && e.reference == OfUsage(usage))
    case ApplyAvailability(usage, from, until, _) =>
      && until - from > 120_000_000
      && (forall e :: e in w.entries ==> !(e.kind == AvailabilityCredit && e.reference == OfInterval(usage, from, until)))
      && exists u, q, cents ::
           && Measured(w, usage, u) && u.startedAt <= from && until <= u.releasedAt
           && Offered(w, u.quote, q) && OutageWorth(q, u, from, until, cents) && cents > 0
    case ApplySupport(amount, reference, actor, reason, key) =>
      amount > 0 && reference != "" && actor != "" && reason != "" && key != "" && !KeyUsed(w, key)
    case Capture(id, amount, key) => !KeyUsed(w, key) && exists r :: Holding(w, id, r) && 0 < amount <= r.amount
    case CaptureUsage(quote, id, from, until, key) =>
      && from <= until && (forall u :: u in w.usages ==> u.key != key)
      && exists q, r, cents :: Offered(w, quote, q) && Holding(w, id, r) && Costs(q, from, until, cents) && cents <= r.amount
    case StartDeposit(_, _, amount, key) => amount > 0 && forall d :: d in w.deposits ==> d.key != key
    case AttachCheckout(id, _) => exists d :: Contributed(w, id, d) && d.status != ContributionStatus.Pending
    case ReconcileCheckout(id, _) => exists d :: Contributed(w, id, d) && d.status == CreatingCheckout
    case RecordRefund(id, _) => exists d :: Contributed(w, id, d) && d.status == Completed
    case ProcessEvent(event, kind, id, checkout, paid, charged) =>
      && (forall e :: e in w.events ==> e.id != event)
      && exists d :: Contributed(w, id, d) && d.checkout == Some(checkout) && !Malformed(d, kind, paid, charged)
  }

  // ----- what it leaves

  ghost predicate Resettled(w: Wallet, rs: seq<Reservation>, id: Id, status: ReservationStatus) {
    && |rs| == |w.reservations|
    && forall n :: 0 <= n < |rs| ==>
         rs[n] == if w.reservations[n].id == id then w.reservations[n].(status := status) else w.reservations[n]
  }

  ghost predicate Redone(w: Wallet, ds: seq<Deposit>, id: Id, d: Deposit) {
    && |ds| == |w.deposits|
    && forall n :: 0 <= n < |ds| ==> ds[n] == if w.deposits[n].id == id then d else w.deposits[n]
  }

  /** What a payment event makes of its contribution and the ledger line it posts. */
  ghost predicate Consequence(w: Wallet, d: Deposit, c: Command, env: Env, status: ContributionStatus, lines: seq<Entry>)
    requires c.ProcessEvent?
  {
    var key := "abacatepay:" + c.event;
    var line := (kind, amount) => Entry(env.id, kind, amount, OfContribution(d.id), key, env.now, "", "");
    match c.kind
    case OtherEvent => status == d.status && lines == []
    case CheckoutCompleted =>
      if d.status in {Completed, RefundRequested, Refunded, Disputed} then status == d.status && lines == []
      else if c.paid == Some(d.amount) && c.charged == Some(d.amount)
      then status == Completed && lines == [line(Contribution, d.amount)]
      else status == NeedsReview && lines == []
    case _ =>
      var (over, kind) := if c.kind == CheckoutRefunded then (Refunded, Refund) else (Disputed, Dispute);
      if d.status in {Refunded, Disputed} then status == d.status && lines == []
      else if d.status !in {Completed, RefundRequested} then status == over && lines == []
      else if d.amount <= Spendable(w) then status == over && lines == [line(kind, -d.amount)]
      else status == NeedsReview && lines == []
  }

  function Line(env: Env, kind: EntryKind, amount: int, reference: Reference, key: string): Entry {
    Entry(env.id, kind, amount, reference, key, env.now, "", "")
  }

  ghost predicate Leaves(w: Wallet, c: Command, env: Env, v: Wallet)
    requires !c.Protect?
  {
    match c
    case CreateQuote(world, profile, rate, key) =>
      rate > 0 && v == w.(quotes := w.quotes + [Quote(env.id, world, profile, rate, key, env.now, env.now + 900_000_000)])
    case ReserveForWake(quote, key) =>
      exists q, hold ::
        && Offered(w, quote, q) && Covers(hold, q.rate, 1500)
        && v == w.(reservations := w.reservations + [
                     Reservation(env.id, hold, "wake:" + q.world, key, Active, env.now, Some(quote), Some(q.world))])
    case Reserve(amount, purpose, key, quote, world) =>
      v == w.(reservations := w.reservations + [Reservation(env.id, amount, purpose, key, Active, env.now, quote, world)])
    case SetBudget(world, limit, key) =>
      && limit > 0
      && if forall b :: b in w.budgets ==> b.world != world
         then v == w.(budgets := w.budgets + [Budget(env.id, world, limit, key, env.now)])
         else v == w.(budgets := v.budgets) && Rebudgeted(w.budgets, v.budgets, world, limit, key, env.now)
    case CreditWallet(amount, reference, key) =>
      v == w.(entries := w.entries + [Line(env, Contribution, amount, Text(reference), key)])
    case ChargeStorage(excess, rate, month, key) =>
      exists cents :: Nearest(cents, rate * excess, 1_073_741_824)
                      && v == w.(entries := w.entries + [Line(env, StorageCharge, -cents, Text("storage:" + month), key)])
    case Release(id) => v == w.(reservations := v.reservations) && Resettled(w, v.reservations, id, Released)
    case ApplyGuarantee(usage, _, key) =>
      exists u :: Measured(w, usage, u)
                  && v == w.(entries := w.entries + [Line(env, WakeGuarantee, u.amount, OfUsage(usage), key)])
    case ApplyAvailability(usage, from, until, key) =>
      exists u, q, cents ::
        && Measured(w, usage, u) && Offered(w, u.quote, q) && OutageWorth(q, u, from, until, cents)
        && v == w.(entries := w.entries + [Line(env, AvailabilityCredit, cents, OfInterval(usage, from, until), key)])
    case ApplySupport(amount, reference, actor, reason, key) =>
      v == w.(entries := w.entries + [Entry(env.id, SupportCredit, amount, Text(reference), key, env.now, actor, reason)])
    case Capture(id, amount, key) =>
      exists r :: Holding(w, id, r) && Resettled(w, v.reservations, id, Captured)
                  && v == w.(reservations := v.reservations,
                             entries := w.entries + [Line(env, RuntimeCharge, -amount, Text(r.purpose), key)])
    case CaptureUsage(quote, id, from, until, key) =>
      exists q, seconds, cents ::
        && Offered(w, quote, q) && Billed(seconds, until - from) && Nearest(cents, q.rate * seconds, 3600) && cents >= 0
        && Resettled(w, v.reservations, id, Captured)
        && v == w.(reservations := v.reservations,
                   entries := w.entries + [Line(env, RuntimeCharge, -cents, Text("runtime:" + q.world), key + ":ledger")],
                   usages := w.usages + [Usage(env.id2, q.world, quote, id, seconds, cents, from, until, env.id, key)])
    case StartDeposit(payer, package, amount, key) =>
      v == w.(deposits := w.deposits + [Deposit(env.id, payer, package, amount, None, CreatingCheckout, key, None)])
    case AttachCheckout(id, checkout) =>
      exists d :: Contributed(w, id, d) && v == w.(deposits := v.deposits)
                  && Redone(w, v.deposits, id, d.(status := ContributionStatus.Pending, checkout := Some(checkout), refund := None))
    case ReconcileCheckout(id, checkout) =>
      exists d :: Contributed(w, id, d) && v == w.(deposits := v.deposits)
                  && Redone(w, v.deposits, id, d.(status := ContributionStatus.Pending, checkout := Some(checkout)))
    case RecordRefund(id, refund) =>
      exists d :: Contributed(w, id, d) && v == w.(deposits := v.deposits)
                  && Redone(w, v.deposits, id, d.(status := RefundRequested, refund := Some(refund)))
    case ProcessEvent(event, kind, id, _, _, _) =>
      exists d, status, lines ::
        && Contributed(w, id, d) && Consequence(w, d, c, env, status, lines)
        && Redone(w, v.deposits, id, d.(status := status))
        && v == w.(deposits := v.deposits, entries := w.entries + lines,
                   events := w.events + [PaymentEvent(event, kind, id, env.now)])
  }

  /** The World's budget has this limit now, under the identifier it had; every other budget is as before. */
  ghost predicate Rebudgeted(before: seq<Budget>, after: seq<Budget>, world: Id, limit: nat, key: string, now: Time) {
    && |after| == |before|
    && (forall n :: 0 <= n < |before| && before[n].world != world ==> after[n] == before[n])
    && (forall n :: 0 <= n < |before| && before[n].world == world ==>
          && after[n] == Budget(after[n].id, world, limit, key, now)
          && exists k :: 0 <= k <= n && before[k].world == world && before[k].id == after[n].id
                         && forall j :: 0 <= j < k ==> before[j].world != world)
  }

  ghost predicate Exact(w: Wallet, c: Command, env: Env, cal: Calendar, o: Outcome)
    requires !c.Protect?
  {
    (o.Save? <==> Takes(w, c, env.now, cal)) && (o.Save? ==> Leaves(w, c, env, o.next))
  }

  // ----- command by command

  lemma FoundQuote(w: Wallet, id: Id)
    requires WfQuotes(w.quotes)
    ensures var q := Find(w.quotes, QuoteIs(id)); forall x :: Offered(w, id, x) <==> q == Some(x)
  {
    forall x | Offered(w, id, x) ensures Find(w.quotes, QuoteIs(id)) == Some(x) {
      assert QuoteIs(id)(x);
      var y := Find(w.quotes, QuoteIs(id)).value;
      assert QuoteId()(x) == QuoteId()(y);
    }
  }

  lemma FoundHold(w: Wallet, id: Id)
    requires WfReservations(w.reservations)
    ensures var r := Find(w.reservations, ReservationIs(id));
            forall x :: Holding(w, id, x) <==> r == Some(x) && x.status.Active?
  {
    forall x | x in w.reservations && x.id == id ensures Find(w.reservations, ReservationIs(id)) == Some(x) {
      assert ReservationIs(id)(x);
      var y := Find(w.reservations, ReservationIs(id)).value;
      assert ReservationId()(x) == ReservationId()(y);
    }
  }

  lemma FoundUsage(w: Wallet, id: Id)
    requires WfUsages(w.usages)
    ensures var u := Find(w.usages, UsageIs(id)); forall x :: Measured(w, id, x) <==> u == Some(x)
  {
    forall x | Measured(w, id, x) ensures Find(w.usages, UsageIs(id)) == Some(x) {
      assert UsageIs(id)(x);
      var y := Find(w.usages, UsageIs(id)).value;
      assert UsageId()(x) == UsageId()(y);
    }
  }

  lemma FoundDeposit(w: Wallet, id: Id)
    requires WfDeposits(w.deposits)
    ensures var d := Find(w.deposits, DepositIs(id)); forall x :: Contributed(w, id, x) <==> d == Some(x)
  {
    forall x | Contributed(w, id, x) ensures Find(w.deposits, DepositIs(id)) == Some(x) {
      assert DepositIs(id)(x);
      var y := Find(w.deposits, DepositIs(id)).value;
      assert DepositId()(x) == DepositId()(y);
    }
  }

  lemma FoundKeys(w: Wallet, key: string)
    ensures Find(w.entries, EntryKeyed(key)).Some? <==> KeyUsed(w, key)
    ensures Find(w.reservations, ReservationKeyed(key)).Some? <==> HoldKeyUsed(w, key)
  {
    if e :| e in w.entries && e.key == key {
      assert EntryKeyed(key)(e);
    }
    if r :| r in w.reservations && r.key == key {
      assert ReservationKeyed(key)(r);
    }
  }

  lemma ReserveExactly(w: Wallet, c: Command, env: Env, cal: Calendar)
    requires c.Reserve?
    ensures Exact(w, c, env, cal, DoReserve(w, c.amount, c.purpose, c.key, c.quoteId, c.worldId, env, cal))
  {
    hide Available, BudgetAvailable, BudgetPays, KeyUsed, HoldKeyUsed, Balance, HeldTotal, Spendable;
    FoundKeys(w, c.key);
    SpendableIs(w);
    if c.worldId.Some? {
      BudgetIs(w, c.worldId.value, env.now, cal);
    }
  }

  lemma WakeExactly(w: Wallet, c: Command, env: Env, cal: Calendar)
    requires WfQuotes(w.quotes) && c.ReserveForWake?
    ensures Exact(w, c, env, cal, DoReserveForWake(w, c.quote, c.key, env, cal))
  {
    hide Available, BudgetAvailable, BudgetPays, KeyUsed, HoldKeyUsed, Balance, HeldTotal, Spendable, HoldFor, Covers;
    FoundKeys(w, c.key);
    FoundQuote(w, c.quote);
    SpendableIs(w);
    var q := Find(w.quotes, QuoteIs(c.quote));
    if q.Some? {
      CoversIs(q.value.rate, 1500);
      BudgetIs(w, q.value.world, env.now, cal);
      assert HoldFor(q.value.rate, 1500) > 0 by { HoldIsPositive(q.value.rate); }
    }
  }

  lemma HoldIsPositive(rate: nat)
    requires rate > 0
    ensures HoldFor(rate, 1500) > 0
  {
  }

  lemma StorageExactly(w: Wallet, c: Command, env: Env, cal: Calendar)
    requires c.ChargeStorage?
    ensures Exact(w, c, env, cal, DoChargeStorage(w, c.excess, c.storageRate, c.billingMonth, c.key, env))
  {
    hide Available, KeyUsed, Balance, HeldTotal, Spendable, HalfUp, Nearest;
    FoundKeys(w, c.key);
    SpendableIs(w);
    if c.excess > 0 && c.storageRate > 0 {
      assert c.storageRate * c.excess >= 0;
      NearestIs(c.storageRate * c.excess, GIB);
    }
  }

  lemma CaptureExactly(w: Wallet, c: Command, env: Env, cal: Calendar)
    requires WfReservations(w.reservations) && c.Capture?
    ensures Exact(w, c, env, cal, DoCapture(w, c.reservation, c.amount, c.key, env))
  {
    hide KeyUsed, Holding, Payable, Consequence, Costs, OutageWorth, Redone, Rebudgeted, Resettled;
    FoundHold(w, c.reservation);
    FoundKeys(w, c.key);
    var r := Find(w.reservations, ReservationIs(c.reservation));
    if r.Some? && r.value.status.Active? {
      Settles(w, r.value, Captured);
      assert Holding(w, c.reservation, r.value);
    }
  }

  lemma ReleaseExactly(w: Wallet, c: Command, env: Env, cal: Calendar)
    requires WfReservations(w.reservations) && c.Release?
    ensures Exact(w, c, env, cal, DoRelease(w, c.reservation))
  {
    hide KeyUsed, Holding, Payable, Consequence, Costs, OutageWorth, Redone, Rebudgeted, Resettled;
    FoundHold(w, c.reservation);
    var r := Find(w.reservations, ReservationIs(c.reservation));
    if r.Some? && r.value.status.Active? {
      Settles(w, r.value, Released);
      assert Holding(w, c.reservation, r.value);
    }
  }

  lemma Settles(w: Wallet, r: Reservation, status: ReservationStatus)
    requires WfReservations(w.reservations) && r in w.reservations
    ensures Resettled(w, Substitute(w.reservations, ReservationIs(r.id), r.(status := status)), r.id, status)
  {
    ReplaceReservation(w.reservations, r, r.(status := status));
  }

  lemma UsageExactly(w: Wallet, c: Command, env: Env, cal: Calendar)
    requires WellFormed(w) && c.CaptureUsage?
    ensures Exact(w, c, env, cal, DoCaptureUsage(w, c.quote, c.reservation, c.startedAt, c.releasedAt, c.key, env))
  {
    hide WellFormed, WfReservations, WfQuotes, BillableSeconds, ChargeFor, Nearest, Billed, Costs, Holding, Offered, Resettled;
    hide Payable, Consequence, Redone, Rebudgeted;
    assert WfReservations(w.reservations) && WfQuotes(w.quotes) by { Parts(w); }
    FoundHold(w, c.reservation);
    FoundQuote(w, c.quote);
    FoundUsageKey(w, c.key);
    var q, r := Find(w.quotes, QuoteIs(c.quote)), Find(w.reservations, ReservationIs(c.reservation));
    if c.startedAt <= c.releasedAt && q.Some? && r.Some? {
      CostsIs(q.value, c.startedAt, c.releasedAt);
      assert Costs(q.value, c.startedAt, c.releasedAt, ChargeFor(q.value.rate, BillableSeconds(c.releasedAt - c.startedAt)));
      if r.value.status.Active? {
        Settles(w, r.value, Captured);
        assert Holding(w, c.reservation, r.value) && Offered(w, c.quote, q.value);
      }
    }
  }

  lemma Parts(w: Wallet)
    requires WellFormed(w)
    ensures WfReservations(w.reservations) && WfQuotes(w.quotes) && WfUsages(w.usages) && WfDeposits(w.deposits)
  {
  }

  lemma FoundUsageKey(w: Wallet, key: string)
    ensures Find(w.usages, UsageKeyed(key)).None? <==> forall u :: u in w.usages ==> u.key != key
  {
    assert forall u: Usage :: u.key == key <==> UsageKeyed(key)(u);
  }

  lemma CostsIs(q: Quote, from: Time, until: Time)
    requires from <= until
    ensures var seconds := BillableSeconds(until - from);
            && Billed(seconds, until - from) && Nearest(ChargeFor(q.rate, seconds), q.rate * seconds, 3600)
            && forall cents :: Costs(q, from, until, cents) <==> cents == ChargeFor(q.rate, seconds)
  {
    hide Billed, BillableSeconds, Nearest, HalfUp;
    BilledIs(until - from);
    NearestIs(q.rate * BillableSeconds(until - from), 3600);
  }

  lemma OutageWorthIs(q: Quote, u: Usage, from: Time, until: Time)
    requires from <= until
    ensures forall cents :: OutageWorth(q, u, from, until, cents)
                            <==> cents == Min(ChargeFor(q.rate, CeilSeconds(until - from)), u.amount)
  {
    hide Started, CeilSeconds, Nearest, HalfUp;
    StartedIs(until - from);
    NearestIs(q.rate * CeilSeconds(until - from), 3600);
  }

  lemma AvailabilityExactly(w: Wallet, c: Command, env: Env, cal: Calendar)
    requires WellFormed(w) && c.ApplyAvailability?
    ensures Exact(w, c, env, cal, DoAvailability(w, c.usage, c.unavailableAt, c.recoveredAt, c.key, env))
  {
    hide WellFormed, WfUsages, WfQuotes, CeilSeconds, ChargeFor, OutageWorth, Measured, Offered;
    hide Payable, Consequence, Redone, Rebudgeted;
    assert WfUsages(w.usages) && WfQuotes(w.quotes) by { Parts(w); }
    FoundUsage(w, c.usage);
    FoundInterval(w, c.usage, c.unavailableAt, c.recoveredAt);
    var u := Find(w.usages, UsageIs(c.usage));
    if c.recoveredAt - c.unavailableAt > 120 * SECOND && u.Some? {
      assert Measured(w, c.usage, u.value);
      FoundQuote(w, u.value.quote);
      var q := Find(w.quotes, QuoteIs(u.value.quote));
      if q.Some? {
        assert Offered(w, u.value.quote, q.value);
        OutageWorthIs(q.value, u.value, c.unavailableAt, c.recoveredAt);
        assert OutageWorth(q.value, u.value, c.unavailableAt, c.recoveredAt,
                           Min(ChargeFor(q.value.rate, CeilSeconds(c.recoveredAt - c.unavailableAt)), u.value.amount));
      }
    }
  }

  lemma FoundInterval(w: Wallet, usage: Id, from: Time, until: Time)
    ensures Find(w.entries, AvailabilityFor(OfInterval(usage, from, until))).None? <==>
              forall e :: e in w.entries ==> !(e.kind == AvailabilityCredit && e.reference == OfInterval(usage, from, until))
    ensures Find(w.entries, GuaranteeOf(usage)).None? <==>
              forall e :: e in w.entries ==> !(e.kind == WakeGuarantee && e.reference == OfUsage(usage))
  {
    assert forall e: Entry :: e.kind == WakeGuarantee && e.reference == OfUsage(usage) <==> GuaranteeOf(usage)(e);
    assert forall e: Entry :: e.kind == AvailabilityCredit && e.reference == OfInterval(usage, from, until)
                              <==> AvailabilityFor(OfInterval(usage, from, until))(e);
  }

  lemma GuaranteeExactly(w: Wallet, c: Command, env: Env, cal: Calendar)
    requires WfUsages(w.usages) && c.ApplyGuarantee?
    ensures Exact(w, c, env, cal, DoGuarantee(w, c.usage, c.reachedOnline, c.key, env))
  {
    hide WfUsages, Measured, KeyUsed, Payable, Consequence, Costs, OutageWorth, Redone, Rebudgeted, Resettled;
    FoundUsage(w, c.usage);
    FoundInterval(w, c.usage, 0, 0);
    assert Find(w.usages, UsageIs(c.usage)).Some? ==> Measured(w, c.usage, Find(w.usages, UsageIs(c.usage)).value);
  }

  lemma CreditsExactly(w: Wallet, c: Command, env: Env, cal: Calendar)
    ensures c.CreditWallet? ==> Exact(w, c, env, cal, DoCredit(w, c.amount, c.reference, c.key, env))
    ensures c.ApplySupport? ==> Exact(w, c, env, cal, DoSupport(w, c.amount, c.reference, c.actor, c.reason, c.key, env))
    ensures c.CreateQuote? ==> Exact(w, c, env, cal, DoCreateQuote(w, c.world, c.profile, c.rate, c.key, env))
  {
    hide KeyUsed, Payable, Consequence, Costs, OutageWorth, Redone, Rebudgeted, Resettled;
    if c.CreateQuote? {
      assert forall q: Quote :: q.key == c.key <==> QuoteKeyed(c.key)(q);
    } else if c.CreditWallet? || c.ApplySupport? {
      FoundKeys(w, c.key);
    }
  }

  lemma BudgetExactly(w: Wallet, c: Command, env: Env, cal: Calendar)
    requires c.SetBudget?
    ensures Exact(w, c, env, cal, DoSetBudget(w, c.world, c.limit, c.key, env))
  {
    hide KeyUsed, Payable, Consequence, Costs, OutageWorth, Redone, Resettled;
    assert forall b: Budget :: b.key == c.key <==> BudgetKeyed(c.key)(b);
    assert forall b: Budget :: b.world == c.world <==> BudgetOf(c.world)(b);
    var k := FirstIndex(w.budgets, BudgetOf(c.world));
    var o := Attempt(w, c, env, cal);
    if o.Save? && k < |w.budgets| {
      assert forall n :: 0 <= n < |w.budgets| && w.budgets[n].world == c.world ==> k <= n && w.budgets[k].id == o.next.budgets[n].id;
    }
  }

  lemma Rewrites(w: Wallet, d: Deposit, d': Deposit)
    requires WfDeposits(w.deposits) && d in w.deposits && d'.id == d.id && d'.amount == d.amount
    ensures Redone(w, SetDeposit(w, d').deposits, d.id, d')
  {
    ReplaceDeposit(w.deposits, d, d');
  }

  lemma StartExactly(w: Wallet, c: Command, env: Env, cal: Calendar)
    requires c.StartDeposit?
    ensures Exact(w, c, env, cal, DoStartDeposit(w, c.payer, c.package, c.amount, c.key, env))
  {
    hide Payable, Consequence, Costs, OutageWorth, Redone, Rebudgeted, Resettled;
    assert forall d: Deposit :: d.key == c.key <==> DepositKeyed(c.key)(d);
  }

  lemma DepositExactly(w: Wallet, c: Command, env: Env, cal: Calendar)
    requires WfDeposits(w.deposits)
    ensures c.AttachCheckout? ==> Exact(w, c, env, cal, DoAttach(w, c.deposit, c.checkout))
    ensures c.ReconcileCheckout? ==> Exact(w, c, env, cal, DoReconcile(w, c.deposit, c.checkout))
    ensures c.RecordRefund? ==> Exact(w, c, env, cal, DoRecordRefund(w, c.deposit, c.refund))
  {
    hide WfDeposits, Redone, Contributed, Payable, Consequence, Costs, OutageWorth, Rebudgeted, Resettled;
    if c.AttachCheckout? || c.ReconcileCheckout? || c.RecordRefund? {
      FoundDeposit(w, c.deposit);
      var found := Find(w.deposits, DepositIs(c.deposit));
      if found.Some? {
        var d := found.value;
        assert Contributed(w, c.deposit, d);
        if c.AttachCheckout? {
          Rewrites(w, d, d.(checkout := Some(c.checkout), status := ContributionStatus.Pending, refund := None));
        } else if c.ReconcileCheckout? {
          Rewrites(w, d, d.(checkout := Some(c.checkout), status := ContributionStatus.Pending));
        } else {
          Rewrites(w, d, d.(status := RefundRequested, refund := Some(c.refund)));
        }
      }
    }
  }

  lemma ConsequenceIs(w: Wallet, d: Deposit, c: Command, env: Env)
    requires c.ProcessEvent? && d.amount > 0
    ensures var effect := EventEffect(w, d, c.event, c.kind, c.paid, c.charged, env);
            && (effect.None? <==> Malformed(d, c.kind, c.paid, c.charged))
            && (effect.Some? ==>
                  && effect.value.deposit == d.(status := effect.value.deposit.status)
                  && Consequence(w, d, c, env, effect.value.deposit.status, effect.value.entries))
  {
    hide Available, Spendable;
    SpendableIs(w);
  }

  lemma EventExactly(w: Wallet, c: Command, env: Env, cal: Calendar)
    requires WellFormed(w) && c.ProcessEvent?
    ensures Exact(w, c, env, cal, DoEvent(w, c.event, c.kind, c.deposit, c.checkout, c.paid, c.charged, env))
  {
    hide WellFormed, WfDeposits, Redone, Contributed, EventEffect, Consequence, Malformed;
    assert WfDeposits(w.deposits) by { Parts(w); }
    assert forall e: PaymentEvent :: e.id == c.event <==> EventIs(c.event)(e);
    FoundDeposit(w, c.deposit);
    var found := Find(w.deposits, DepositIs(c.deposit));
    if found.Some? {
      var d := found.value;
      assert Contributed(w, c.deposit, d);
      assert d.amount > 0 by { Parts(w); Positive(w, d); }
      ConsequenceIs(w, d, c, env);
      var effect := EventEffect(w, d, c.event, c.kind, c.paid, c.charged, env);
      if effect.Some? {
        Rewrites(w, d, effect.value.deposit);
      }
    }
  }

  lemma Positive(w: Wallet, d: Deposit)
    requires WfDeposits(w.deposits) && d in w.deposits
    ensures d.amount > 0
  {
  }

  lemma AnyExactly(w: Wallet, c: Command, env: Env, cal: Calendar)
    requires WellFormed(w) && !c.Protect?
    ensures Exact(w, c, env, cal, Attempt(w, c, env, cal))
  {
    hide Exact, WellFormed, WfReservations, WfQuotes, WfUsages, WfDeposits;
    hide DoReserve, DoReserveForWake, DoChargeStorage, DoCapture, DoRelease, DoCaptureUsage, DoAvailability, DoSetBudget, DoEvent,
         DoStartDeposit, DoAttach, DoReconcile, DoRecordRefund, DoGuarantee, DoCredit, DoSupport, DoCreateQuote;
    Parts(w);
    if c.Reserve? {
      ReserveExactly(w, c, env, cal);
    } else if c.ReserveForWake? {
      WakeExactly(w, c, env, cal);
    } else if c.ChargeStorage? {
      StorageExactly(w, c, env, cal);
    } else if c.Capture? {
      CaptureExactly(w, c, env, cal);
    } else if c.Release? {
      ReleaseExactly(w, c, env, cal);
    } else if c.CaptureUsage? {
      UsageExactly(w, c, env, cal);
    } else if c.ApplyAvailability? {
      AvailabilityExactly(w, c, env, cal);
    } else if c.ApplyGuarantee? {
      GuaranteeExactly(w, c, env, cal);
    } else if c.SetBudget? {
      BudgetExactly(w, c, env, cal);
    } else if c.ProcessEvent? {
      EventExactly(w, c, env, cal);
    } else if c.StartDeposit? {
      StartExactly(w, c, env, cal);
    } else {
      DepositExactly(w, c, env, cal);
      CreditsExactly(w, c, env, cal);
    }
  }

  /** Every command but the guard, on every wallet whose identifiers are unique: it saves exactly when the
      records say so, and it leaves exactly this. */
  lemma CommandExactly(w: Wallet, c: Command, env: Env, cal: Calendar)
    requires WellFormed(w) && !c.Protect?
    ensures Attempt(w, c, env, cal).Save? <==> Takes(w, c, env.now, cal)
    ensures Attempt(w, c, env, cal).Save? ==> Leaves(w, c, env, Attempt(w, c, env, cal).next)
  {
    hide Attempt, Takes, Leaves;
    AnyExactly(w, c, env, cal);
  }

  // ----- a contribution under review

  /** While a contribution is under review no new money is held or spent. */
  lemma ReviewFreezes(w: Wallet, c: Command, env: Env, cal: Calendar)
    requires WellFormed(w) && UnderReview(w) && (c.Reserve? || c.ReserveForWake? || c.ChargeStorage?)
    ensures !Attempt(w, c, env, cal).Save?
  {
    CommandExactly(w, c, env, cal);
    hide Attempt, Balance, HeldTotal;
  }

  /** And a reversal of a credited contribution posts nothing and puts that one under review as well. */
  lemma ReviewSpreads(w: Wallet, c: Command, env: Env, cal: Calendar, d: Deposit)
    requires WellFormed(w) && UnderReview(w) && c.ProcessEvent? && c.kind in {CheckoutRefunded, CheckoutDisputed}
    requires Contributed(w, c.deposit, d) && d.status in {Completed, RefundRequested} && Attempt(w, c, env, cal).Save?
    ensures Attempt(w, c, env, cal).next.entries == w.entries
    ensures Redone(w, Attempt(w, c, env, cal).next.deposits, c.deposit, d.(status := NeedsReview))
  {
    hide WellFormed, WfDeposits, Redone, Available, Balance, HeldTotal, UnderReview;
    assert WfDeposits(w.deposits) by { Parts(w); }
    FoundDeposit(w, c.deposit);
    Positive(w, d);
    assert Available(w) == 0 by { SpendableIs(w); FrozenIsNothing(w); }
    assert Attempt(w, c, env, cal) == DoEvent(w, c.event, c.kind, c.deposit, c.checkout, c.paid, c.charged, env);
    hide Attempt;
    Rewrites(w, d, d.(status := NeedsReview));
  }

  lemma FrozenIsNothing(w: Wallet)
    requires UnderReview(w)
    ensures Spendable(w) == 0
  {
  }

  /** A wallet without one, and a new key: a hold is made exactly when the ledger balance less the holds pays
      it and the World's budget, where there is one, still has room for it this month. */
  lemma ReservesExactly(w: Wallet, amount: int, purpose: string, key: string, quote: Option<Id>, world: Option<Id>,
                        env: Env, cal: Calendar)
    requires WellFormed(w) && !UnderReview(w) && forall r :: r in w.reservations ==> r.key != key
    ensures Attempt(w, Reserve(amount, purpose, key, quote, world), env, cal).Save?
            <==> && 0 < amount <= Balance(w) - HeldTotal(w)
                 && (world.Some? ==> BudgetPays(w, world.value, cal(env.now), cal, amount))
  {
    CommandExactly(w, Reserve(amount, purpose, key, quote, world), env, cal);
    hide Attempt, Balance, HeldTotal, BudgetPays;
  }

  /** Why a hold under a new key is refused: for what may be spent first, then for the World's budget. */
  lemma ReserveRefusals(w: Wallet, amount: int, purpose: string, key: string, quote: Option<Id>, world: Option<Id>,
                        env: Env, cal: Calendar)
    requires amount > 0 && forall r :: r in w.reservations ==> r.key != key
    ensures var o := Attempt(w, Reserve(amount, purpose, key, quote, world), env, cal);
            && (o == Raise(InsufficientFunds) <==> amount > Spendable(w))
            && (o == Raise(BudgetExceeded) <==>
                  amount <= Spendable(w) && world.Some? && !BudgetPays(w, world.value, cal(env.now), cal, amount))
  {
    hide Available, BudgetAvailable, BudgetPays, Balance, HeldTotal, Spendable;
    SpendableIs(w);
    FoundKeys(w, key);
    if world.Some? {
      BudgetIs(w, world.value, env.now, cal);
    }
  }

  /** The record a command is about, in this wallet: of its key, of its identifier, or of its interval. */
  ghost predicate Concerns(w: Wallet, c: Command, reply: Reply) {
    match c
    case CreateQuote(_, _, _, key) => reply.Quoted? && reply.quote in w.quotes && reply.quote.key == key
    case ReserveForWake(_, key) => reply.Held? && reply.reservation in w.reservations && reply.reservation.key == key
    case Reserve(_, _, key, _, _) => reply.Held? && reply.reservation in w.reservations && reply.reservation.key == key
    case SetBudget(_, _, key) => reply.Budgeted? && reply.budget in w.budgets && reply.budget.key == key
    case CreditWallet(_, _, key) => reply.Posted? && reply.entry in w.entries && reply.entry.key == key
    case ChargeStorage(_, _, _, key) => reply.Posted? && reply.entry in w.entries && reply.entry.key == key
    case Capture(_, _, key) => reply.Posted? && reply.entry in w.entries && reply.entry.key == key
    case ApplySupport(amount, reference, actor, reason, key) =>
      && reply.Posted? && reply.entry in w.entries && reply.entry.key == key && reply.entry.kind == SupportCredit
      && (reply.entry.amount, reply.entry.reference, reply.entry.actor, reply.entry.reason) == (amount, Text(reference), actor, reason)
    case Release(id) =>
      reply.Held? && reply.reservation in w.reservations && reply.reservation.id == id && reply.reservation.status == Released
    case ApplyGuarantee(usage, _, _) =>
      reply.Posted? && reply.entry in w.entries && reply.entry.kind == WakeGuarantee && reply.entry.reference == OfUsage(usage)
    case ApplyAvailability(usage, from, until, _) =>
      || reply.Nothing?
      || (&& reply.Posted? && reply.entry in w.entries && reply.entry.kind == AvailabilityCredit
          && reply.entry.reference == OfInterval(usage, from, until))
    case CaptureUsage(_, _, _, _, key) => reply.Used? && reply.usage in w.usages && reply.usage.key == key
    case StartDeposit(payer, package, _, key) =>
      && reply.Deposited? && reply.deposit in w.deposits && reply.deposit.key == key
      && reply.deposit.payer == payer && reply.deposit.package == package
    case AttachCheckout(id, _) => reply.Deposited? && reply.deposit in w.deposits && reply.deposit.id == id
    case ReconcileCheckout(id, _) => reply.Deposited? && reply.deposit in w.deposits && reply.deposit.id == id
    case RecordRefund(id, _) => reply.Deposited? && reply.deposit in w.deposits && reply.deposit.id == id
    case ProcessEvent(event, _, _, _, _, _) => reply.Processed? && reply.event in w.events && reply.event.id == event
    case Protect(_, id, _, _, _, _) => reply.Decided? && reply.decision.reservation == id
  }

  ghost predicate Answers(w: Wallet, c: Command, o: Outcome) { !o.Raise? ==> Concerns(After(w, o), c, o.reply) }

  lemma HoldAnswers(w: Wallet, c: Command, env: Env, cal: Calendar)
    ensures c.Reserve? ==> Answers(w, c, DoReserve(w, c.amount, c.purpose, c.key, c.quoteId, c.worldId, env, cal))
    ensures c.ReserveForWake? ==> Answers(w, c, DoReserveForWake(w, c.quote, c.key, env, cal))
    ensures c.CreateQuote? ==> Answers(w, c, DoCreateQuote(w, c.world, c.profile, c.rate, c.key, env))
    ensures c.CaptureUsage? ==>
              Answers(w, c, DoCaptureUsage(w, c.quote, c.reservation, c.startedAt, c.releasedAt, c.key, env))
    ensures c.Release? ==> Answers(w, c, DoRelease(w, c.reservation))
  {
    hide Available, BudgetAvailable, HoldFor, ChargeFor, BillableSeconds;
    if c.Release? {
      var o := DoRelease(w, c.reservation);
      if o.Save? {
        var r := Find(w.reservations, ReservationIs(c.reservation)).value;
        var n :| 0 <= n < |w.reservations| && w.reservations[n] == r;
        assert o.next.reservations[n] == o.reply.reservation;
      }
    }
  }

  lemma PostAnswers(w: Wallet, c: Command, env: Env)
    ensures c.CreditWallet? ==> Answers(w, c, DoCredit(w, c.amount, c.reference, c.key, env))
    ensures c.ChargeStorage? ==> Answers(w, c, DoChargeStorage(w, c.excess, c.storageRate, c.billingMonth, c.key, env))
    ensures c.Capture? ==> Answers(w, c, DoCapture(w, c.reservation, c.amount, c.key, env))
    ensures c.ApplySupport? ==> Answers(w, c, DoSupport(w, c.amount, c.reference, c.actor, c.reason, c.key, env))
    ensures c.ApplyGuarantee? ==> Answers(w, c, DoGuarantee(w, c.usage, c.reachedOnline, c.key, env))
    ensures c.ApplyAvailability? ==> Answers(w, c, DoAvailability(w, c.usage, c.unavailableAt, c.recoveredAt, c.key, env))
  {
    hide Available, HalfUp, ChargeFor, CeilSeconds;
  }

  lemma SetIsThere(w: Wallet, d: Deposit, d': Deposit)
    requires d in w.deposits && d'.id == d.id
    ensures d' in SetDeposit(w, d').deposits
  {
    var n :| 0 <= n < |w.deposits| && w.deposits[n] == d;
    assert SetDeposit(w, d').deposits[n] == d';
  }

  lemma DepositAnswers(w: Wallet, c: Command, env: Env)
    ensures c.AttachCheckout? ==> Answers(w, c, DoAttach(w, c.deposit, c.checkout))
    ensures c.ReconcileCheckout? ==> Answers(w, c, DoReconcile(w, c.deposit, c.checkout))
    ensures c.RecordRefund? ==> Answers(w, c, DoRecordRefund(w, c.deposit, c.refund))
  {
    hide SetDeposit;
    if c.AttachCheckout? || c.ReconcileCheckout? || c.RecordRefund? {
      var found := Find(w.deposits, DepositIs(c.deposit));
      if found.Some? {
        var d := found.value;
        if c.AttachCheckout? {
          SetIsThere(w, d, d.(checkout := Some(c.checkout), status := ContributionStatus.Pending, refund := None));
        } else if c.ReconcileCheckout? {
          SetIsThere(w, d, d.(checkout := Some(c.checkout), status := ContributionStatus.Pending));
        } else {
          SetIsThere(w, d, d.(status := RefundRequested, refund := Some(c.refund)));
        }
      }
    }
  }

  lemma OtherAnswers(w: Wallet, c: Command, env: Env, cal: Calendar)
    ensures c.SetBudget? ==> Answers(w, c, DoSetBudget(w, c.world, c.limit, c.key, env))
    ensures c.StartDeposit? ==> Answers(w, c, DoStartDeposit(w, c.payer, c.package, c.amount, c.key, env))
    ensures c.ProcessEvent? ==> Answers(w, c, DoEvent(w, c.event, c.kind, c.deposit, c.checkout, c.paid, c.charged, env))
    ensures c.Protect? ==>
              Answers(w, c, DoProtect(w, c.quote, c.reservation, c.startedAt, c.observedAt, c.sleepSeconds, c.interval, cal))
  {
    hide EventEffect, PlanGuard, GuardMinutes, GuardPercents, GuardedWallet, CeilSeconds;
    if c.SetBudget? {
      var o := DoSetBudget(w, c.world, c.limit, c.key, env);
      if o.Save? {
        var n := FirstIndex(w.budgets, BudgetOf(c.world));
        assert o.reply.budget == o.next.budgets[n];
      }
    }
  }

  /** A command that does not fail answers with its own record, as it is in the wallet afterwards, whether it
      made the record now or found it there. */
  lemma AnswersFit(w: Wallet, c: Command, env: Env, cal: Calendar)
    ensures var o := Attempt(w, c, env, cal); !o.Raise? ==> Concerns(After(w, o), c, o.reply)
  {
    hide Concerns;
    hide DoReserve, DoReserveForWake, DoChargeStorage, DoCapture, DoRelease, DoCaptureUsage, DoAvailability, DoSetBudget, DoEvent,
         DoStartDeposit, DoAttach, DoReconcile, DoRecordRefund, DoGuarantee, DoCredit, DoSupport, DoCreateQuote, DoProtect;
    HoldAnswers(w, c, env, cal);
    PostAnswers(w, c, env);
    DepositAnswers(w, c, env);
    OtherAnswers(w, c, env, cal);
  }

  // ----- repeats, and failures

  ghost predicate FirstLine(w: Wallet, key: string, n: int) {
    0 <= n < |w.entries| && w.entries[n].key == key && forall k :: 0 <= k < n ==> w.entries[k].key != key
  }

  ghost predicate FirstDeposit(w: Wallet, key: string, n: int) {
    0 <= n < |w.deposits| && w.deposits[n].key == key && forall k :: 0 <= k < n ==> w.deposits[k].key != key
  }

  /** What was asked for is there already, or there is nothing to do. */
  ghost predicate Repeats(w: Wallet, c: Command, now: Time)
    requires !c.Protect?
  {
    match c
    case CreateQuote(_, _, rate, key) => rate > 0 && exists q :: q in w.quotes && q.key == key
    case ReserveForWake(quote, key) => HoldKeyUsed(w, key) && exists q :: Offered(w, quote, q) && now <= q.expiresAt
    case Reserve(amount, _, key, _, _) => amount > 0 && HoldKeyUsed(w, key)
    case SetBudget(_, limit, key) => limit > 0 && exists b :: b in w.budgets && b.key == key
    case CreditWallet(amount, _, key) => amount > 0 && KeyUsed(w, key)
    case ChargeStorage(excess, rate, _, key) =>
      excess > 0 && rate > 0 && KeyUsed(w, key) && exists cents :: Nearest(cents, rate * excess, 1_073_741_824) && cents > 0
    case Release(id) => exists r :: r in w.reservations && r.id == id && r.status == Released
    case ApplyGuarantee(usage, reachedOnline, _) =>
      && !reachedOnline && (exists u :: Measured(w, usage, u))
      && exists e :: e in w.entries && e.kind == WakeGuarantee && e.reference == OfUsage(usage)
    case ApplyAvailability(usage, from, until, _) =>
      || until - from <= 120_000_000
      || exists u :: Measured(w, usage, u) && u.startedAt <= from && until <= u.releasedAt
           && ((exists e :: e in w.entries && e.kind == AvailabilityCredit && e.reference == OfInterval(usage, from, until))
               || (exists q, cents :: Offered(w, u.quote, q) && OutageWorth(q, u, from, until, cents) && cents <= 0))
    case ApplySupport(amount, reference, actor, reason, key) =>
      && amount > 0 && reference != "" && actor != "" && reason != "" && key != ""
      && exists n :: FirstLine(w, key, n)
           && w.entries[n] == Entry(w.entries[n].id, SupportCredit, amount, Text(reference), key, w.entries[n].at, actor, reason)
    case Capture(_, amount, key) => amount > 0 && KeyUsed(w, key)
    case CaptureUsage(_, _, from, until, key) => from <= until && exists u :: u in w.usages && u.key == key
    case StartDeposit(payer, package, amount, key) =>
      amount > 0 && exists n :: FirstDeposit(w, key, n) && w.deposits[n].payer == payer && w.deposits[n].package == package
    case AttachCheckout(id, _) => exists d :: Contributed(w, id, d) && d.status == ContributionStatus.Pending
    case ReconcileCheckout(id, _) => exists d :: Contributed(w, id, d) && d.status != CreatingCheckout
    case RecordRefund(id, _) => exists d :: Contributed(w, id, d) && d.status in {RefundRequested, Refunded}
    case ProcessEvent(event, _, _, _, _, _) => exists e :: e in w.events && e.id == event
  }

  ghost predicate Same(w: Wallet, c: Command, now: Time, o: Outcome)
    requires !c.Protect?
  {
    o.Return? <==> Repeats(w, c, now)
  }

  lemma GrantRepeats(w: Wallet, c: Command, env: Env, cal: Calendar)
    requires WfQuotes(w.quotes) && WfReservations(w.reservations)
    ensures c.Reserve? ==> Same(w, c, env.now, DoReserve(w, c.amount, c.purpose, c.key, c.quoteId, c.worldId, env, cal))
    ensures c.ReserveForWake? ==> Same(w, c, env.now, DoReserveForWake(w, c.quote, c.key, env, cal))
    ensures c.Release? ==> Same(w, c, env.now, DoRelease(w, c.reservation))
    ensures c.CreateQuote? ==> Same(w, c, env.now, DoCreateQuote(w, c.world, c.profile, c.rate, c.key, env))
  {
    hide Available, BudgetAvailable, HoldFor, HoldKeyUsed, KeyUsed;
    if c.Reserve? {
      FoundKeys(w, c.key);
    } else if c.ReserveForWake? {
      FoundKeys(w, c.key);
      FoundQuote(w, c.quote);
      if q :| Offered(w, c.quote, q) {
        HoldIsPositive(q.rate);
      }
    } else if c.Release? {
      FoundAny(w, c.reservation);
    } else if c.CreateQuote? {
      assert forall q: Quote :: q.key == c.key <==> QuoteKeyed(c.key)(q);
    }
  }

  lemma FoundAny(w: Wallet, id: Id)
    requires WfReservations(w.reservations)
    ensures forall x :: x in w.reservations && x.id == id <==> Find(w.reservations, ReservationIs(id)) == Some(x)
  {
    forall x | x in w.reservations && x.id == id ensures Find(w.reservations, ReservationIs(id)) == Some(x) {
      assert ReservationIs(id)(x);
      var y := Find(w.reservations, ReservationIs(id)).value;
      assert ReservationId()(x) == ReservationId()(y);
    }
  }

  lemma ChargeRepeats(w: Wallet, c: Command, env: Env)
    ensures c.CreditWallet? ==> Same(w, c, env.now, DoCredit(w, c.amount, c.reference, c.key, env))
    ensures c.ChargeStorage? ==>
              Same(w, c, env.now, DoChargeStorage(w, c.excess, c.storageRate, c.billingMonth, c.key, env))
    ensures c.Capture? ==> Same(w, c, env.now, DoCapture(w, c.reservation, c.amount, c.key, env))
    ensures c.CaptureUsage? ==>
              Same(w, c, env.now, DoCaptureUsage(w, c.quote, c.reservation, c.startedAt, c.releasedAt, c.key, env))
  {
    hide Available, HalfUp, ChargeFor, BillableSeconds, KeyUsed, Nearest;
    if c.CaptureUsage? {
      FoundUsageKey(w, c.key);
    } else if c.CreditWallet? || c.Capture? || c.ChargeStorage? {
      FoundKeys(w, c.key);
      if c.ChargeStorage? && c.excess > 0 && c.storageRate > 0 {
        assert c.storageRate * c.excess >= 0;
        NearestIs(c.storageRate * c.excess, GIB);
      }
    }
  }

  lemma FoundLine(w: Wallet, key: string)
    ensures var e := Find(w.entries, EntryKeyed(key));
            && (e.None? ==> forall n :: !FirstLine(w, key, n))
            && (e.Some? ==> exists n :: FirstLine(w, key, n) && w.entries[n] == e.value)
            && forall n :: FirstLine(w, key, n) ==> e == Some(w.entries[n])
  {
    var i := FirstIndex(w.entries, EntryKeyed(key));
    assert forall k :: 0 <= k < |w.entries| ==> (EntryKeyed(key)(w.entries[k]) <==> w.entries[k].key == key);
    assert i < |w.entries| ==> FirstLine(w, key, i);
    assert forall n :: FirstLine(w, key, n) ==> n == i;
  }

  lemma FoundFirstDeposit(w: Wallet, key: string)
    ensures var d := Find(w.deposits, DepositKeyed(key));
            && (d.None? ==> forall n :: !FirstDeposit(w, key, n))
            && (d.Some? ==> exists n :: FirstDeposit(w, key, n) && w.deposits[n] == d.value)
            && forall n :: FirstDeposit(w, key, n) ==> d == Some(w.deposits[n])
  {
    var i := FirstIndex(w.deposits, DepositKeyed(key));
    assert forall k :: 0 <= k < |w.deposits| ==> (DepositKeyed(key)(w.deposits[k]) <==> w.deposits[k].key == key);
    assert i < |w.deposits| ==> FirstDeposit(w, key, i);
    assert forall n :: FirstDeposit(w, key, n) ==> n == i;
  }

  lemma CreditRepeats(w: Wallet, c: Command, env: Env)
    requires WfUsages(w.usages) && WfQuotes(w.quotes)
    ensures c.ApplyGuarantee? ==> Same(w, c, env.now, DoGuarantee(w, c.usage, c.reachedOnline, c.key, env))
    ensures c.ApplyAvailability? ==> Same(w, c, env.now, DoAvailability(w, c.usage, c.unavailableAt, c.recoveredAt, c.key, env))
  {
    hide WfUsages, WfQuotes, CeilSeconds, ChargeFor, OutageWorth, Measured, Offered;
    if c.ApplyGuarantee? {
      FoundUsage(w, c.usage);
      FoundInterval(w, c.usage, 0, 0);
      assert Find(w.usages, UsageIs(c.usage)).Some? ==> Measured(w, c.usage, Find(w.usages, UsageIs(c.usage)).value);
    } else if c.ApplyAvailability? && c.recoveredAt - c.unavailableAt > 120 * SECOND {
      FoundUsage(w, c.usage);
      FoundInterval(w, c.usage, c.unavailableAt, c.recoveredAt);
      var u := Find(w.usages, UsageIs(c.usage));
      if u.Some? {
        assert Measured(w, c.usage, u.value);
        FoundQuote(w, u.value.quote);
        var q := Find(w.quotes, QuoteIs(u.value.quote));
        if q.Some? {
          assert Offered(w, u.value.quote, q.value);
          OutageWorthIs(q.value, u.value, c.unavailableAt, c.recoveredAt);
          assert OutageWorth(q.value, u.value, c.unavailableAt, c.recoveredAt,
                             Min(ChargeFor(q.value.rate, CeilSeconds(c.recoveredAt - c.unavailableAt)), u.value.amount));
        }
      }
    }
  }

  lemma DepositRepeats(w: Wallet, c: Command, env: Env)
    requires WfDeposits(w.deposits)
    ensures c.StartDeposit? ==> Same(w, c, env.now, DoStartDeposit(w, c.payer, c.package, c.amount, c.key, env))
    ensures c.AttachCheckout? ==> Same(w, c, env.now, DoAttach(w, c.deposit, c.checkout))
    ensures c.ReconcileCheckout? ==> Same(w, c, env.now, DoReconcile(w, c.deposit, c.checkout))
    ensures c.RecordRefund? ==> Same(w, c, env.now, DoRecordRefund(w, c.deposit, c.refund))
    ensures c.ProcessEvent? ==>
              Same(w, c, env.now, DoEvent(w, c.event, c.kind, c.deposit, c.checkout, c.paid, c.charged, env))
  {
    hide WfDeposits, SetDeposit, EventEffect, Contributed, FirstDeposit;
    if c.ProcessEvent? {
      assert forall e: PaymentEvent :: e.id == c.event <==> EventIs(c.event)(e);
    } else if c.StartDeposit? {
      FoundFirstDeposit(w, c.key);
    } else if c.AttachCheckout? || c.ReconcileCheckout? || c.RecordRefund? {
      FoundDeposit(w, c.deposit);
      var d := Find(w.deposits, DepositIs(c.deposit));
      assert d.Some? ==> Contributed(w, c.deposit, d.value);
    }
  }

  lemma OtherRepeats(w: Wallet, c: Command, env: Env)
    ensures c.ApplySupport? ==>
              Same(w, c, env.now, DoSupport(w, c.amount, c.reference, c.actor, c.reason, c.key, env))
    ensures c.SetBudget? ==> Same(w, c, env.now, DoSetBudget(w, c.world, c.limit, c.key, env))
  {
    hide FirstLine;
    if c.ApplySupport? {
      FoundLine(w, c.key);
    } else if c.SetBudget? {
      assert forall b: Budget :: b.key == c.key <==> BudgetKeyed(c.key)(b);
    }
  }

  /** Every command but the guard answers without saving exactly when it repeats what is there, and otherwise,
      unless it takes effect, fails. */
  lemma RepeatsExactly(w: Wallet, c: Command, env: Env, cal: Calendar)
    requires WellFormed(w) && !c.Protect?
    ensures Attempt(w, c, env, cal).Return? <==> Repeats(w, c, env.now)
    ensures Attempt(w, c, env, cal).Raise? <==> !Repeats(w, c, env.now) && !Takes(w, c, env.now, cal)
  {
    hide Takes, Leaves;
    CommandExactly(w, c, env, cal);
    assert Same(w, c, env.now, Attempt(w, c, env, cal)) by {
      hide Same, WellFormed, WfReservations, WfQuotes, WfUsages, WfDeposits;
      hide DoReserve, DoReserveForWake, DoChargeStorage, DoCapture, DoRelease, DoCaptureUsage, DoAvailability, DoSetBudget, DoEvent,
           DoStartDeposit, DoAttach, DoReconcile, DoRecordRefund, DoGuarantee, DoCredit, DoSupport, DoCreateQuote;
      Parts(w);
      GrantRepeats(w, c, env, cal);
      ChargeRepeats(w, c, env);
      CreditRepeats(w, c, env);
      DepositRepeats(w, c, env);
      OtherRepeats(w, c, env);
    }
  }
}
