/** The wallet aggregate and every billing command as one attempt on one snapshot:
    what the command would save, what it answers without saving, or the error it raises. */
module Wallet {
  import opened Base
  import opened Money

  datatype EntryKind =
    | Contribution | RuntimeCharge | StorageCharge | WakeGuarantee
    | AvailabilityCredit | SupportCredit | Refund | Dispute

  /** What a ledger entry refers to. Credits of a usage name it, alone or with an interval. */
  datatype Reference =
    | OfUsage(usage: Id)
    | OfInterval(usage: Id, from: Time, until: Time)
    | OfContribution(contribution: Id)
    | Text(text: string)

  datatype Entry = Entry(id: Id, kind: EntryKind, amount: int, reference: Reference, key: string, at: Time,
                         actor: string, reason: string)

  datatype ReservationStatus = Active | Captured | Released

  datatype Reservation = Reservation(id: Id, amount: int, purpose: string, key: string, status: ReservationStatus,
                                     createdAt: Time, quote: Option<Id>, world: Option<Id>)

  datatype Quote = Quote(id: Id, world: Id, profile: string, rate: nat, key: string, createdAt: Time, expiresAt: Time)

  datatype Usage = Usage(id: Id, world: Id, quote: Id, reservation: Id, seconds: nat, amount: int,
                         startedAt: Time, releasedAt: Time, charge: Id, key: string)

  datatype ContributionStatus =
    | CreatingCheckout | Pending | Completed | RefundRequested | Refunded | Disputed | NeedsReview

  datatype Deposit = Deposit(id: Id, payer: Id, package: Id, amount: int, checkout: Option<Id>,
                             status: ContributionStatus, key: string, refund: Option<Id>)

  datatype EventKind = CheckoutCompleted | CheckoutRefunded | CheckoutDisputed | OtherEvent

  datatype PaymentEvent = PaymentEvent(id: Id, kind: EventKind, deposit: Id, at: Time)

  datatype Guard = Guard(reservation: Id, notified: set<int>)

  datatype Budget = Budget(id: Id, world: Id, limit: nat, key: string, updatedAt: Time)

  datatype BudgetAlerts = BudgetAlerts(world: Id, period: int, notified: set<int>)

  datatype Wallet = Wallet(
    entries: seq<Entry>, reservations: seq<Reservation>, quotes: seq<Quote>, usages: seq<Usage>,
    deposits: seq<Deposit>, events: seq<PaymentEvent>, guards: seq<Guard>,
    budgets: seq<Budget>, alerts: seq<BudgetAlerts>)

  const EmptyWallet := Wallet([], [], [], [], [], [], [], [], [])

  /** Fresh identifiers and the clock reading of one attempt. */
  datatype Env = Env(id: Id, id2: Id, now: Time)

  /** The calendar month of an instant. */
  type Calendar = Time -> int

  datatype Command =
    | CreateQuote(world: Id, profile: string, rate: int, key: string)
    | ReserveForWake(quote: Id, key: string)
    | Reserve(amount: int, purpose: string, key: string, quoteId: Option<Id>, worldId: Option<Id>)
    | SetBudget(world: Id, limit: int, key: string)
    | CreditWallet(amount: int, reference: string, key: string)
    | ChargeStorage(excess: int, storageRate: int, billingMonth: string, key: string)
    | Protect(quote: Id, reservation: Id, startedAt: Time, observedAt: Time, sleepSeconds: int, interval: int)
    | Release(reservation: Id)
    | ApplyGuarantee(usage: Id, reachedOnline: bool, key: string)
    | ApplyAvailability(usage: Id, unavailableAt: Time, recoveredAt: Time, key: string)
    | ApplySupport(amount: int, reference: string, actor: string, reason: string, key: string)
    | Capture(reservation: Id, amount: int, key: string)
    | CaptureUsage(quote: Id, reservation: Id, startedAt: Time, releasedAt: Time, key: string)
    | StartDeposit(payer: Id, package: Id, amount: int, key: string)
    | AttachCheckout(deposit: Id, checkout: Id)
    | ReconcileCheckout(deposit: Id, checkout: Id)
    | RecordRefund(deposit: Id, refund: Id)
    | ProcessEvent(event: Id, kind: EventKind, deposit: Id, checkout: Id, paid: Option<int>, charged: Option<int>)

  datatype Decision = Decision(reservation: Id, reserved: int, remaining: nat, minuteAlert: Option<int>,
                               budgetAlert: Option<int>, safeSleepReserved: bool, shouldSleep: bool,
                               reason: Option<SleepReason>)

  datatype SleepReason = BudgetExhausted | InsufficientBalance

  datatype Reply =
    | Posted(entry: Entry) | Held(reservation: Reservation) | Quoted(quote: Quote) | Used(usage: Usage)
    | Budgeted(budget: Budget) | Decided(decision: Decision) | Deposited(deposit: Deposit)
    | Processed(event: PaymentEvent) | Nothing

  datatype Error = NotFound | InvalidValue | Expired | InsufficientFunds | BudgetExceeded | Inactive | Mismatch | Conflict | Incomplete

  datatype Outcome = Save(next: Wallet, reply: Reply) | Return(reply: Reply) | Raise(error: Error)

  // ----- selectors

  function EntryKeyed(key: string): Entry -> bool { (e: Entry) => e.key == key }
  function ReservationIs(id: Id): Reservation -> bool { (r: Reservation) => r.id == id }
  function ReservationKeyed(key: string): Reservation -> bool { (r: Reservation) => r.key == key }
  function QuoteIs(id: Id): Quote -> bool { (q: Quote) => q.id == id }
  function QuoteKeyed(key: string): Quote -> bool { (q: Quote) => q.key == key }
  function UsageIs(id: Id): Usage -> bool { (u: Usage) => u.id == id }
  function UsageKeyed(key: string): Usage -> bool { (u: Usage) => u.key == key }
  function DepositIs(id: Id): Deposit -> bool { (d: Deposit) => d.id == id }
  function DepositKeyed(key: string): Deposit -> bool { (d: Deposit) => d.key == key }
  function EventIs(id: Id): PaymentEvent -> bool { (e: PaymentEvent) => e.id == id }
  function GuardOf(reservation: Id): Guard -> bool { (g: Guard) => g.reservation == reservation }
  function BudgetOf(world: Id): Budget -> bool { (b: Budget) => b.world == world }
  function BudgetKeyed(key: string): Budget -> bool { (b: Budget) => b.key == key }
  function AlertsOf(world: Id, period: int): BudgetAlerts -> bool {
    (a: BudgetAlerts) => a.world == world && a.period == period
  }
  function InReview(): Deposit -> bool { (d: Deposit) => d.status.NeedsReview? }
  function GuaranteeOf(usage: Id): Entry -> bool {
    (e: Entry) => e.kind.WakeGuarantee? && e.reference == OfUsage(usage)
  }
  function AvailabilityFor(reference: Reference): Entry -> bool {
    (e: Entry) => e.kind.AvailabilityCredit? && e.reference == reference
  }

  // ----- amounts

  function AmountOf(): Entry -> int { (e: Entry) => e.amount }
  function HoldOf(): Reservation -> int { (r: Reservation) => if r.status.Active? then r.amount else 0 }
  function HoldIn(world: Id): Reservation -> int {
    (r: Reservation) => if r.status.Active? && r.world == Some(world) then r.amount else 0
  }
  predicate CreditsUsage(e: Entry, usage: Id) {
    && (e.kind.WakeGuarantee? || e.kind.AvailabilityCredit?)
    && (e.reference.OfUsage? || e.reference.OfInterval?)
    && e.reference.usage == usage
  }
  function CreditOf(usage: Id): Entry -> int {
    (e: Entry) => if CreditsUsage(e, usage) then e.amount else 0
  }

  function Max(a: int, b: int): int { if a < b then b else a }
  function Min(a: int, b: int): int { if a < b then a else b }

  function Balance(w: Wallet): int { Sum(w.entries, AmountOf()) }

  function HeldTotal(w: Wallet): int { Sum(w.reservations, HoldOf()) }

  /** Ledger balance less active holds. */
  function Uncommitted(w: Wallet): int { Balance(w) - HeldTotal(w) }

  /** What a command may spend: nothing at all while any contribution needs review. */
  function Available(w: Wallet): int {
    if Find(w.deposits, InReview()).Some? then 0 else Uncommitted(w)
  }

  // ----- World budgets

  /** What one usage adds to a month: its charge less its own credits, never below zero. */
  function SpentOn(entries: seq<Entry>, world: Id, month: int, cal: Calendar): Usage -> int {
    (u: Usage) =>
      if u.world == world && cal(u.releasedAt) == month
      then Max(0, u.amount - Sum(entries, CreditOf(u.id))) else 0
  }

  function Spent(w: Wallet, world: Id, month: int, cal: Calendar): int {
    Sum(w.usages, SpentOn(w.entries, world, month, cal))
  }

  function ReservedIn(w: Wallet, world: Id): int { Sum(w.reservations, HoldIn(world)) }

  function Committed(w: Wallet, world: Id, month: int, cal: Calendar): int {
    Spent(w, world, month, cal) + ReservedIn(w, world)
  }

  /** None means the World has no budget, that is, no limit. */
  function BudgetAvailable(w: Wallet, world: Id, at: Time, cal: Calendar): Option<int> {
    match Find(w.budgets, BudgetOf(world))
    case None => None
    case Some(b) => Some(Max(0, b.limit - Committed(w, world, cal(at), cal)))
  }

  // ----- commands

  function Post(w: Wallet, e: Entry): Outcome { Save(w.(entries := w.entries + [e]), Posted(e)) }

  function PlainEntry(id: Id, kind: EntryKind, amount: int, reference: Reference, key: string, at: Time): Entry {
    Entry(id, kind, amount, reference, key, at, "", "")
  }

  function DoCreateQuote(w: Wallet, world: Id, profile: string, rate: int, key: string, env: Env): Outcome {
    if rate <= 0 then Raise(InvalidValue) else
    match Find(w.quotes, QuoteKeyed(key))
    case Some(q) => Return(Quoted(q))
    case None =>
      var q := Quote(env.id, world, profile, rate, key, env.now, env.now + 15 * 60 * SECOND);
      Save(w.(quotes := w.quotes + [q]), Quoted(q))
  }

  function DoReserve(w: Wallet, amount: int, purpose: string, key: string, quote: Option<Id>, world: Option<Id>,
                     env: Env, cal: Calendar): Outcome {
    if amount <= 0 then Raise(InvalidValue) else
    match Find(w.reservations, ReservationKeyed(key))
    case Some(r) => Return(Held(r))
    case None =>
      if Available(w) < amount then Raise(InsufficientFunds) else
      if world.Some? && (var a := BudgetAvailable(w, world.value, env.now, cal); a.Some? && a.value < amount)
      then Raise(BudgetExceeded) else
      var r := Reservation(env.id, amount, purpose, key, Active, env.now, quote, world);
      Save(w.(reservations := w.reservations + [r]), Held(r))
  }

  function DoReserveForWake(w: Wallet, quote: Id, key: string, env: Env, cal: Calendar): Outcome {
    match Find(w.quotes, QuoteIs(quote))
    case None => Raise(NotFound)
    case Some(q) =>
      if env.now > q.expiresAt then Raise(Expired) else
      DoReserve(w, HoldFor(q.rate, WAKE_SECONDS), "wake:" + q.world, key, Some(q.id), Some(q.world), env, cal)
  }

  function DoSetBudget(w: Wallet, world: Id, limit: int, key: string, env: Env): Outcome {
    if limit <= 0 then Raise(InvalidValue) else
    match Find(w.budgets, BudgetKeyed(key))
    case Some(b) => Return(Budgeted(b))
    case None =>
      match Find(w.budgets, BudgetOf(world))
      case Some(current) =>
        var b := Budget(current.id, world, limit, key, env.now);
        Save(w.(budgets := Substitute(w.budgets, BudgetOf(world), b)), Budgeted(b))
      case None =>
        var b := Budget(env.id, world, limit, key, env.now);
        Save(w.(budgets := w.budgets + [b]), Budgeted(b))
  }

  function DoCredit(w: Wallet, amount: int, reference: string, key: string, env: Env): Outcome {
    if amount <= 0 then Raise(InvalidValue) else
    match Find(w.entries, EntryKeyed(key))
    case Some(e) => Return(Posted(e))
    case None => Post(w, PlainEntry(env.id, Contribution, amount, Text(reference), key, env.now))
  }

  function DoChargeStorage(w: Wallet, excess: int, rate: int, month: string, key: string, env: Env): Outcome {
    if excess <= 0 || rate <= 0 then Raise(InvalidValue) else
    var amount: int := HalfUp(rate * excess, GIB);
    if amount <= 0 then Raise(InvalidValue) else
    match Find(w.entries, EntryKeyed(key))
    case Some(e) => Return(Posted(e))
    case None =>
      if Available(w) < amount then Raise(InsufficientFunds) else
      Post(w, PlainEntry(env.id, StorageCharge, -amount, Text("storage:" + month), key, env.now))
  }

  function DoRelease(w: Wallet, id: Id): Outcome {
    match Find(w.reservations, ReservationIs(id))
    case None => Raise(NotFound)
    case Some(r) =>
      match r.status
      case Released => Return(Held(r))
      case Captured => Raise(Inactive)
      case Active =>
        var released := r.(status := Released);
        Save(w.(reservations := Substitute(w.reservations, ReservationIs(id), released)), Held(released))
  }

  function DoGuarantee(w: Wallet, usage: Id, reachedOnline: bool, key: string, env: Env): Outcome {
    if reachedOnline then Raise(InvalidValue) else
    match Find(w.usages, UsageIs(usage))
    case None => Raise(NotFound)
    case Some(u) =>
      match Find(w.entries, GuaranteeOf(u.id))
      case Some(e) => Return(Posted(e))
      case None => Post(w, PlainEntry(env.id, WakeGuarantee, u.amount, OfUsage(u.id), key, env.now))
  }

  function DoAvailability(w: Wallet, usage: Id, unavailableAt: Time, recoveredAt: Time, key: string,
                          env: Env): Outcome {
    var elapsed := recoveredAt - unavailableAt;
    if elapsed <= 120 * SECOND then Return(Nothing) else
    match Find(w.usages, UsageIs(usage))
    case None => Raise(NotFound)
    case Some(u) =>
      if unavailableAt < u.startedAt || recoveredAt > u.releasedAt then Raise(InvalidValue) else
      var reference := OfInterval(usage, unavailableAt, recoveredAt);
      match Find(w.entries, AvailabilityFor(reference))
      case Some(e) => Return(Posted(e))
      case None =>
        match Find(w.quotes, QuoteIs(u.quote))
        case None => Raise(NotFound)
        case Some(q) =>
          var amount := Min(ChargeFor(q.rate, CeilSeconds(elapsed)), u.amount);
          if amount <= 0 then Return(Nothing)
          else Post(w, PlainEntry(env.id, AvailabilityCredit, amount, reference, key, env.now))
  }

  function DoSupport(w: Wallet, amount: int, reference: string, actor: string, reason: string, key: string,
                     env: Env): Outcome {
    if amount <= 0 || reference == "" || actor == "" || reason == "" || key == "" then Raise(InvalidValue) else
    match Find(w.entries, EntryKeyed(key))
    case Some(e) =>
      if e.kind.SupportCredit? && e.amount == amount && e.reference == Text(reference) && e.actor == actor && e.reason == reason
      then Return(Posted(e)) else Raise(Mismatch)
    case None => Post(w, Entry(env.id, SupportCredit, amount, Text(reference), key, env.now, actor, reason))
  }

  function DoCapture(w: Wallet, id: Id, amount: int, key: string, env: Env): Outcome {
    if amount <= 0 then Raise(InvalidValue) else
    match Find(w.entries, EntryKeyed(key))
    case Some(e) => Return(Posted(e))
    case None =>
      match Find(w.reservations, ReservationIs(id))
      case None => Raise(NotFound)
      case Some(r) =>
        if !r.status.Active? then Raise(Inactive) else
        if amount > r.amount then Raise(InvalidValue) else
        var charge := PlainEntry(env.id, RuntimeCharge, -amount, Text(r.purpose), key, env.now);
        Save(w.(entries := w.entries + [charge],
                reservations := Substitute(w.reservations, ReservationIs(id), r.(status := Captured))),
             Posted(charge))
  }

  function DoCaptureUsage(w: Wallet, quote: Id, id: Id, startedAt: Time, releasedAt: Time, key: string,
                          env: Env): Outcome {
    if releasedAt < startedAt then Raise(InvalidValue) else
    var seconds := BillableSeconds(releasedAt - startedAt);
    match Find(w.usages, UsageKeyed(key))
    case Some(u) => Return(Used(u))
    case None =>
      match Find(w.quotes, QuoteIs(quote))
      case None => Raise(NotFound)
      case Some(q) =>
        match Find(w.reservations, ReservationIs(id))
        case None => Raise(NotFound)
        case Some(r) =>
          if !r.status.Active? then Raise(Inactive) else
          var amount: int := ChargeFor(q.rate, seconds);
          if amount > r.amount then Raise(InvalidValue) else
          var charge := PlainEntry(env.id, RuntimeCharge, -amount, Text("runtime:" + q.world), key + ":ledger", env.now);
          var usage := Usage(env.id2, q.world, q.id, r.id, seconds, amount, startedAt, releasedAt, charge.id, key);
          Save(w.(entries := w.entries + [charge],
                  reservations := Substitute(w.reservations, ReservationIs(id), r.(status := Captured)),
                  usages := w.usages + [usage]),
               Used(usage))
  }

  // ----- Balance Guard

  const MINUTE_ALERTS := {30, 10, 5}
  const BUDGET_ALERTS := {50, 80, 100}

  function Smallest(s: set<int>): (r: Option<int>)
    requires s <= MINUTE_ALERTS
    ensures r.None? <==> s == {}
    ensures r.Some? ==> r.value in s && forall x :: x in s ==> r.value <= x
  {
    if 5 in s then Some(5) else if 10 in s then Some(10) else if 30 in s then Some(30) else None
  }

  function Largest(s: set<int>): (r: Option<int>)
    requires s <= BUDGET_ALERTS
    ensures r.None? <==> s == {}
    ensures r.Some? ==> r.value in s && forall x :: x in s ==> x <= r.value
  {
    if 100 in s then Some(100) else if 80 in s then Some(80) else if 50 in s then Some(50) else None
  }

  /** The minute thresholds reached when `available` cents remain at `rate` per hour. */
  function MinutesReached(available: int, rate: nat): set<int> {
    set t | t in MINUTE_ALERTS && available * 60 <= t * rate
  }

  function PercentReached(committed: int, limit: nat): set<int> {
    set t | t in BUDGET_ALERTS && committed * 100 >= t * limit
  }

  datatype GuardPlan = GuardPlan(additional: int, canExtend: bool, reserved: int, availableAfter: int,
                                 reason: SleepReason)

  function PlanGuard(w: Wallet, q: Quote, r: Reservation, observedAt: Time, seconds: nat, cal: Calendar): GuardPlan {
    var required := HoldFor(q.rate, seconds);
    var additional := Max(0, required - r.amount);
    var wallet := Available(w);
    var budget := BudgetAvailable(w, q.world, observedAt, cal);
    var budgetExtends := budget.None? || additional <= budget.value;
    var canExtend := additional <= wallet && budgetExtends;
    var walletAfter := if canExtend then wallet - additional else 0;
    var budgetAfter := if canExtend && budget.Some? then Some(budget.value - additional) else None;
    GuardPlan(additional, canExtend, if canExtend then required else r.amount,
              if budgetAfter.Some? then Min(walletAfter, budgetAfter.value) else walletAfter,
              if (budgetAfter.Some? && budgetAfter.value <= walletAfter) || !budgetExtends
              then BudgetExhausted else InsufficientBalance)
  }

  function NotifiedMinutes(w: Wallet, reservation: Id): set<int> {
    var g := Find(w.guards, GuardOf(reservation));
    if g.Some? then g.value.notified else {}
  }

  function NotifiedPercents(w: Wallet, world: Id, period: int): set<int> {
    var a := Find(w.alerts, AlertsOf(world, period));
    if a.Some? then a.value.notified else {}
  }

  /** `item if match else keep`, appended when nothing matched. */
  function Put<T>(xs: seq<T>, p: T -> bool, v: T): seq<T> {
    if Find(xs, p).Some? then Substitute(xs, p, v) else xs + [v]
  }

  function DoProtect(w: Wallet, quote: Id, id: Id, startedAt: Time, observedAt: Time, sleepSeconds: int, interval: int,
                     cal: Calendar): Outcome {
    if observedAt < startedAt || sleepSeconds <= 0 || interval <= 0 then Raise(InvalidValue) else
    match Find(w.quotes, QuoteIs(quote))
    case None => Raise(NotFound)
    case Some(q) =>
      match Find(w.reservations, ReservationIs(id))
      case None => Raise(NotFound)
      case Some(r) =>
        if r.quote != Some(q.id) then Raise(Mismatch) else
        if !r.status.Active? then Raise(Inactive) else
        Guarded(w, q, r, observedAt, CeilSeconds(observedAt - startedAt) + sleepSeconds, interval, cal)
  }

  function GuardMinutes(q: Quote, plan: GuardPlan): set<int> { MinutesReached(plan.availableAfter, q.rate) }

  /** The World's percentages are reached by what it has committed and by the extension just granted. */
  function GuardPercents(w: Wallet, q: Quote, plan: GuardPlan, month: int, cal: Calendar): set<int> {
    match Find(w.budgets, BudgetOf(q.world))
    case None => {}
    case Some(b) =>
      PercentReached(Committed(w, q.world, month, cal) + (if plan.canExtend then plan.additional else 0), b.limit)
  }

  function GuardedWallet(w: Wallet, q: Quote, r: Reservation, plan: GuardPlan, month: int, cal: Calendar): Wallet {
    w.(reservations := Substitute(w.reservations, ReservationIs(r.id), r.(amount := plan.reserved)),
       guards := Put(w.guards, GuardOf(r.id), Guard(r.id, NotifiedMinutes(w, r.id) + GuardMinutes(q, plan))),
       alerts := if Find(w.budgets, BudgetOf(q.world)).None? then w.alerts
                 else Put(w.alerts, AlertsOf(q.world, month),
                          BudgetAlerts(q.world, month, NotifiedPercents(w, q.world, month) + GuardPercents(w, q, plan, month, cal))))
  }

  function GuardDecision(w: Wallet, q: Quote, r: Reservation, plan: GuardPlan, month: int, interval: nat,
                         cal: Calendar): Decision {
    var shouldSleep := !plan.canExtend || plan.availableAfter * HOUR_SECONDS < q.rate * interval;
    Decision(
      r.id, plan.reserved,
      if plan.availableAfter > 0 && q.rate > 0 then plan.availableAfter * 60 / q.rate else 0,
      Smallest(GuardMinutes(q, plan) - NotifiedMinutes(w, r.id)),
      Largest(GuardPercents(w, q, plan, month, cal) - NotifiedPercents(w, q.world, month)),
      plan.canExtend, shouldSleep, if shouldSleep then Some(plan.reason) else None)
  }

  function Guarded(w: Wallet, q: Quote, r: Reservation, observedAt: Time, seconds: nat, interval: nat,
                   cal: Calendar): Outcome {
    var plan := PlanGuard(w, q, r, observedAt, seconds, cal);
    var decision := GuardDecision(w, q, r, plan, cal(observedAt), interval, cal);
    var next := GuardedWallet(w, q, r, plan, cal(observedAt), cal);
    if next == w then Return(Decided(decision)) else Save(next, Decided(decision))
  }

  // ----- contributions

  function SetDeposit(w: Wallet, d: Deposit): Wallet {
    w.(deposits := Substitute(w.deposits, DepositIs(d.id), d))
  }

  function DoStartDeposit(w: Wallet, payer: Id, package: Id, amount: int, key: string, env: Env): Outcome {
    if amount <= 0 then Raise(InvalidValue) else
    match Find(w.deposits, DepositKeyed(key))
    case Some(d) => if d.payer != payer || d.package != package then Raise(Mismatch) else Return(Deposited(d))
    case None =>
      var d := Deposit(env.id, payer, package, amount, None, CreatingCheckout, key, None);
      Save(w.(deposits := w.deposits + [d]), Deposited(d))
  }

  /** The attach loop of create_contribution: any status other than PENDING is overwritten with the
      record built before the checkout was created. */
  function DoAttach(w: Wallet, id: Id, checkout: Id): Outcome {
    match Find(w.deposits, DepositIs(id))
    case None => Raise(NotFound)
    case Some(d) =>
      if d.status.Pending? then Return(Deposited(d)) else
      var pending := d.(checkout := Some(checkout), status := Pending, refund := None);
      Save(SetDeposit(w, pending), Deposited(pending))
  }

  function DoReconcile(w: Wallet, id: Id, checkout: Id): Outcome {
    match Find(w.deposits, DepositIs(id))
    case None => Raise(NotFound)
    case Some(d) =>
      if !d.status.CreatingCheckout? then Return(Deposited(d)) else
      var pending := d.(checkout := Some(checkout), status := Pending);
      Save(SetDeposit(w, pending), Deposited(pending))
  }

  function DoRecordRefund(w: Wallet, id: Id, refund: Id): Outcome {
    match Find(w.deposits, DepositIs(id))
    case None => Raise(NotFound)
    case Some(d) =>
      if d.status.RefundRequested? || d.status.Refunded? then Return(Deposited(d)) else
      if !d.status.Completed? then Raise(Mismatch) else
      var requested := d.(status := RefundRequested, refund := Some(refund));
      Save(SetDeposit(w, requested), Deposited(requested))
  }

  predicate Credited(s: ContributionStatus) { s.Completed? || s.RefundRequested? }
  predicate Reversed(s: ContributionStatus) { s.Refunded? || s.Disputed? }

  datatype Effect = Effect(deposit: Deposit, entries: seq<Entry>)

  /** What a completed checkout does to its contribution: None when an amount is malformed. */
  function Complete(d: Deposit, event: Id, paid: Option<int>, charged: Option<int>, env: Env): Option<Effect> {
    if Credited(d.status) || Reversed(d.status) then Some(Effect(d, [])) else
    if paid.None? || charged.None? || paid.value < 0 || charged.value < 0 then None else
    if paid.value != d.amount || charged.value != d.amount then Some(Effect(d.(status := NeedsReview), [])) else
    Some(Effect(d.(status := Completed),
                [PlainEntry(env.id, Contribution, d.amount, OfContribution(d.id), "abacatepay:" + event, env.now)]))
  }

  function Reverse(d: Deposit, refunded: bool, event: Id, available: int, env: Env): Effect {
    var status := if refunded then Refunded else Disputed;
    if Reversed(d.status) then Effect(d, []) else
    if !Credited(d.status) then Effect(d.(status := status), []) else
    if available < d.amount then Effect(d.(status := NeedsReview), []) else
    Effect(d.(status := status),
           [PlainEntry(env.id, if refunded then Refund else Dispute, -d.amount, OfContribution(d.id),
                       "abacatepay:" + event, env.now)])
  }

  function EventEffect(w: Wallet, d: Deposit, event: Id, kind: EventKind, paid: Option<int>, charged: Option<int>,
                       env: Env): Option<Effect> {
    match kind
    case CheckoutCompleted => Complete(d, event, paid, charged, env)
    case CheckoutRefunded => Some(Reverse(d, true, event, Available(w), env))
    case CheckoutDisputed => Some(Reverse(d, false, event, Available(w), env))
    case OtherEvent => Some(Effect(d, []))
  }

  function DoEvent(w: Wallet, event: Id, kind: EventKind, id: Id, checkout: Id, paid: Option<int>,
                   charged: Option<int>, env: Env): Outcome {
    match Find(w.events, EventIs(event))
    case Some(e) => Return(Processed(e))
    case None =>
      match Find(w.deposits, DepositIs(id))
      case None => Raise(NotFound)
      case Some(d) =>
        if d.checkout != Some(checkout) then Raise(Mismatch) else
        match EventEffect(w, d, event, kind, paid, charged, env)
        case None => Raise(InvalidValue)
        case Some(effect) =>
          var e := PaymentEvent(event, kind, d.id, env.now);
          Save(SetDeposit(w, effect.deposit).(entries := w.entries + effect.entries, events := w.events + [e]), Processed(e))
  }

  /** One attempt of a command on a snapshot. */
  function Attempt(w: Wallet, c: Command, env: Env, cal: Calendar): Outcome {
    match c
    case CreateQuote(world, profile, rate, key) => DoCreateQuote(w, world, profile, rate, key, env)
    case ReserveForWake(quote, key) => DoReserveForWake(w, quote, key, env, cal)
    case Reserve(amount, purpose, key, quote, world) => DoReserve(w, amount, purpose, key, quote, world, env, cal)
    case SetBudget(world, limit, key) => DoSetBudget(w, world, limit, key, env)
    case CreditWallet(amount, reference, key) => DoCredit(w, amount, reference, key, env)
    case ChargeStorage(excess, rate, month, key) => DoChargeStorage(w, excess, rate, month, key, env)
    case Protect(quote, id, startedAt, observedAt, sleepSeconds, interval) =>
      DoProtect(w, quote, id, startedAt, observedAt, sleepSeconds, interval, cal)
    case Release(id) => DoRelease(w, id)
    case ApplyGuarantee(usage, reachedOnline, key) => DoGuarantee(w, usage, reachedOnline, key, env)
    case ApplyAvailability(usage, from, until, key) => DoAvailability(w, usage, from, until, key, env)
    case ApplySupport(amount, reference, actor, reason, key) => DoSupport(w, amount, reference, actor, reason, key, env)
    case Capture(id, amount, key) => DoCapture(w, id, amount, key, env)
    case CaptureUsage(quote, id, startedAt, releasedAt, key) => DoCaptureUsage(w, quote, id, startedAt, releasedAt, key, env)
    case StartDeposit(payer, package, amount, key) => DoStartDeposit(w, payer, package, amount, key, env)
    case AttachCheckout(id, checkout) => DoAttach(w, id, checkout)
    case ReconcileCheckout(id, checkout) => DoReconcile(w, id, checkout)
    case RecordRefund(id, refund) => DoRecordRefund(w, id, refund)
    case ProcessEvent(event, kind, id, checkout, paid, charged) => DoEvent(w, event, kind, id, checkout, paid, charged, env)
  }

  /** The wallet after one atomic execution of a command. */
  function Step(w: Wallet, c: Command, env: Env, cal: Calendar): Wallet { After(w, Attempt(w, c, env, cal)) }

  function After(w: Wallet, o: Outcome): Wallet {
    match o
    case Save(next, _) => next
    case Return(_) => w
    case Raise(_) => w
  }

  datatype Move = Move(command: Command, env: Env)

  function Run(w: Wallet, moves: seq<Move>, cal: Calendar): Wallet {
    if |moves| == 0 then w
    else var before := Run(w, moves[..|moves| - 1], cal);
         var m := moves[|moves| - 1];
         Step(before, m.command, m.env, cal)
  }
}
