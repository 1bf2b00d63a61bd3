/** Three calls that show what a priced wake does not promise: a retry that pays for a wake that is over, a
    failure that leaves its reservation active, and a failure that leaves its operation live. */
module WakeExamples {
  import opened Base
  import opened Money
  import opened Optimistic
  import W = Wallet
  import opened Solvency
  import opened WorldModel
  import opened WorldPlans
  import opened WorldLaws
  import opened WakeSaga

  const HOME := WorldKey("account", "world")

  function Planet(status: WorldStatus, version: nat): World {
    World("world", "account", "profile", status, None, "configuration", None, None, version, None, None, None, None, None, [], None)
  }

  /** One World with one wake in its first phase, begun under "key". */
  function Begun(status: OperationStatus, at: nat, world: WorldStatus, version: nat): Repo {
    var o := NewOperation(Planet(world, version), Wake, "operation", "key", 0).(status := status, version := at);
    Repo(map[HOME := Planet(world, version)], map["operation" := o], map[], map[CommandKey("account", "key") := "operation"],
         map[], if Live(o) then map[HOME := "operation"] else map[])
  }

  function NewRepo(): Repo { Repo(map[HOME := Planet(Sleeping, 1)], map[], map[], map[], map[], map[]) }

  /** A worker gives up on a wake before its first step: over, and still in its first phase. */
  lemma AbandonedArises()
    ensures Apply(NewRepo(), PlanWake(Planet(Sleeping, 1), true, true, "operation", "key", 0)) == Begun(Pending, 1, Waking, 2)
    ensures var begun := Begun(Pending, 1, Waking, 2);
            Apply(begun, PlanAttention(begun.operations["operation"], begun.worlds[HOME])) == Begun(NeedsAttention, 2, Attention, 3)
  {
    var begun, over := Begun(Pending, 1, Waking, 2), Begun(NeedsAttention, 2, Attention, 3);
    var o, w := begun.operations["operation"], begun.worlds[HOME];
    assert Cleared(w) == w;
    assert Apply(begun, PlanAttention(o, w)).active == over.active;
  }

  lemma ExamplesConsistent()
    ensures Consistent(Begun(NeedsAttention, 2, Attention, 3)) && Consistent(Begun(Pending, 1, Waking, 2))
  {
  }

  function PriceOf(): string -> Option<int> { (profile: string) => Some(60) }

  function Retry(now: Time, fault: Fault): Call {
    Call("account", "world", true, true, PriceOf(), "second", "key", now, W.Env("quote", "quote2", now),
         W.Env("hold", "hold2", now), W.Env("release", "release2", now), fault)
  }

  function Calendar(): W.Calendar { (t: Time) => 0 }

  /** Ten units of currency, and what an earlier call under "key" bought. */
  function Purse(quotes: seq<W.Quote>, reservations: seq<W.Reservation>): W.Wallet {
    W.EmptyWallet.(entries := [W.PlainEntry("credit", W.Contribution, 1000, W.Text("gift"), "credit", 0)],
                   quotes := quotes, reservations := reservations)
  }

  function EarlierQuote(): W.Quote { W.Quote("earlier", "world", "profile", 60, QuoteKeyFor("key"), 0, 15 * 60 * SECOND) }

  function EarlierHold(status: W.ReservationStatus): W.Reservation {
    W.Reservation("held", 25, "wake:world", HoldKeyFor("key"), status, 0, Some("earlier"), Some("world"))
  }

  lemma EarlierFunded(status: W.ReservationStatus)
    ensures W.Uncommitted(Purse([EarlierQuote()], [EarlierHold(status)])) >= 0
  {
    hide Sum;
    SumOne(EarlierHold(status), W.HoldOf());
    SumOne(W.PlainEntry("credit", W.Contribution, 1000, W.Text("gift"), "credit", 0), W.AmountOf());
  }

  lemma EarlierSound(status: W.ReservationStatus)
    ensures Sound(Purse([EarlierQuote()], [EarlierHold(status)]))
  {
    hide W.Uncommitted;
    EarlierFunded(status);
  }

  lemma PursesSound()
    ensures Sound(Purse([], [])) && forall status :: Sound(Purse([EarlierQuote()], [EarlierHold(status)]))
  {
    SumOne(Purse([], []).entries[0], W.AmountOf());
    hide Sum;
    forall status ensures Sound(Purse([EarlierQuote()], [EarlierHold(status)])) {
      EarlierSound(status);
    }
  }

  lemma EarlierKnown(status: W.ReservationStatus, now: Time, fault: Fault)
    ensures var w := Purse([EarlierQuote()], [EarlierHold(status)]);
            && QuoteDeadline(w, Retry(now, fault)) == 15 * 60 * SECOND
            && (ActiveUnder(w, "key") <==> status.Active?) && (CapturedUnder(w, "key") <==> status.Captured?)
  {
    assert EarlierHold(status) in [EarlierHold(status)];
  }

  lemma Ready(r: Repo, w: W.Wallet, now: Time, fault: Fault)
    requires r in {Begun(NeedsAttention, 2, Attention, 3), Begun(Pending, 1, Waking, 2)}
    requires w == Purse([], []) || exists status :: w == Purse([EarlierQuote()], [EarlierHold(status)])
    ensures Prepared(r, Versioned(w, 1), Retry(now, fault))
  {
    ExamplesConsistent();
    PursesSound();
    hide Consistent, Sound;
  }

  lemma AbandonedPayable()
    ensures Payable(Purse([], []), Begun(NeedsAttention, 2, Attention, 3).worlds[HOME], 60, Retry(60 * SECOND, NoFault), Calendar())
    ensures !HeldUnder(Purse([], []), "key")
  {
    hide Sum;
    SumOne(Purse([], []).entries[0], W.AmountOf());
    assert W.HeldTotal(Purse([], [])) == 0 by { NothingHeld(); }
  }

  lemma NothingHeld()
    ensures W.HeldTotal(Purse([], [])) == 0
  {
  }

  /** The wallet pays twenty-five minutes for a wake that is over, and the caller is told it succeeded. */
  lemma AbandonedWakeTakesMoney()
    ensures var e := Saga(Begun(NeedsAttention, 2, Attention, 3), Versioned(Purse([], []), 1), Retry(60 * SECOND, NoFault), Calendar());
            && e.verdict.Woken? && e.dispatched && e.verdict.operation.id == "operation" && !Live(e.verdict.operation)
            && ActiveUnder(e.wallet.value, "key")
            && HOME in e.worlds.worlds && e.worlds.worlds[HOME].status.Attention? && e.worlds.worlds[HOME].session.Some?
  {
    hide Saga, Prepared, Consistent, Sound, Attached, Payable, HeldUnder, ActiveUnder;
    var r, w, c := Begun(NeedsAttention, 2, Attention, 3), Purse([], []), Retry(60 * SECOND, NoFault);
    Ready(r, w, 60 * SECOND, NoFault);
    AbandonedPayable();
    DeadWakeTakesMoney(r, Versioned(w, 1), c, Calendar());
  }

  lemma Again(c: Call, status: OperationStatus, at: nat, world: WorldStatus, version: nat)
    requires c.account == "account" && c.world == "world" && c.key == "key" && c.permitted && c.storageOpen
    ensures Begins(Begun(status, at, world, version), c)
         == (Begun(status, at, world, version), Ok(Some(Begun(status, at, world, version).operations["operation"])))
  {
  }

  lemma Priced(r: Repo, v: Versioned<W.Wallet>, c: Call, cal: W.Calendar)
    requires Target(c) in r.worlds && Begins(r, c).1.Ok? && Begins(r, c).1.value.Some? && Begins(r, c).0 == r
    requires var o := Begins(r, c).1.value.value; o.key == c.key && o.session.None?
    requires c.rates(r.worlds[Target(c)].profile).Some?
    ensures !Saga(r, v, c, cal).verdict.Woken? ==> Saga(r, v, c, cal).verdict.BillingFailed?
    ensures var w := r.worlds[Target(c)];
            Saga(r, v, c, cal) == Pay(r, v, Begins(r, c).1.value.value, w, c.rates(w.profile).value, c, cal)
  {
    hide W.Attempt, FailedPreflight, Attached, PlanWake;
  }

  /** A caller reserved and crashed; the retry comes after the quote expired. The retry fails and ends the
      operation, and the reservation stays active with no session that names it. */
  lemma ExpiredQuoteLeavesHold()
    ensures var e := Saga(Begun(Pending, 1, Waking, 2), Versioned(Purse([EarlierQuote()], [EarlierHold(W.Active)]), 1),
                          Retry(16 * 60 * SECOND, NoFault), Calendar());
            && e.verdict.BillingFailed? && ActiveUnder(e.wallet.value, "key")
            && "operation" in e.worlds.operations && e.worlds.operations["operation"].status.Failed?
            && HOME in e.worlds.worlds && e.worlds.worlds[HOME].status.Sleeping? && e.worlds.worlds[HOME].session.None?
  {
    var r, w, c := Begun(Pending, 1, Waking, 2), Purse([EarlierQuote()], [EarlierHold(W.Active)]), Retry(16 * 60 * SECOND, NoFault);
    hide Saga, Prepared, Pay, Consistent, Sound, Attached, FailedPreflight;
    var v := Versioned(w, 1);
    Ready(r, w, 16 * 60 * SECOND, NoFault);
    Again(c, Pending, 1, Waking, 2);
    hide ActiveUnder, CapturedUnder, QuoteDeadline, Begins;
    EarlierKnown(W.Active, 16 * 60 * SECOND, NoFault);
    WokenExactly(r, v, c, Calendar());
    Priced(r, v, c, Calendar());
    FailureUndoes(r, v, c, Calendar());
  }

  /** The reservation under the key was captured; the call attaches it and fails before it answers. Its
      release is refused, so the operation stays live and waking with the captured reservation. */
  lemma CapturedHoldKeepsWake()
    ensures var e := Saga(Begun(Pending, 1, Waking, 2), Versioned(Purse([EarlierQuote()], [EarlierHold(W.Captured)]), 1),
                          Retry(60 * SECOND, AfterAttach), Calendar());
            && e.verdict.BillingFailed? && "operation" in e.worlds.operations && Live(e.worlds.operations["operation"])
  {
    var r, w, c := Begun(Pending, 1, Waking, 2), Purse([EarlierQuote()], [EarlierHold(W.Captured)]), Retry(60 * SECOND, AfterAttach);
    hide Saga, Prepared, Pay, Consistent, Sound, Attached, FailedPreflight;
    var v := Versioned(w, 1);
    Ready(r, w, 60 * SECOND, AfterAttach);
    Again(c, Pending, 1, Waking, 2);
    hide ActiveUnder, CapturedUnder, QuoteDeadline, Begins;
    EarlierKnown(W.Captured, 60 * SECOND, AfterAttach);
    Priced(r, v, c, Calendar());
    StruckFails(r, v, r.operations["operation"], r.worlds[HOME], 60, c, Calendar());
    FailureUndoes(r, v, c, Calendar());
  }

  lemma StruckFails(r: Repo, v: Versioned<W.Wallet>, o: Operation, w: World, rate: int, c: Call, cal: W.Calendar)
    requires !c.fault.NoFault?
    ensures Pay(r, v, o, w, rate, c, cal).verdict.BillingFailed?
  {
    hide W.Attempt, FailedPreflight, Attached;
  }
}
