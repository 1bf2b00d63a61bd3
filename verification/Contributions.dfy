/** Contributions and the ledger: when they agree, when they stop agreeing, and how often each is credited. */
module Contributions {
  import opened Base
  import opened Money
  import opened Wallet
  import opened Solvency

  predicate Concerns(e: Entry, id: Id) { e.reference == OfContribution(id) }

  function NetOf(id: Id): Entry -> int { (e: Entry) => if Concerns(e, id) then e.amount else 0 }
  function CreditCount(id: Id): Entry -> int { (e: Entry) => if Concerns(e, id) && e.amount > 0 then 1 else 0 }
  function ReversalCount(id: Id): Entry -> int { (e: Entry) => if Concerns(e, id) && e.amount < 0 then 1 else 0 }

  /** What the ledger holds for a contribution. */
  function Net(w: Wallet, id: Id): int { Sum(w.entries, NetOf(id)) }
  function Credits(w: Wallet, id: Id): int { Sum(w.entries, CreditCount(id)) }
  function Reversals(w: Wallet, id: Id): int { Sum(w.entries, ReversalCount(id)) }

  function Worth(d: Deposit): int { if Credited(d.status) then d.amount else 0 }

  /** The ledger holds a contribution's amount exactly while it is completed or its refund is requested. */
  ghost predicate Agrees(w: Wallet, d: Deposit) { Net(w, d.id) == Worth(d) }

  ghost predicate Agreement(w: Wallet) { forall d :: d in w.deposits ==> Agrees(w, d) }

  /** At most one credit and one reversal, and which of them the status tells. */
  predicate CountedAs(s: ContributionStatus, credits: int, reversals: int) {
    if Credited(s) then credits == 1 && reversals == 0
    else if Reversed(s) then credits == reversals && 0 <= credits <= 1
    else credits == 0 && reversals == 0
  }

  ghost predicate Counted(w: Wallet, d: Deposit) { CountedAs(d.status, Credits(w, d.id), Reversals(w, d.id)) }

  ghost predicate AllCounted(w: Wallet) { forall d :: d in w.deposits ==> Counted(w, d) }

  /** Ledger lines about contributions name existing ones. */
  ghost predicate Known(w: Wallet) {
    forall e :: e in w.entries && e.reference.OfContribution? ==>
      exists d :: d in w.deposits && d.id == e.reference.contribution
  }

  // ----- the two ways agreement is lost, and the third way the count is

  /** The attach loop finds its contribution already credited. */
  predicate AttachOverwritesCredit(w: Wallet, c: Command) {
    c.AttachCheckout? && var d := Find(w.deposits, DepositIs(c.deposit)); d.Some? && Credited(d.value.status)
  }

  /** A new reversal event reaches a credited contribution that the wallet can no longer fund. */
  predicate ReversalUnderfunded(w: Wallet, c: Command) {
    && c.ProcessEvent? && (c.kind.CheckoutRefunded? || c.kind.CheckoutDisputed?)
    && Find(w.events, EventIs(c.event)).None?
    && var d := Find(w.deposits, DepositIs(c.deposit));
       d.Some? && d.value.checkout == Some(c.checkout) && Credited(d.value.status) && Available(w) < d.value.amount
  }

  predicate LosesAgreement(w: Wallet, c: Command) { AttachOverwritesCredit(w, c) || ReversalUnderfunded(w, c) }

  /** The attach loop finds its contribution already credited and reversed. The ledger then still agrees,
      but the contribution is open to be credited once more. */
  predicate AttachReopensReversal(w: Wallet, c: Command) {
    c.AttachCheckout? && var d := Find(w.deposits, DepositIs(c.deposit));
                         d.Some? && Reversed(d.value.status) && Credits(w, c.deposit) > 0
  }

  predicate LosesCount(w: Wallet, c: Command) { LosesAgreement(w, c) || AttachReopensReversal(w, c) }

  // ----- sums after one step

  lemma NoLines(w: Wallet, id: Id)
    requires Known(w) && forall d :: d in w.deposits ==> d.id != id
    ensures Net(w, id) == 0 && Credits(w, id) == 0 && Reversals(w, id) == 0
  {
    SumZero(w.entries, NetOf(id));
    SumZero(w.entries, CreditCount(id));
    SumZero(w.entries, ReversalCount(id));
  }

  lemma Posted(es: seq<Entry>, e: Entry, id: Id)
    ensures Sum(es + [e], NetOf(id)) == Sum(es, NetOf(id)) + NetOf(id)(e)
    ensures Sum(es + [e], CreditCount(id)) == Sum(es, CreditCount(id)) + CreditCount(id)(e)
    ensures Sum(es + [e], ReversalCount(id)) == Sum(es, ReversalCount(id)) + ReversalCount(id)(e)
  {
    SumAppend(es, e, NetOf(id));
    SumAppend(es, e, CreditCount(id));
    SumAppend(es, e, ReversalCount(id));
  }

  /** A step that leaves contributions alone and posts at most one line that concerns none of them. */
  ghost predicate Unrelated(w: Wallet, v: Wallet) {
    && v.deposits == w.deposits
    && (v.entries == w.entries
        || exists e: Entry :: v.entries == w.entries + [e] && !e.reference.OfContribution?)
  }

  lemma UnrelatedKeeps(w: Wallet, v: Wallet)
    requires Unrelated(w, v)
    ensures forall id :: Net(v, id) == Net(w, id) && Credits(v, id) == Credits(w, id) && Reversals(v, id) == Reversals(w, id)
    ensures Agreement(w) <==> Agreement(v)
    ensures AllCounted(w) <==> AllCounted(v)
    ensures Known(w) ==> Known(v)
  {
    if v.entries != w.entries {
      var e: Entry :| v.entries == w.entries + [e] && !e.reference.OfContribution?;
      forall id ensures Net(v, id) == Net(w, id) && Credits(v, id) == Credits(w, id) && Reversals(v, id) == Reversals(w, id) {
        Posted(w.entries, e, id);
      }
    }
    forall d | d in w.deposits
      ensures (Agrees(w, d) <==> Agrees(v, d)) && (Counted(w, d) <==> Counted(v, d))
    {
      assert Net(v, d.id) == Net(w, d.id) && Credits(v, d.id) == Credits(w, d.id);
    }
  }

  predicate TouchesDeposits(c: Command) {
    c.StartDeposit? || c.AttachCheckout? || c.ReconcileCheckout? || c.RecordRefund? || c.ProcessEvent?
  }

  lemma OthersUnrelated(w: Wallet, c: Command, env: Env, cal: Calendar)
    requires !TouchesDeposits(c)
    ensures Unrelated(w, Step(w, c, env, cal))
  {
    hide Attempt;
    if HoldsCommand(c) {
      HoldsUnrelated(w, c, env, cal);
    } else if PostsOne(c) && Attempt(w, c, env, cal).Save? {
      OnePosted(w, c, env, cal);
      CreditsUnrelated(w, c, env, cal);
    } else if !PostsOne(c) {
      BookkeepingUnrelated(w, c, env, cal);
    }
  }

  lemma HoldsUnrelated(w: Wallet, c: Command, env: Env, cal: Calendar)
    requires HoldsCommand(c)
    ensures Unrelated(w, Step(w, c, env, cal))
  {
    hide Available, BudgetAvailable, GuardMinutes, GuardPercents, PlanGuard, GuardDecision, Put, ChargeFor, HoldFor;
    var v := Step(w, c, env, cal);
    if |v.entries| > |w.entries| {
      var e := v.entries[|w.entries|];
      assert v.entries == w.entries + [e] && !e.reference.OfContribution?;
    }
  }

  lemma CreditsUnrelated(w: Wallet, c: Command, env: Env, cal: Calendar)
    requires PostsOne(c) && Attempt(w, c, env, cal).Save?
    ensures Attempt(w, c, env, cal).reply.Posted? && !Attempt(w, c, env, cal).reply.entry.reference.OfContribution?
  {
    hide Available, ChargeFor, HalfUp;
  }

  lemma BookkeepingUnrelated(w: Wallet, c: Command, env: Env, cal: Calendar)
    requires c.CreateQuote? || c.SetBudget?
    ensures Unrelated(w, Step(w, c, env, cal))
  {
  }

  function Line(posted: seq<Entry>, f: Entry -> int): int { if posted == [] then 0 else f(posted[0]) }

  lemma AfterPosting(w: Wallet, v: Wallet, posted: seq<Entry>, id: Id)
    requires v.entries == w.entries + posted && |posted| <= 1
    ensures Net(v, id) == Net(w, id) + Line(posted, NetOf(id))
    ensures Credits(v, id) == Credits(w, id) + Line(posted, CreditCount(id))
    ensures Reversals(v, id) == Reversals(w, id) + Line(posted, ReversalCount(id))
  {
    if posted == [] {
      assert v.entries == w.entries;
    } else {
      assert posted == [posted[0]];
      Posted(w.entries, posted[0], id);
    }
  }

  /** One contribution replaced and its lines posted. */
  ghost predicate Rewrites(w: Wallet, v: Wallet, d: Deposit, d': Deposit, posted: seq<Entry>) {
    && WfDeposits(w.deposits) && d in w.deposits && d'.id == d.id && d'.amount == d.amount
    && v.deposits == Substitute(w.deposits, DepositIs(d.id), d')
    && v.entries == w.entries + posted && |posted| <= 1
    && (forall e :: e in posted ==> Concerns(e, d.id))
  }

  lemma OthersKept(w: Wallet, v: Wallet, d: Deposit, d': Deposit, posted: seq<Entry>, x: Deposit)
    requires Rewrites(w, v, d, d', posted) && x.id != d.id
    ensures Agrees(v, x) <==> Agrees(w, x)
    ensures Counted(v, x) <==> Counted(w, x)
    ensures x in v.deposits <==> x in w.deposits
  {
    hide Net, Credits, Reversals;
    ReplaceDeposit(w.deposits, d, d');
    AfterPosting(w, v, posted, x.id);
    assert posted != [] ==> posted[0] in posted;
    if x in w.deposits {
      var k :| 0 <= k < |w.deposits| && w.deposits[k] == x;
      assert v.deposits[k] == x;
    }
  }

  lemma OnlyRewritten(w: Wallet, v: Wallet, d: Deposit, d': Deposit, posted: seq<Entry>, x: Deposit)
    requires Rewrites(w, v, d, d', posted)
    ensures d' in v.deposits
    ensures x in v.deposits && x.id == d.id ==> x == d'
  {
    ReplaceDeposit(w.deposits, d, d');
    var i :| 0 <= i < |w.deposits| && w.deposits[i] == d;
    assert v.deposits[i] == d';
    if x in v.deposits {
      var k :| 0 <= k < |v.deposits| && v.deposits[k] == x;
      assert DepositId()(w.deposits[k]) == DepositId()(w.deposits[i]) ==> k == i;
    }
  }

  /** Agreement afterwards is a question about the rewritten contribution alone. */
  lemma Replaced(w: Wallet, v: Wallet, d: Deposit, d': Deposit, posted: seq<Entry>)
    requires Rewrites(w, v, d, d', posted)
    ensures Agreement(w) ==> (Agreement(v) <==> Agrees(v, d'))
    ensures AllCounted(w) ==> (AllCounted(v) <==> Counted(v, d'))
    ensures Known(w) ==> Known(v)
  {
    hide Agrees, Counted;
    OnlyRewritten(w, v, d, d', posted, d');
    forall x | x in v.deposits && x.id != d.id
      ensures x in w.deposits && (Agrees(v, x) <==> Agrees(w, x)) && (Counted(v, x) <==> Counted(w, x))
    {
      OthersKept(w, v, d, d', posted, x);
    }
    forall x | x in v.deposits && x.id == d.id ensures x == d' {
      OnlyRewritten(w, v, d, d', posted, x);
    }
    forall x | x in w.deposits ensures exists y :: y in v.deposits && y.id == x.id {
      if x.id != d.id {
        OthersKept(w, v, d, d', posted, x);
      }
    }
  }

  /** What a command writes to the one contribution it concerns: the new record and its ledger lines. */
  function Written(w: Wallet, c: Command, env: Env, d: Deposit): (Deposit, seq<Entry>)
    requires c.AttachCheckout? || c.ReconcileCheckout? || c.RecordRefund?
             || (c.ProcessEvent? && EventEffect(w, d, c.event, c.kind, c.paid, c.charged, env).Some?)
  {
    match c
    case AttachCheckout(_, checkout) => (d.(checkout := Some(checkout), status := Pending, refund := None), [])
    case ReconcileCheckout(_, checkout) => (d.(checkout := Some(checkout), status := Pending), [])
    case RecordRefund(_, refund) => (d.(status := RefundRequested, refund := Some(refund)), [])
    case ProcessEvent(event, kind, _, _, paid, charged) =>
      var effect := EventEffect(w, d, event, kind, paid, charged, env).value;
      (effect.deposit, effect.entries)
  }

  lemma Writes(w: Wallet, c: Command, env: Env, cal: Calendar)
    requires Sound(w) && TouchesDeposits(c) && !c.StartDeposit? && Attempt(w, c, env, cal).Save?
    ensures Find(w.deposits, DepositIs(c.deposit)).Some?
    ensures var v, d := Step(w, c, env, cal), Find(w.deposits, DepositIs(c.deposit)).value;
            && (c.ProcessEvent? ==> EventEffect(w, d, c.event, c.kind, c.paid, c.charged, env).Some?)
            && var (d', posted) := Written(w, c, env, d);
               d.amount > 0 && Rewrites(w, v, d, d', posted)
  {
    if c.ProcessEvent? {
      hide Attempt;
      EventRewrites(w, c, env, cal);
    }
  }

  lemma EventRewrites(w: Wallet, c: Command, env: Env, cal: Calendar)
    requires Sound(w) && c.ProcessEvent? && Attempt(w, c, env, cal).Save?
    ensures Find(w.deposits, DepositIs(c.deposit)).Some?
    ensures var v, d := Step(w, c, env, cal), Find(w.deposits, DepositIs(c.deposit)).value;
            && EventEffect(w, d, c.event, c.kind, c.paid, c.charged, env).Some?
            && var (d', posted) := Written(w, c, env, d);
               d.amount > 0 && Rewrites(w, v, d, d', posted)
  {
    hide Available;
    EventWrites(w, c, env, cal);
    EffectShape(w, Find(w.deposits, DepositIs(c.deposit)).value, c.event, c.kind, c.paid, c.charged, env);
    hide Attempt;
  }

  lemma CompletionKeeps(d: Deposit, event: Id, paid: Option<int>, charged: Option<int>, env: Env, credits: int,
                        reversals: int)
    requires d.amount > 0 && Complete(d, event, paid, charged, env).Some?
    ensures var effect := Complete(d, event, paid, charged, env).value;
            && Worth(effect.deposit) == Worth(d) + Line(effect.entries, NetOf(d.id))
            && (CountedAs(d.status, credits, reversals) ==>
                  CountedAs(effect.deposit.status, credits + Line(effect.entries, CreditCount(d.id)),
                            reversals + Line(effect.entries, ReversalCount(d.id))))
  {
  }

  lemma ReversalKeeps(d: Deposit, refunded: bool, event: Id, available: int, env: Env, credits: int, reversals: int)
    requires d.amount > 0
    ensures var effect := Reverse(d, refunded, event, available, env);
            && (Worth(effect.deposit) == Worth(d) + Line(effect.entries, NetOf(d.id))
                <==> !(Credited(d.status) && available < d.amount))
            && (CountedAs(d.status, credits, reversals) ==>
                  (CountedAs(effect.deposit.status, credits + Line(effect.entries, CreditCount(d.id)),
                             reversals + Line(effect.entries, ReversalCount(d.id)))
                   <==> !(Credited(d.status) && available < d.amount)))
  {
  }

  /** The exact condition. From a wallet that agrees, a step keeps agreement if and only if it is neither
      an attach over a credited contribution nor an underfunded reversal of one. */
  lemma AgreementExactly(w: Wallet, c: Command, env: Env, cal: Calendar)
    requires Sound(w) && Known(w) && Agreement(w) && Fresh(w, env)
    ensures Agreement(Step(w, c, env, cal)) <==> !LosesAgreement(w, c)
    ensures Known(Step(w, c, env, cal))
  {
    hide Agreement, Known, AttachOverwritesCredit, ReversalUnderfunded, AttachReopensReversal;
    var o := Attempt(w, c, env, cal);
    if !TouchesDeposits(c) {
      hide Attempt;
      OthersUnrelated(w, c, env, cal);
      UnrelatedKeeps(w, Step(w, c, env, cal));
      OthersKeepIt(w, c);
    } else if c.StartDeposit? {
      StartKeeps(w, c, env, cal);
      OthersKeepIt(w, c);
    } else if o.Save? {
      hide Attempt;
      Writes(w, c, env, cal);
      var d := Find(w.deposits, DepositIs(c.deposit)).value;
      var (d', posted) := Written(w, c, env, d);
      Replaced(w, o.next, d, d', posted);
      AfterPosting(w, o.next, posted, d.id);
      WrittenWorth(w, c, env, cal, d);
      AgreesBefore(w, d);
    } else {
      UnsavedIsOrderly(w, c, env, cal);
    }
  }

  lemma OthersKeepIt(w: Wallet, c: Command)
    requires !TouchesDeposits(c) || c.StartDeposit?
    ensures !LosesCount(w, c)
  {
  }

  lemma AgreesBefore(w: Wallet, d: Deposit)
    requires d in w.deposits
    ensures Agreement(w) ==> Net(w, d.id) == Worth(d)
    ensures AllCounted(w) ==> CountedAs(d.status, Credits(w, d.id), Reversals(w, d.id))
  {
  }

  lemma StartKeeps(w: Wallet, c: Command, env: Env, cal: Calendar)
    requires Sound(w) && Known(w) && Fresh(w, env) && c.StartDeposit?
    ensures var v := Step(w, c, env, cal);
            && (Agreement(w) ==> Agreement(v)) && (AllCounted(w) ==> AllCounted(v)) && Known(v)
  {
    NoLines(w, env.id);
    var v := Step(w, c, env, cal);
    assert v.entries == w.entries;
    forall d | d in v.deposits
      ensures d in w.deposits || (d.id == env.id && d.status.CreatingCheckout?)
      ensures (Agrees(v, d) <==> Agrees(w, d)) && (Counted(v, d) <==> Counted(w, d))
    {
    }
    forall d | d in w.deposits ensures d in v.deposits {
    }
  }

  lemma UnsavedIsOrderly(w: Wallet, c: Command, env: Env, cal: Calendar)
    requires TouchesDeposits(c) && !Attempt(w, c, env, cal).Save?
    ensures !LosesCount(w, c)
  {
    hide Available;
  }

  /** The written record is worth what the ledger then holds, exactly outside the two cases. */
  lemma WrittenWorth(w: Wallet, c: Command, env: Env, cal: Calendar, d: Deposit)
    requires TouchesDeposits(c) && !c.StartDeposit? && Attempt(w, c, env, cal).Save?
    requires Find(w.deposits, DepositIs(c.deposit)) == Some(d) && d.amount > 0
    requires c.ProcessEvent? ==> EventEffect(w, d, c.event, c.kind, c.paid, c.charged, env).Some?
    ensures var (d', posted) := Written(w, c, env, d);
            Worth(d') == Worth(d) + Line(posted, NetOf(d.id)) <==> !LosesAgreement(w, c)
  {
    hide Available, Complete, Reverse;
    if c.ProcessEvent? {
      if c.kind.CheckoutCompleted? {
        CompletionKeeps(d, c.event, c.paid, c.charged, env, 0, 0);
      } else if !c.kind.OtherEvent? {
        ReversalKeeps(d, c.kind.CheckoutRefunded?, c.event, Available(w), env, 0, 0);
      }
    }
  }

  // ----- at most one credit and one reversal

  /** The written record counts with what the ledger then holds, exactly outside the three cases. */
  lemma WrittenCounted(w: Wallet, c: Command, env: Env, cal: Calendar, d: Deposit)
    requires TouchesDeposits(c) && !c.StartDeposit? && Attempt(w, c, env, cal).Save?
    requires Find(w.deposits, DepositIs(c.deposit)) == Some(d) && d.amount > 0
    requires c.ProcessEvent? ==> EventEffect(w, d, c.event, c.kind, c.paid, c.charged, env).Some?
    requires CountedAs(d.status, Credits(w, d.id), Reversals(w, d.id))
    ensures var (d', posted) := Written(w, c, env, d);
            CountedAs(d'.status, Credits(w, d.id) + Line(posted, CreditCount(d.id)),
                      Reversals(w, d.id) + Line(posted, ReversalCount(d.id)))
            <==> !LosesCount(w, c)
  {
    hide Available, Complete, Reverse, Credits, Reversals;
    if c.ProcessEvent? {
      if c.kind.CheckoutCompleted? {
        CompletionKeeps(d, c.event, c.paid, c.charged, env, Credits(w, d.id), Reversals(w, d.id));
      } else if !c.kind.OtherEvent? {
        ReversalKeeps(d, c.kind.CheckoutRefunded?, c.event, Available(w), env, Credits(w, d.id), Reversals(w, d.id));
      }
    }
  }

  /** The exact condition. From a wallet whose contributions are each credited and reversed as their status
      tells, at most once, a step keeps this if and only if it is none of: an underfunded reversal, an attach
      over a credited contribution, an attach over a reversed one that the ledger once credited. */
  lemma CountExactly(w: Wallet, c: Command, env: Env, cal: Calendar)
    requires Sound(w) && Known(w) && AllCounted(w) && Fresh(w, env)
    ensures AllCounted(Step(w, c, env, cal)) <==> !LosesCount(w, c)
  {
    hide AllCounted, Known, LosesCount;
    var o := Attempt(w, c, env, cal);
    if !TouchesDeposits(c) {
      hide Attempt;
      OthersUnrelated(w, c, env, cal);
      UnrelatedKeeps(w, Step(w, c, env, cal));
      OthersKeepIt(w, c);
    } else if c.StartDeposit? {
      StartKeeps(w, c, env, cal);
      OthersKeepIt(w, c);
    } else if o.Save? {
      hide Attempt;
      Writes(w, c, env, cal);
      var d := Find(w.deposits, DepositIs(c.deposit)).value;
      var (d', posted) := Written(w, c, env, d);
      Replaced(w, o.next, d, d', posted);
      AfterPosting(w, o.next, posted, d.id);
      AgreesBefore(w, d);
      WrittenCounted(w, c, env, cal, d);
    } else {
      UnsavedIsOrderly(w, c, env, cal);
    }
  }

  ghost predicate OrderlyMoves(w: Wallet, moves: seq<Move>, cal: Calendar) {
    forall i :: 0 <= i < |moves| ==> !LosesCount(Run(w, moves[..i], cal), moves[i].command)
  }

  /** Over any run free of the three cases, whatever events arrive, duplicated and in any order, the ledger
      agrees with every contribution, each credited at most once and reversed at most once. */
  lemma {:induction false} RunAgrees(w: Wallet, moves: seq<Move>, cal: Calendar)
    requires Sound(w) && Known(w) && Agreement(w) && AllCounted(w)
    requires FreshMoves(w, moves, cal) && OrderlyMoves(w, moves, cal)
    ensures var v := Run(w, moves, cal);
            Sound(v) && Known(v) && Agreement(v) && AllCounted(v)
  {
    hide Step, Sound, Known, Agreement, AllCounted, Fresh, LosesAgreement, AttachReopensReversal;
    if |moves| > 0 {
      var n := |moves| - 1;
      var before := Run(w, moves[..n], cal);
      FreshPrefix(w, moves, n, cal);
      forall i | 0 <= i < n ensures !LosesCount(Run(w, moves[..n][..i], cal), moves[..n][i].command) {
        assert moves[..n][..i] == moves[..i];
      }
      RunAgrees(w, moves[..n], cal);
      RunSound(w, moves, cal);
      assert !LosesCount(before, moves[n].command);
      AgreementExactly(before, moves[n].command, moves[n].env, cal);
      CountExactly(before, moves[n].command, moves[n].env, cal);
    }
  }

  // ----- runs that are not orderly

  const PAID := 1000

  /** The payment provider's events about one contribution `c` with checkout `k`. */
  function Completion(event: Id): Command { ProcessEvent(event, CheckoutCompleted, "c", "k", Some(PAID), Some(PAID)) }
  function RefundOf(event: Id): Command { ProcessEvent(event, CheckoutRefunded, "c", "k", None, None) }

  function Stored(status: ContributionStatus, entries: seq<Entry>, reservations: seq<Reservation>,
                  events: seq<PaymentEvent>): Wallet {
    EmptyWallet.(deposits := [Deposit("c", "payer", "package", PAID, Some("k"), status, "key", None)],
                 entries := entries, reservations := reservations, events := events)
  }

  function CreditLine(id: Id, event: Id): Entry {
    PlainEntry(id, Contribution, PAID, OfContribution("c"), "abacatepay:" + event, 0)
  }

  predicate OneDeposit(w: Wallet, d: Deposit) { w.deposits == [d] && d.id == "c" && d.checkout == Some("k") && d.amount == PAID }

  ghost predicate NewEvent(w: Wallet, event: Id) { forall e :: e in w.events ==> e.id != event }

  lemma UnderfundedRefund(w: Wallet, d: Deposit, event: Id, env: Env, cal: Calendar)
    requires OneDeposit(w, d) && NewEvent(w, event) && Credited(d.status) && Available(w) < d.amount
    ensures Step(w, RefundOf(event), env, cal)
         == w.(deposits := [d.(status := NeedsReview)], events := w.events + [PaymentEvent(event, CheckoutRefunded, "c", env.now)])
  {
    hide Available, Attempt;
    EventStep(w, event, CheckoutRefunded, "c", "k", None, None, env, cal);
    assert Find(w.deposits, DepositIs("c")) == Some(d);
    assert w.entries + [] == w.entries;
    assert Substitute(w.deposits, DepositIs("c"), d.(status := NeedsReview)) == [d.(status := NeedsReview)];
  }

  lemma SecondCompletion(w: Wallet, d: Deposit, event: Id, env: Env, cal: Calendar)
    requires OneDeposit(w, d) && NewEvent(w, event) && !Credited(d.status) && !Reversed(d.status)
    ensures Step(w, Completion(event), env, cal).entries
         == w.entries + [PlainEntry(env.id, Contribution, PAID, OfContribution("c"), "abacatepay:" + event, env.now)]
  {
    hide Available, Attempt;
    EventStep(w, event, CheckoutCompleted, "c", "k", Some(PAID), Some(PAID), env, cal);
    assert Find(w.deposits, DepositIs("c")) == Some(d);
  }

  function HeldCredit(): Wallet {
    Stored(Completed, [CreditLine("e1", "1")], [Reservation("r", PAID, "wake:w", "rk", Active, 0, None, None)],
           [PaymentEvent("1", CheckoutCompleted, "c", 0)])
  }

  lemma CreditIsHeld()
    ensures var w := HeldCredit();
            && OneDeposit(w, w.deposits[0]) && Credited(w.deposits[0].status) && Available(w) == 0
            && w.entries == [CreditLine("e1", "1")] && NewEvent(w, "2") && NewEvent(w, "3")
  {
    var w := HeldCredit();
    SumAppend([], w.entries[0], AmountOf());
    SumAppend([], w.reservations[0], HoldOf());
    assert [] + [w.entries[0]] == w.entries && [] + [w.reservations[0]] == w.reservations;
  }

  /** The credit is held by a running session when the refund arrives; a second completion credits again. */
  lemma UnderfundedReversalCreditsTwice(cal: Calendar)
    ensures var w := HeldCredit();
            var reviewed := Step(w, RefundOf("2"), Env("e2", "u2", 0), cal);
            var v := Step(reviewed, Completion("3"), Env("e3", "u3", 0), cal);
            && ReversalUnderfunded(w, RefundOf("2"))
            && Find(reviewed.deposits, InReview()).Some?
            && Credits(v, "c") == 2 && Net(v, "c") == 2 * PAID
  {
    CreditIsHeld();
    hide Step, Sum, HeldCredit, Available, CreditLine;
    var w := HeldCredit();
    var d := w.deposits[0];
    UnderfundedRefund(w, d, "2", Env("e2", "u2", 0), cal);
    var reviewed := Step(w, RefundOf("2"), Env("e2", "u2", 0), cal);
    assert Find(w.deposits, DepositIs("c")) == Some(d);
    assert Find(reviewed.deposits, InReview()) == Some(reviewed.deposits[0]);
    SecondCompletion(reviewed, d.(status := NeedsReview), "3", Env("e3", "u3", 0), cal);
    CreditLines();
    TwoCredits(CreditLine("e1", "1"), CreditLine("e3", "3"));
  }

  lemma CreditLines()
    ensures forall id, event :: Concerns(CreditLine(id, event), "c") && CreditLine(id, event).amount == PAID
    ensures forall id :: CreditLine(id, "3") == PlainEntry(id, Contribution, PAID, OfContribution("c"), "abacatepay:" + "3", 0)
  {
  }

  /** Reconciliation attaches the checkout first; the late attach reopens a credited contribution. */
  lemma LateAttachCreditsTwice(cal: Calendar)
    ensures var w := Stored(Completed, [CreditLine("e1", "1")], [], [PaymentEvent("1", CheckoutCompleted, "c", 0)]);
            var reopened := Step(w, AttachCheckout("c", "k"), Env("e2", "u2", 0), cal);
            var v := Step(reopened, Completion("3"), Env("e3", "u3", 0), cal);
            && AttachOverwritesCredit(w, AttachCheckout("c", "k"))
            && Credits(v, "c") == 2 && Net(v, "c") == 2 * PAID
  {
    var e1 := CreditLine("e1", "1");
    var w := Stored(Completed, [e1], [], [PaymentEvent("1", CheckoutCompleted, "c", 0)]);
    Reopened(w, w.deposits[0], Env("e2", "u2", 0), cal);
    hide Step, Sum;
    var reopened := Step(w, AttachCheckout("c", "k"), Env("e2", "u2", 0), cal);
    SecondCompletion(reopened, w.deposits[0].(status := Pending), "3", Env("e3", "u3", 0), cal);
    TwoCredits(e1, CreditLine("e3", "3"));
  }

  lemma Reopened(w: Wallet, d: Deposit, env: Env, cal: Calendar)
    requires OneDeposit(w, d) && !d.status.Pending? && d.refund.None?
    ensures Step(w, AttachCheckout("c", "k"), env, cal) == w.(deposits := [d.(status := Pending)])
    ensures Find(w.deposits, DepositIs("c")) == Some(d)
  {
    assert Find(w.deposits, DepositIs("c")) == Some(d);
    assert Substitute(w.deposits, DepositIs("c"), d.(status := Pending)) == [d.(status := Pending)];
  }

  function ReversalLine(id: Id, event: Id): Entry {
    PlainEntry(id, Refund, -PAID, OfContribution("c"), "abacatepay:" + event, 0)
  }

  function RefundedDeposit(): Wallet {
    Stored(Refunded, [CreditLine("e1", "1"), ReversalLine("e2", "2")], [],
           [PaymentEvent("1", CheckoutCompleted, "c", 0), PaymentEvent("2", CheckoutRefunded, "c", 0)])
  }

  /** The third way, concretely. The contribution is credited and refunded; the late attach reopens it with
      the ledger still in agreement, and a second completion credits it again with the ledger still in
      agreement: no step loses agreement, yet the refunded contribution has been credited twice. */
  lemma RefundedAttachCreditsTwice(cal: Calendar)
    ensures var w := RefundedDeposit();
            var reopened := Step(w, AttachCheckout("c", "k"), Env("e3", "u3", 0), cal);
            var v := Step(reopened, Completion("3"), Env("e4", "u4", 0), cal);
            && Credits(w, "c") == 1 && Reversals(w, "c") == 1 && Net(w, "c") == 0
            && AttachReopensReversal(w, AttachCheckout("c", "k"))
            && !LosesAgreement(w, AttachCheckout("c", "k")) && !LosesAgreement(reopened, Completion("3"))
            && Credits(v, "c") == 2 && Reversals(v, "c") == 1 && Net(v, "c") == PAID
  {
    var w := RefundedDeposit();
    var d := w.deposits[0];
    RefundedIsOne();
    Reopened(w, d, Env("e3", "u3", 0), cal);
    hide Step, Sum, RefundedDeposit;
    var reopened := Step(w, AttachCheckout("c", "k"), Env("e3", "u3", 0), cal);
    SecondCompletion(reopened, d.(status := Pending), "3", Env("e4", "u4", 0), cal);
    RefundedLines();
    CreditLines();
  }

  lemma RefundedIsOne()
    ensures var w := RefundedDeposit();
            && |w.deposits| == 1 && OneDeposit(w, w.deposits[0]) && w.deposits[0].status.Refunded? && w.deposits[0].refund.None?
            && w.deposits[0].amount == PAID && w.deposits == [w.deposits[0]] && NewEvent(w, "3")
  {
  }

  /** The lines of the refunded contribution, and with one credit more. */
  lemma RefundedLines()
    ensures var es := RefundedDeposit().entries;
            && Sum(es, NetOf("c")) == 0 && Sum(es, CreditCount("c")) == 1 && Sum(es, ReversalCount("c")) == 1
            && Sum(es + [CreditLine("e4", "3")], NetOf("c")) == PAID
            && Sum(es + [CreditLine("e4", "3")], CreditCount("c")) == 2
            && Sum(es + [CreditLine("e4", "3")], ReversalCount("c")) == 1
  {
    hide Sum;
    var e1, e2 := CreditLine("e1", "1"), ReversalLine("e2", "2");
    assert RefundedDeposit().entries == [] + [e1] + [e2];
    EmptySums();
    Posted([], e1, "c");
    Posted([] + [e1], e2, "c");
    Posted([] + [e1] + [e2], CreditLine("e4", "3"), "c");
  }

  lemma EmptySums()
    ensures Sum([], NetOf("c")) == 0 && Sum([], CreditCount("c")) == 0 && Sum([], ReversalCount("c")) == 0
  {
  }

  lemma TwoCredits(a: Entry, b: Entry)
    requires Concerns(a, "c") && Concerns(b, "c") && a.amount == b.amount == PAID
    ensures Sum([a] + [b], NetOf("c")) == 2 * PAID && Sum([a] + [b], CreditCount("c")) == 2
  {
    Posted([a], b, "c");
    Posted([], a, "c");
    assert [] + [a] == [a];
  }
}
