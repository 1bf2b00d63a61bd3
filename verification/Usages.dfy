/** Runtime usage: one charge per usage, at most one Wake Guarantee, and a failed wake that nets to zero. */
module Usages {
  import opened Base
  import opened Money
  import opened Wallet
  import opened Solvency

  ghost predicate ChargedOnce(w: Wallet, u: Usage) {
    && (exists e :: e in w.entries && e.id == u.charge && e.kind.RuntimeCharge? && e.amount == -u.amount)
    && (exists r :: r in w.reservations && r.id == u.reservation && r.status.Captured?)
  }

  ghost predicate Guarantees(w: Wallet, e: Entry) {
    e.reference.OfUsage? && exists u :: u in w.usages && u.id == e.reference.usage && u.amount == e.amount
  }

  ghost predicate Credits(w: Wallet, e: Entry) {
    e.reference.OfInterval? && exists u :: u in w.usages && u.id == e.reference.usage
  }

  predicate SameGuarantee(e: Entry, f: Entry) {
    e.kind.WakeGuarantee? && f.kind.WakeGuarantee? && e.reference == f.reference
  }

  /** The ledger explains every usage, and every usage credit belongs to a usage. */
  ghost predicate Accounted(w: Wallet) {
    && (forall u :: u in w.usages ==> ChargedOnce(w, u))
    && (forall e :: e in w.entries && e.kind.WakeGuarantee? ==> Guarantees(w, e))
    && (forall e :: e in w.entries && e.kind.AvailabilityCredit? ==> Credits(w, e) && e.amount >= 0)
    && (forall i, j | 0 <= i < |w.entries| && 0 <= j < |w.entries| && SameGuarantee(w.entries[i], w.entries[j]) :: i == j)
  }

  lemma ChargedOnceEvolves(w: Wallet, v: Wallet, u: Usage)
    requires Evolves(w, v) && ChargedOnce(w, u)
    ensures ChargedOnce(v, u)
  {
    var r :| r in w.reservations && r.id == u.reservation && r.status.Captured?;
    var i :| 0 <= i < |w.reservations| && w.reservations[i] == r;
    assert Continues(w.reservations[i], v.reservations[i]);
    assert v.reservations[i] in v.reservations;
    var e :| e in w.entries && e.id == u.charge && e.kind.RuntimeCharge? && e.amount == -u.amount;
    assert e in v.entries;
  }

  /** What an attempt may add to the ledger and to the usages. */
  ghost predicate Additions(w: Wallet, v: Wallet) {
    && |v.entries| <= |w.entries| + 1
    && (forall u :: u in v.usages && u !in w.usages ==> ChargedOnce(v, u))
    && (|v.entries| == |w.entries| + 1 ==>
          var e := v.entries[|w.entries|];
          && (e.kind.WakeGuarantee? ==> Guarantees(w, e) && forall x :: x in w.entries ==> !GuaranteeOf(e.reference.usage)(x))
          && (e.kind.AvailabilityCredit? ==> Credits(w, e) && e.amount >= 0))
  }

  lemma CaptureUsageAdds(w: Wallet, quote: Id, id: Id, startedAt: Time, releasedAt: Time, key: string, env: Env)
    requires Sound(w) && DoCaptureUsage(w, quote, id, startedAt, releasedAt, key, env).Save?
    ensures Additions(w, DoCaptureUsage(w, quote, id, startedAt, releasedAt, key, env).next)
  {
    hide ChargeFor, BillableSeconds, Sum, WellFormed;
    var v := DoCaptureUsage(w, quote, id, startedAt, releasedAt, key, env).next;
    var r := Find(w.reservations, ReservationIs(id)).value;
    var i :| 0 <= i < |w.reservations| && w.reservations[i] == r;
    assert v.reservations[i] == r.(status := Captured) && v.reservations[i] in v.reservations;
    assert v.entries[|w.entries|] in v.entries;
  }

  lemma GuaranteeAdds(w: Wallet, usage: Id, reachedOnline: bool, key: string, env: Env)
    requires DoGuarantee(w, usage, reachedOnline, key, env).Save?
    ensures Additions(w, DoGuarantee(w, usage, reachedOnline, key, env).next)
  {
    assert forall x :: x in w.entries ==> !GuaranteeOf(usage)(x);
  }

  /** Commands that post at most one line, and no line about a usage. */
  lemma OthersAdd(w: Wallet, c: Command, env: Env, cal: Calendar)
    requires Attempt(w, c, env, cal).Save?
    requires !c.CaptureUsage? && !c.ApplyGuarantee? && !c.ProcessEvent?
    ensures Additions(w, Attempt(w, c, env, cal).next)
  {
    hide Attempt;
    if HoldsCommand(c) {
      HoldsAdd(w, c, env, cal);
    } else if PostsOne(c) {
      OnePosted(w, c, env, cal);
      PostAdds(w, c, env, cal);
    } else {
      NothingPosted(w, c, env, cal);
    }
  }

  lemma HoldsAdd(w: Wallet, c: Command, env: Env, cal: Calendar)
    requires HoldsCommand(c) && !c.CaptureUsage? && Attempt(w, c, env, cal).Save?
    ensures Additions(w, Attempt(w, c, env, cal).next)
  {
    hide Available, PlanGuard, BudgetAvailable, Put, GuardPercents, GuardMinutes, GuardDecision, HoldFor;
  }

  lemma PostAdds(w: Wallet, c: Command, env: Env, cal: Calendar)
    requires PostsOne(c) && !c.ApplyGuarantee? && Attempt(w, c, env, cal).Save?
    ensures Additions(w, Attempt(w, c, env, cal).next)
  {
    hide Available, ChargeFor, HalfUp, CeilSeconds;
  }

  lemma AttemptAdds(w: Wallet, c: Command, env: Env, cal: Calendar)
    requires Sound(w)
    requires Attempt(w, c, env, cal).Save?
    ensures Additions(w, Attempt(w, c, env, cal).next)
  {
    hide DoCaptureUsage, DoGuarantee, DoEvent;
    if c.CaptureUsage? {
      CaptureUsageAdds(w, c.quote, c.reservation, c.startedAt, c.releasedAt, c.key, env);
    } else if c.ApplyGuarantee? {
      GuaranteeAdds(w, c.usage, c.reachedOnline, c.key, env);
    } else if c.ProcessEvent? {
      EventAdds(w, c.event, c.kind, c.deposit, c.checkout, c.paid, c.charged, env);
    } else {
      OthersAdd(w, c, env, cal);
    }
  }

  lemma EventAdds(w: Wallet, event: Id, kind: EventKind, id: Id, checkout: Id, paid: Option<int>, charged: Option<int>,
                  env: Env)
    requires Sound(w)
    requires DoEvent(w, event, kind, id, checkout, paid, charged, env).Save?
    ensures Additions(w, DoEvent(w, event, kind, id, checkout, paid, charged, env).next)
  {
    var d := Find(w.deposits, DepositIs(id)).value;
    EffectShape(w, d, event, kind, paid, charged, env);
  }

  lemma AttemptAccounted(w: Wallet, c: Command, env: Env, cal: Calendar)
    requires Sound(w) && Accounted(w) && Fresh(w, env)
    ensures Accounted(Step(w, c, env, cal))
  {
    hide Attempt;
    if Attempt(w, c, env, cal).Save? {
      AttemptGood(w, c, env, cal);
      AttemptAdds(w, c, env, cal);
      AdditionsAccounted(w, Attempt(w, c, env, cal).next);
    }
  }

  lemma UsagesStayCharged(w: Wallet, v: Wallet)
    requires Accounted(w) && Evolves(w, v) && Additions(w, v)
    ensures forall u :: u in v.usages ==> ChargedOnce(v, u)
    ensures forall u :: u in w.usages ==> u in v.usages
  {
    forall u | u in v.usages ensures ChargedOnce(v, u) {
      if u in w.usages {
        ChargedOnceEvolves(w, v, u);
      }
    }
  }

  lemma LinesStayExplained(w: Wallet, v: Wallet, e: Entry)
    requires Accounted(w) && Evolves(w, v) && Additions(w, v) && e in v.entries
    ensures e.kind.WakeGuarantee? ==> Guarantees(v, e)
    ensures e.kind.AvailabilityCredit? ==> Credits(v, e) && e.amount >= 0
  {
    UsagesStayCharged(w, v);
    hide ChargedOnce;
    var i :| 0 <= i < |v.entries| && v.entries[i] == e;
    assert i < |w.entries| ==> v.entries[i] == w.entries[i] && e in w.entries;
  }

  lemma GuaranteesStayUnique(w: Wallet, v: Wallet)
    requires Accounted(w) && Evolves(w, v) && Additions(w, v)
    ensures forall i, j | 0 <= i < |v.entries| && 0 <= j < |v.entries| && SameGuarantee(v.entries[i], v.entries[j]) :: i == j
  {
    hide ChargedOnce, Credits;
    forall i, j | 0 <= i < |v.entries| && 0 <= j < |v.entries| && SameGuarantee(v.entries[i], v.entries[j]) ensures i == j {
      assert i < |w.entries| ==> v.entries[i] == w.entries[i] && w.entries[i] in w.entries;
      assert j < |w.entries| ==> v.entries[j] == w.entries[j] && w.entries[j] in w.entries;
    }
  }

  lemma AdditionsAccounted(w: Wallet, v: Wallet)
    requires Accounted(w) && Evolves(w, v) && Additions(w, v)
    ensures Accounted(v)
  {
    UsagesStayCharged(w, v);
    GuaranteesStayUnique(w, v);
    hide ChargedOnce, Guarantees, Credits, Additions, Evolves, SameGuarantee;
    forall e | e in v.entries
      ensures e.kind.WakeGuarantee? ==> Guarantees(v, e)
      ensures e.kind.AvailabilityCredit? ==> Credits(v, e) && e.amount >= 0
    {
      LinesStayExplained(w, v, e);
    }
  }

  /** Over any run every usage is charged once and guaranteed at most once, for its own amount. */
  lemma {:induction false} RunAccounted(w: Wallet, moves: seq<Move>, cal: Calendar)
    requires Sound(w) && Accounted(w) && FreshMoves(w, moves, cal)
    ensures Accounted(Run(w, moves, cal)) && Sound(Run(w, moves, cal))
  {
    RunSound(w, moves, cal);
    if |moves| > 0 {
      hide Attempt;
      var n := |moves| - 1;
      FreshPrefix(w, moves, n, cal);
      RunAccounted(w, moves[..n], cal);
      AttemptAccounted(Run(w, moves[..n], cal), moves[n].command, moves[n].env, cal);
    }
  }

  // ----- what one usage costs

  /** The ledger lines that charge a usage or guarantee it. */
  function LineOf(u: Usage): Entry -> int {
    (e: Entry) => if e.id == u.charge || GuaranteeOf(u.id)(e) then e.amount else 0
  }

  /** In every reachable wallet the lines of a usage sum to its charge, or to zero once guaranteed. */
  lemma UsageNet(w: Wallet, u: Usage)
    requires WellFormed(w) && Accounted(w) && u in w.usages
    ensures Sum(w.entries, LineOf(u)) ==
            if exists e :: e in w.entries && GuaranteeOf(u.id)(e) then 0 else -u.amount
  {
    hide WfReservations, WfQuotes, WfDeposits, Credits;
    var charge :| charge in w.entries && charge.id == u.charge && charge.kind.RuntimeCharge? && charge.amount == -u.amount;
    var i :| 0 <= i < |w.entries| && w.entries[i] == charge;
    assert forall j :: 0 <= j < |w.entries| && w.entries[j].id == u.charge ==> EntryId()(w.entries[j]) == EntryId()(w.entries[i]);
    if g :| g in w.entries && GuaranteeOf(u.id)(g) {
      var k :| 0 <= k < |w.entries| && w.entries[k] == g;
      assert Guarantees(w, g);
      var o :| o in w.usages && o.id == g.reference.usage && o.amount == g.amount;
      assert UsageId()(o) == UsageId()(u);
      SumTwo(w.entries, i, k, LineOf(u));
    } else {
      SumTwo(w.entries, i, i, LineOf(u));
    }
  }

  /** A sum whose terms vanish outside two positions. */
  lemma {:induction false} SumTwo<T>(xs: seq<T>, i: nat, k: nat, f: T -> int)
    requires i < |xs| && k < |xs|
    requires forall j :: 0 <= j < |xs| && j != i && j != k ==> f(xs[j]) == 0
    ensures Sum(xs, f) == if i == k then f(xs[i]) else f(xs[i]) + f(xs[k])
  {
    var n := |xs| - 1;
    if i < n && k < n {
      SumTwo(xs[..n], i, k, f);
    } else if i < n {
      SumTwo(xs[..n], i, i, f);
    } else if k < n {
      SumTwo(xs[..n], k, k, f);
    } else {
      SumZero(xs[..n], f);
    }
  }

  // ----- closing a failed wake, crashes and retries included

  /** The billing session of one operation and the keys derived from the operation. */
  datatype Session = Session(quote: Id, reservation: Id, startedAt: Time, usageKey: string, guaranteeKey: string)

  /** One call of record_release; it may stop between the capture and the guarantee. */
  datatype Try = Try(releasedAt: Time, env: Env, guaranteeEnv: Env, crashes: bool)

  /** record_release with reached_online false. */
  function Close(w: Wallet, s: Session, t: Try): Wallet {
    var o := DoCaptureUsage(w, s.quote, s.reservation, s.startedAt, t.releasedAt, s.usageKey, t.env);
    match o
    case Raise(_) => w
    case Save(_, _) => Guarantee(After(w, o), s, o.reply, t)
    case Return(_) => Guarantee(w, s, o.reply, t)
  }

  function Guarantee(w: Wallet, s: Session, captured: Reply, t: Try): Wallet {
    if t.crashes || !captured.Used? then w
    else After(w, DoGuarantee(w, captured.usage.id, false, s.guaranteeKey, t.guaranteeEnv))
  }

  /** record_release: only a session that never came online is given back. */
  function Record(w: Wallet, s: Session, t: Try, reachedOnline: bool): Wallet {
    if reachedOnline then After(w, DoCaptureUsage(w, s.quote, s.reservation, s.startedAt, t.releasedAt, s.usageKey, t.env))
    else Close(w, s, t)
  }

  function CloseAll(w: Wallet, s: Session, tries: seq<Try>): Wallet {
    if |tries| == 0 then w
    else Close(CloseAll(w, s, tries[..|tries| - 1]), s, tries[|tries| - 1])
  }

  /** The wallet `v` is `w` with one usage of the session charged, and guaranteed or not yet. */
  ghost predicate Closed(w: Wallet, v: Wallet, s: Session, r: Reservation, guaranteed: bool) {
    && |v.usages| == |w.usages| + 1 && |v.entries| == |w.entries| + (if guaranteed then 2 else 1)
    && w.usages <= v.usages && w.entries <= v.entries
    && v.reservations == Substitute(w.reservations, ReservationIs(r.id), r.(status := Captured))
    && v.quotes == w.quotes && v.deposits == w.deposits
    && var u, charge := v.usages[|w.usages|], v.entries[|w.entries|];
       && u.key == s.usageKey && u.charge == charge.id && u.reservation == s.reservation
       && charge.kind.RuntimeCharge? && charge.amount == -u.amount
       && (guaranteed ==>
             var g := v.entries[|w.entries| + 1];
             g.kind.WakeGuarantee? && g.reference == OfUsage(u.id) && g.amount == u.amount)
       && (forall x :: x in w.usages ==> x.id != u.id)
       && (forall x :: x in w.entries ==> !GuaranteeOf(u.id)(x))
  }

  lemma FirstCapture(w: Wallet, s: Session, r: Reservation, q: Quote, t: Try)
    requires Accounted(w) && Fresh(w, t.env)
    requires Find(w.usages, UsageKeyed(s.usageKey)).None?
    requires Find(w.reservations, ReservationIs(s.reservation)) == Some(r) && r.status.Active?
    requires Find(w.quotes, QuoteIs(s.quote)) == Some(q)
    requires t.releasedAt >= s.startedAt && ChargeFor(q.rate, BillableSeconds(t.releasedAt - s.startedAt)) <= r.amount
    ensures var o := DoCaptureUsage(w, s.quote, s.reservation, s.startedAt, t.releasedAt, s.usageKey, t.env);
            o.Save? && Closed(w, o.next, s, r, false) && o.reply == Used(o.next.usages[|w.usages|])
  {
    hide ChargeFor, BillableSeconds;
    var o := DoCaptureUsage(w, s.quote, s.reservation, s.startedAt, t.releasedAt, s.usageKey, t.env);
    var u := o.next.usages[|w.usages|];
    forall x | x in w.entries ensures !GuaranteeOf(u.id)(x) {
      assert x.kind.WakeGuarantee? ==> Guarantees(w, x);
    }
  }

  lemma FirstClose(w: Wallet, s: Session, r: Reservation, q: Quote, t: Try)
    requires Sound(w) && Accounted(w) && Fresh(w, t.env)
    requires Find(w.usages, UsageKeyed(s.usageKey)).None?
    requires Find(w.reservations, ReservationIs(s.reservation)) == Some(r) && r.status.Active?
    requires Find(w.quotes, QuoteIs(s.quote)) == Some(q)
    requires t.releasedAt >= s.startedAt && ChargeFor(q.rate, BillableSeconds(t.releasedAt - s.startedAt)) <= r.amount
    ensures Closed(w, Close(w, s, t), s, r, !t.crashes)
  {
    hide DoCaptureUsage, DoGuarantee;
    FirstCapture(w, s, r, q, t);
    var v := DoCaptureUsage(w, s.quote, s.reservation, s.startedAt, t.releasedAt, s.usageKey, t.env).next;
    if !t.crashes {
      GuaranteeAfter(w, v, s, r, t.guaranteeEnv);
    }
  }

  lemma GuaranteeAfter(w: Wallet, v: Wallet, s: Session, r: Reservation, env: Env)
    requires WfUsages(w.usages) && Closed(w, v, s, r, false)
    ensures Closed(w, After(v, DoGuarantee(v, v.usages[|w.usages|].id, false, s.guaranteeKey, env)), s, r, true)
  {
    var u := v.usages[|w.usages|];
    assert v.usages == w.usages + [u];
    assert Find(v.usages, UsageIs(u.id)) == Some(u);
    assert v.entries == w.entries + [v.entries[|w.entries|]];
    assert Find(v.entries, GuaranteeOf(u.id)).None?;
  }

  lemma NextClose(w: Wallet, v: Wallet, s: Session, r: Reservation, guaranteed: bool, t: Try)
    requires WfUsages(w.usages) && Find(w.usages, UsageKeyed(s.usageKey)).None?
    requires Closed(w, v, s, r, guaranteed) && t.releasedAt >= s.startedAt
    ensures Closed(w, Close(v, s, t), s, r, guaranteed || !t.crashes)
  {
    hide ChargeFor, BillableSeconds;
    var u := v.usages[|w.usages|];
    assert v.usages == w.usages + [u];
    assert Find(v.usages, UsageKeyed(s.usageKey)) == Some(u);
    if !t.crashes {
      if guaranteed {
        assert Find(v.usages, UsageIs(u.id)) == Some(u);
        var g := v.entries[|w.entries| + 1];
        assert g in v.entries && GuaranteeOf(u.id)(g);
      } else {
        GuaranteeAfter(w, v, s, r, t.guaranteeEnv);
      }
    }
  }

  ghost predicate SomeFinish(tries: seq<Try>) { exists i :: 0 <= i < |tries| && !tries[i].crashes }

  lemma {:induction false} RetriesClose(w: Wallet, s: Session, r: Reservation, q: Quote, tries: seq<Try>)
    requires Sound(w) && Accounted(w) && |tries| > 0 && Fresh(w, tries[0].env)
    requires Find(w.usages, UsageKeyed(s.usageKey)).None?
    requires Find(w.reservations, ReservationIs(s.reservation)) == Some(r) && r.status.Active?
    requires Find(w.quotes, QuoteIs(s.quote)) == Some(q)
    requires forall t :: t in tries ==> t.releasedAt >= s.startedAt
    requires ChargeFor(q.rate, BillableSeconds(tries[0].releasedAt - s.startedAt)) <= r.amount
    ensures Closed(w, CloseAll(w, s, tries), s, r, SomeFinish(tries))
  {
    hide Close, Closed, ChargeFor;
    var n := |tries| - 1;
    if n == 0 {
      assert CloseAll(w, s, tries[..0]) == w;
      FirstClose(w, s, r, q, tries[0]);
    } else {
      RetriesClose(w, s, r, q, tries[..n]);
      NextClose(w, CloseAll(w, s, tries[..n]), s, r, SomeFinish(tries[..n]), tries[n]);
      assert SomeFinish(tries) <==> SomeFinish(tries[..n]) || !tries[n].crashes by {
        if SomeFinish(tries) {
          var i :| 0 <= i < |tries| && !tries[i].crashes;
          assert i < n ==> !tries[..n][i].crashes;
        }
        if i :| 0 <= i < n && !tries[..n][i].crashes {
          assert !tries[i].crashes;
        }
      }
    }
  }

  lemma ClosedBalances(w: Wallet, v: Wallet, s: Session, r: Reservation)
    requires Closed(w, v, s, r, true)
    ensures Balance(v) == Balance(w)
  {
    var charge, guarantee := v.entries[|w.entries|], v.entries[|w.entries| + 1];
    assert v.entries == w.entries + [charge] + [guarantee];
    SumAppend(w.entries + [charge], guarantee, AmountOf());
    SumAppend(w.entries, charge, AmountOf());
  }

  lemma ClosedFrees(w: Wallet, v: Wallet, s: Session, r: Reservation)
    requires WfReservations(w.reservations) && r in w.reservations && r.status.Active? && Closed(w, v, s, r, true)
    ensures HeldTotal(v) == HeldTotal(w) - r.amount
    ensures Find(v.reservations, ReservationIs(r.id)) == Some(r.(status := Captured))
  {
    ReplaceReservation(w.reservations, r, r.(status := Captured));
    var i := FirstIndex(v.reservations, ReservationIs(r.id));
    var k :| 0 <= k < |w.reservations| && w.reservations[k] == r;
    assert ReservationIs(r.id)(v.reservations[k]);
    assert ReservationId()(v.reservations[k]) == ReservationId()(v.reservations[i]);
  }

  /** A failed wake costs nothing. However often the closing step crashes and is retried, one usage,
      one charge and one equal guarantee are posted, the hold is captured, the balance is unchanged
      and the available balance rises by the whole hold. */
  lemma FailedWakeIsFree(w: Wallet, s: Session, r: Reservation, q: Quote, tries: seq<Try>)
    requires Sound(w) && Accounted(w) && |tries| > 0 && Fresh(w, tries[0].env)
    requires Find(w.usages, UsageKeyed(s.usageKey)).None?
    requires Find(w.reservations, ReservationIs(s.reservation)) == Some(r) && r.status.Active?
    requires Find(w.quotes, QuoteIs(s.quote)) == Some(q)
    requires forall t :: t in tries ==> t.releasedAt >= s.startedAt
    requires ChargeFor(q.rate, BillableSeconds(tries[0].releasedAt - s.startedAt)) <= r.amount
    requires SomeFinish(tries)
    requires Find(w.deposits, InReview()).None?
    ensures var v := CloseAll(w, s, tries);
            && Closed(w, v, s, r, true)
            && Balance(v) == Balance(w)
            && Available(v) == Available(w) + r.amount
            && Find(v.reservations, ReservationIs(r.id)) == Some(r.(status := Captured))
  {
    hide Close, Closed, Sum, ChargeFor;
    var v := CloseAll(w, s, tries);
    RetriesClose(w, s, r, q, tries);
    ClosedBalances(w, v, s, r);
    ClosedFrees(w, v, s, r);
    assert v.deposits == w.deposits by { ClosedKeepsDeposits(w, v, s, r); }
  }

  lemma ClosedKeepsDeposits(w: Wallet, v: Wallet, s: Session, r: Reservation)
    requires Closed(w, v, s, r, true)
    ensures v.deposits == w.deposits
  {
  }

  /** A wake that fails before a runtime exists only releases its hold. */
  lemma CancelOnlyReleases(w: Wallet, r: Reservation, env: Env, cal: Calendar)
    requires Sound(w) && r in w.reservations && r.status.Active?
    ensures var v := Step(w, Release(r.id), env, cal);
            && v == w.(reservations := v.reservations)
            && HeldTotal(v) == HeldTotal(w) - r.amount
            && r.(status := Released) in v.reservations
  {
    var found := Find(w.reservations, ReservationIs(r.id)).value;
    assert ReservationId()(found) == ReservationId()(r);
    ReplaceReservation(w.reservations, r, r.(status := Released));
    assert Attempt(w, Release(r.id), env, cal) == DoRelease(w, r.id);
    hide Attempt, Sum, WfReservations;
    var k :| 0 <= k < |w.reservations| && w.reservations[k] == r;
    assert Step(w, Release(r.id), env, cal).reservations[k] == r.(status := Released);
  }
}
