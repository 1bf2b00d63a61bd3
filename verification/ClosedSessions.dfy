/** What the worker's trace costs: the closings it tells the recorder, applied to the wallet. A wake that was
    closed leaves the balance as it was; a sleep that was closed pays for its usage once. */
module ClosedSessions {
  import opened Base
  import W = Wallet
  import opened Money
  import Solvency
  import opened Usages
  import M = WorldModel
  import P = WorldPlans
  import opened SafeSleep
  import opened SafeWake

  /** The closings of an operation in the trace, done or begun, in order. */
  function Closings(trace: seq<Performed>, id: Id): (r: seq<Performed>)
    ensures forall p :: p in r ==> p.effect.CloseSession?
  {
    if |trace| == 0 then [] else
    var last := trace[|trace| - 1];
    Closings(trace[..|trace| - 1], id) + if last.operation == id && last.effect.CloseSession? then [last] else []
  }

  lemma {:induction false} ClosingsIn(trace: seq<Performed>, id: Id)
    ensures forall p :: p in Closings(trace, id) <==> p in trace && p.operation == id && p.effect.CloseSession?
  {
    if |trace| > 0 {
      var n := |trace| - 1;
      ClosingsIn(trace[..n], id);
      assert trace == trace[..n] + [trace[n]];
    }
  }

  /** What each closing told the recorder: nothing, if it broke off before, or one call of record_release. */
  type Calls = seq<Option<Try>>

  /** A closing that was done finished its call. */
  ghost predicate CallsOf(calls: Calls, closings: seq<Performed>) {
    && |calls| == |closings|
    && forall i :: 0 <= i < |calls| && closings[i].done ==> calls[i].Some? && !calls[i].value.crashes
  }

  /** The wallet after the closings, each with the word the worker gave. */
  function Recorded(w: W.Wallet, s: Session, closings: seq<Performed>, calls: Calls): W.Wallet
    requires |calls| == |closings| && forall p :: p in closings ==> p.effect.CloseSession?
  {
    if |calls| == 0 then w else
    var n := |calls| - 1;
    var before := Recorded(w, s, closings[..n], calls[..n]);
    if calls[n].None? then before else Record(before, s, calls[n].value, closings[n].effect.reachedOnline)
  }

  /** The calls that were made. */
  function Made(calls: Calls): seq<Try> {
    if |calls| == 0 then [] else
    Made(calls[..|calls| - 1]) + if calls[|calls| - 1].Some? then [calls[|calls| - 1].value] else []
  }

  /** The same calls, none of which reaches the guarantee. */
  function Captures(tries: seq<Try>): seq<Try> {
    seq(|tries|, i requires 0 <= i < |tries| => tries[i].(crashes := true))
  }

  lemma {:induction false} MadeIn(calls: Calls)
    ensures forall t :: t in Made(calls) <==> Some(t) in calls
  {
    if |calls| > 0 {
      var n := |calls| - 1;
      MadeIn(calls[..n]);
      assert calls == calls[..n] + [calls[n]];
    }
  }

  lemma CloseAllMore(w: W.Wallet, s: Session, tries: seq<Try>, t: Try)
    ensures CloseAll(w, s, tries + [t]) == Close(CloseAll(w, s, tries), s, t)
  {
    assert (tries + [t])[..|tries|] == tries;
  }

  lemma OneRecord(w: W.Wallet, s: Session, t: Try)
    ensures Record(w, s, t, true) == Close(w, s, t.(crashes := true)) && Record(w, s, t, false) == Close(w, s, t)
  {
    hide W.DoCaptureUsage;
  }

  lemma RecordedMore(w: W.Wallet, s: Session, closings: seq<Performed>, calls: Calls)
    requires |calls| == |closings| > 0 && forall p :: p in closings ==> p.effect.CloseSession?
    ensures var n := |calls| - 1;
            var before := Recorded(w, s, closings[..n], calls[..n]);
            Recorded(w, s, closings, calls) == match calls[n]
                                               case None => before
                                               case Some(t) => Record(before, s, t, closings[n].effect.reachedOnline)
    ensures var n := |calls| - 1;
            Made(calls) == Made(calls[..n]) + if calls[n].Some? then [calls[n].value] else []
  {
  }

  lemma CapturesMore(tries: seq<Try>, t: Try)
    ensures Captures(tries + [t]) == Captures(tries) + [t.(crashes := true)]
  {
  }

  /** Closings with one word: as never online they are the closings of a failed wake, as online only captures. */
  lemma {:induction false} OneWord(w: W.Wallet, s: Session, closings: seq<Performed>, calls: Calls, online: bool)
    requires |calls| == |closings| && forall p :: p in closings ==> p.effect == P.CloseSession(online)
    ensures Recorded(w, s, closings, calls) == CloseAll(w, s, if online then Captures(Made(calls)) else Made(calls))
  {
    if |calls| == 0 {
      assert Captures(Made(calls)) == [] == Made(calls);
    } else {
      hide Record, Recorded, Made, Captures, CloseAll, Close;
      var n := |calls| - 1;
      OneWord(w, s, closings[..n], calls[..n], online);
      RecordedMore(w, s, closings, calls);
      var before := Made(calls[..n]);
      if calls[n].Some? {
        var t := calls[n].value;
        OneRecord(Recorded(w, s, closings[..n], calls[..n]), s, t);
        CapturesMore(before, t);
        CloseAllMore(w, s, if online then Captures(before) else before, if online then t.(crashes := true) else t);
        assert closings[n].effect == P.CloseSession(online);
      } else {
        assert before + [] == before;
      }
    }
  }

  /** A session that may be closed now: new, held for, and within its hold at the first call. */
  ghost predicate Closable(w: W.Wallet, s: Session, r: W.Reservation, q: W.Quote, tries: seq<Try>) {
    && Solvency.Sound(w) && Accounted(w)
    && Find(w.usages, W.UsageKeyed(s.usageKey)).None?
    && Find(w.reservations, W.ReservationIs(s.reservation)) == Some(r) && r.status.Active?
    && Find(w.quotes, W.QuoteIs(s.quote)) == Some(q)
    && (forall t :: t in tries ==> t.releasedAt >= s.startedAt)
    && (|tries| > 0 ==>
          && Solvency.Fresh(w, tries[0].env)
          && ChargeFor(q.rate, BillableSeconds(tries[0].releasedAt - s.startedAt)) <= r.amount)
  }

  lemma ClosingDone(closings: seq<Performed>, calls: Calls, p: Performed)
    requires CallsOf(calls, closings) && p in closings && p.done
    ensures |Made(calls)| > 0 && SomeFinish(Made(calls))
  {
    var i :| 0 <= i < |closings| && closings[i] == p;
    MadeIn(calls);
    assert calls[i] in calls && calls[i].value in Made(calls);
    var j :| 0 <= j < |Made(calls)| && Made(calls)[j] == calls[i].value;
    assert !Made(calls)[j].crashes;
  }

  /** One kind of operation is always closed with one word. */
  lemma WordOf(s: Shop, p: Performed)
    requires WakeSafe(s) && p in s.trace && p.effect.CloseSession? && p.operation in s.system.repo.operations
    ensures p in Closings(s.trace, p.operation)
    ensures var online := s.system.repo.operations[p.operation].kind == M.Sleep;
            forall x :: x in Closings(s.trace, p.operation) ==> x.effect == P.CloseSession(online)
  {
    hide WakeSafe;
    ClosingsIn(s.trace, p.operation);
    forall x | x in Closings(s.trace, p.operation)
      ensures x.effect == P.CloseSession(s.system.repo.operations[p.operation].kind == M.Sleep)
    {
      ClosedRightly(s, x);
    }
  }

  lemma NeverOnlineIsFree(w: W.Wallet, session: Session, r: W.Reservation, q: W.Quote, closings: seq<Performed>, calls: Calls,
                          p: Performed)
    requires CallsOf(calls, closings) && p in closings && p.done && forall x :: x in closings ==> x.effect == P.CloseSession(false)
    requires Closable(w, session, r, q, Made(calls)) && forall d :: d in w.deposits ==> !d.status.NeedsReview?
    ensures var v := Recorded(w, session, closings, calls);
            W.Balance(v) == W.Balance(w) && W.Available(v) == W.Available(w) + r.amount
  {
    hide Recorded, Made, CloseAll, Solvency.Sound, Solvency.Fresh, Accounted, ChargeFor, BillableSeconds, Closed;
    ClosingDone(closings, calls, p);
    hide CallsOf, W.Balance, W.Available;
    FailedWakeIsFree(w, session, r, q, Made(calls));
    OneWord(w, session, closings, calls, false);
  }

  /** A wake of which some closing was done, by its advances or by giving up, has cost nothing: whatever crashed
      and was repeated, the balance is what it was and the hold is free again. */
  lemma ClosedWakeIsFree(s: Shop, p: Performed, w: W.Wallet, session: Session, r: W.Reservation, q: W.Quote, calls: Calls)
    requires WakeSafe(s) && p in s.trace && p.done && p.effect.CloseSession?
    requires p.operation in s.system.repo.operations && s.system.repo.operations[p.operation].kind == M.Wake
    requires CallsOf(calls, Closings(s.trace, p.operation)) && Closable(w, session, r, q, Made(calls))
    requires forall d :: d in w.deposits ==> !d.status.NeedsReview?
    ensures var v := Recorded(w, session, Closings(s.trace, p.operation), calls);
            W.Balance(v) == W.Balance(w) && W.Available(v) == W.Available(w) + r.amount
  {
    hide WakeSafe, Recorded, Made, Closable, CallsOf, Closings, W.Balance, W.Available;
    WordOf(s, p);
    NeverOnlineIsFree(w, session, r, q, Closings(s.trace, p.operation), calls, p);
  }

  /** In particular a wake whose advances ended in NEEDS_ATTENTION. */
  lemma ReleasedWakeIsFree(s: Shop, id: Id, w: W.Wallet, session: Session, r: W.Reservation, q: W.Quote, calls: Calls)
    requires WakeSafe(s) && id in s.system.repo.operations
    requires var o := s.system.repo.operations[id]; (o.kind, o.status, o.phase) == (M.Wake, M.NeedsAttention, M.Complete)
    requires CallsOf(calls, Closings(s.trace, id)) && Closable(w, session, r, q, Made(calls))
    requires forall d :: d in w.deposits ==> !d.status.NeedsReview?
    ensures W.Balance(Recorded(w, session, Closings(s.trace, id), calls)) == W.Balance(w)
  {
    ReleasedWake(s, id);
    OwnIn(s.trace, id, P.CloseSession(false));
    hide WakeSafe;
    ClosedWakeIsFree(s, Performed(id, P.CloseSession(false), false, true), w, session, r, q, calls);
  }

  lemma {:induction false} OwnIn(trace: seq<Performed>, id: Id, x: P.Effect)
    ensures x in Own(trace, id) <==> Performed(id, x, false, true) in trace
  {
    if |trace| > 0 {
      var n := |trace| - 1;
      OwnIn(trace[..n], id, x);
      assert trace == trace[..n] + [trace[n]];
    }
  }

  lemma CapturesAre(tries: seq<Try>)
    ensures |Captures(tries)| == |tries| && !SomeFinish(Captures(tries))
    ensures forall t :: t in Captures(tries) ==> exists x :: x in tries && t == x.(crashes := true)
  {
    forall t | t in Captures(tries) ensures exists x :: x in tries && t == x.(crashes := true) {
      var i :| 0 <= i < |tries| && Captures(tries)[i] == t;
      assert tries[i] in tries;
    }
  }

  lemma OnlineIsCharged(w: W.Wallet, session: Session, r: W.Reservation, q: W.Quote, closings: seq<Performed>, calls: Calls,
                        p: Performed)
    requires CallsOf(calls, closings) && p in closings && p.done && forall x :: x in closings ==> x.effect == P.CloseSession(true)
    requires Closable(w, session, r, q, Made(calls))
    ensures var v := Recorded(w, session, closings, calls);
            && |v.usages| == |w.usages| + 1 && |v.entries| == |w.entries| + 1
            && v.usages[|w.usages|].key == session.usageKey
            && W.Balance(v) == W.Balance(w) - v.usages[|w.usages|].amount
  {
    hide Recorded, Made, CloseAll, Solvency.Sound, Solvency.Fresh, Accounted, ChargeFor, BillableSeconds, SomeFinish, W.Balance;
    ClosingDone(closings, calls, p);
    var tries := Captures(Made(calls));
    CapturesAre(Made(calls));
    assert tries[0] == Made(calls)[0].(crashes := true);
    hide CallsOf, Captures;
    RetriesClose(w, session, r, q, tries);
    OneWord(w, session, closings, calls, true);
    OneCharge(w, CloseAll(w, session, tries), session, r);
  }

  /** A sleep that was closed is charged once and given nothing back, whatever crashed and was repeated. */
  lemma ClosedSleepIsCharged(s: Shop, p: Performed, w: W.Wallet, session: Session, r: W.Reservation, q: W.Quote, calls: Calls)
    requires WakeSafe(s) && p in s.trace && p.done && p.effect.CloseSession?
    requires p.operation in s.system.repo.operations && s.system.repo.operations[p.operation].kind == M.Sleep
    requires CallsOf(calls, Closings(s.trace, p.operation)) && Closable(w, session, r, q, Made(calls))
    ensures var v := Recorded(w, session, Closings(s.trace, p.operation), calls);
            && |v.usages| == |w.usages| + 1 && |v.entries| == |w.entries| + 1
            && v.usages[|w.usages|].key == session.usageKey
            && W.Balance(v) == W.Balance(w) - v.usages[|w.usages|].amount
  {
    hide WakeSafe, Recorded, Made, Closable, CallsOf, Closings, W.Balance;
    WordOf(s, p);
    OnlineIsCharged(w, session, r, q, Closings(s.trace, p.operation), calls, p);
  }

  lemma OneCharge(w: W.Wallet, v: W.Wallet, s: Session, r: W.Reservation)
    requires Closed(w, v, s, r, false)
    ensures W.Balance(v) == W.Balance(w) - v.usages[|w.usages|].amount
  {
    var charge := v.entries[|w.entries|];
    assert v.entries == w.entries + [charge];
    SumAppend(w.entries, charge, W.AmountOf());
  }
}
