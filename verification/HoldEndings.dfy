/** What ends an active hold: the exact commands, and the exact runs. */
module HoldEndings {
  import opened Base
  import opened Money
  import opened Wallet
  import opened Solvency
  import G = BalanceGuard

  ghost predicate ActiveHold(w: Wallet, id: Id) { exists r :: r in w.reservations && r.id == id && r.status.Active? }

  /** The command closes the hold, told from the wallet before it: any release of it, a capture under a new
      key for a positive amount within it, or a usage under a new key, of a known quote, charged within it. */
  predicate Closes(w: Wallet, c: Command, id: Id) {
    match Find(w.reservations, ReservationIs(id))
    case None => false
    case Some(h) =>
      match c
      case Release(r) => r == id
      case Capture(r, amount, key) => r == id && 0 < amount <= h.amount && Find(w.entries, EntryKeyed(key)).None?
      case CaptureUsage(quote, r, from, until, key) =>
        && r == id && from <= until && Find(w.usages, UsageKeyed(key)).None?
        && var q := Find(w.quotes, QuoteIs(quote));
           q.Some? && ChargeFor(q.value.rate, BillableSeconds(until - from)) <= h.amount
      case _ => false
  }

  lemma FoundById(w: Wallet, r: Reservation)
    requires WfReservations(w.reservations) && r in w.reservations
    ensures Find(w.reservations, ReservationIs(r.id)) == Some(r)
  {
    var found := Find(w.reservations, ReservationIs(r.id)).value;
    assert ReservationId()(found) == ReservationId()(r);
  }

  lemma Replaced(w: Wallet, v: Wallet, r: Reservation, s: Reservation)
    requires WfReservations(w.reservations) && r in w.reservations && s.id == r.id && s.key == r.key && s.amount >= 0
    requires v.reservations == Substitute(w.reservations, ReservationIs(r.id), s)
    ensures ActiveHold(v, r.id) <==> s.status.Active?
  {
    ReplaceReservation(w.reservations, r, s);
    var i :| 0 <= i < |w.reservations| && w.reservations[i] == r;
    assert v.reservations[i] == s && s in v.reservations;
    forall x | x in v.reservations && x.id == r.id ensures x == s {
      var j :| 0 <= j < |v.reservations| && v.reservations[j] == x;
      assert ReservationId()(v.reservations[j]) == ReservationId()(v.reservations[i]);
    }
  }

  lemma ReleaseCloses(w: Wallet, r: Reservation)
    requires WfReservations(w.reservations) && r in w.reservations && r.status.Active?
    ensures !ActiveHold(After(w, DoRelease(w, r.id)), r.id)
  {
    FoundById(w, r);
    Replaced(w, After(w, DoRelease(w, r.id)), r, r.(status := Released));
  }

  lemma CaptureCloses(w: Wallet, r: Reservation, amount: int, key: string, env: Env)
    requires WfReservations(w.reservations) && r in w.reservations && r.status.Active?
    ensures ActiveHold(After(w, DoCapture(w, r.id, amount, key, env)), r.id) <==> !Closes(w, Capture(r.id, amount, key), r.id)
  {
    FoundById(w, r);
    var o := DoCapture(w, r.id, amount, key, env);
    if o.Save? {
      Replaced(w, o.next, r, r.(status := Captured));
    }
  }

  lemma UsageCloses(w: Wallet, quote: Id, r: Reservation, from: Time, until: Time, key: string, env: Env)
    requires WfReservations(w.reservations) && r in w.reservations && r.status.Active?
    ensures ActiveHold(After(w, DoCaptureUsage(w, quote, r.id, from, until, key, env)), r.id)
            <==> !Closes(w, CaptureUsage(quote, r.id, from, until, key), r.id)
  {
    hide ChargeFor, BillableSeconds;
    FoundById(w, r);
    var o := DoCaptureUsage(w, quote, r.id, from, until, key, env);
    if o.Save? {
      Replaced(w, o.next, r, r.(status := Captured));
    }
  }

  lemma GuardSpares(w: Wallet, c: Command, r: Reservation, cal: Calendar)
    requires WfReservations(w.reservations) && r in w.reservations && r.status.Active? && c.Protect?
    requires c.reservation == r.id
    ensures ActiveHold(After(w, DoProtect(w, c.quote, c.reservation, c.startedAt, c.observedAt, c.sleepSeconds, c.interval, cal)), r.id)
  {
    hide Guarded;
    FoundById(w, r);
    var o := DoProtect(w, c.quote, c.reservation, c.startedAt, c.observedAt, c.sleepSeconds, c.interval, cal);
    if o.Save? {
      var q := Find(w.quotes, QuoteIs(c.quote)).value;
      G.GuardedHold(w, q, r, c.observedAt, G.Horizon(c), c.interval, cal);
      StaysIn(w, o.next, r, o.reply.decision.reserved);
    }
  }

  lemma StaysIn(w: Wallet, v: Wallet, r: Reservation, amount: int)
    requires r in w.reservations && r.status.Active?
    requires v.reservations == Substitute(w.reservations, ReservationIs(r.id), r.(amount := amount))
    ensures ActiveHold(v, r.id)
  {
    var i :| 0 <= i < |w.reservations| && w.reservations[i] == r;
    assert v.reservations[i] == r.(amount := amount) && v.reservations[i] in v.reservations;
  }

  /** One command: an active hold is active afterwards if and only if the command does not close it. */
  lemma ClosesExactly(w: Wallet, c: Command, env: Env, cal: Calendar, id: Id)
    requires Sound(w) && ActiveHold(w, id)
    ensures ActiveHold(Step(w, c, env, cal), id) <==> !Closes(w, c, id)
  {
    var r :| r in w.reservations && r.id == id && r.status.Active?;
    assert WfReservations(w.reservations);
    hide DoRelease, DoCapture, DoCaptureUsage, DoProtect, Sound, WfReservations;
    if !G.Targets(c, id) {
      hide Attempt;
      G.OtherReservationsStay(w, c, env, cal, r);
      assert !Closes(w, c, id);
    } else {
      FoundById(w, r);
      match c
      case Release(_) => ReleaseCloses(w, r);
      case Capture(_, amount, key) => CaptureCloses(w, r, amount, key, env);
      case CaptureUsage(quote, _, from, until, key) => UsageCloses(w, quote, r, from, until, key, env);
      case Protect(_, _, _, _, _, _) => GuardSpares(w, c, r, cal);
      case _ =>
    }
  }

  ghost predicate ClosedHold(w: Wallet, id: Id) { exists r :: r in w.reservations && r.id == id && !r.status.Active? }

  /** A hold that was closed is never active again. */
  lemma ClosedStays(w: Wallet, v: Wallet, id: Id)
    requires Sound(v) && Evolves(w, v) && ClosedHold(w, id)
    ensures ClosedHold(v, id) && !ActiveHold(v, id)
  {
    var r :| r in w.reservations && r.id == id && !r.status.Active?;
    var i :| 0 <= i < |w.reservations| && w.reservations[i] == r;
    assert Continues(r, v.reservations[i]) && v.reservations[i] in v.reservations;
    OneStatus(v, r);
  }

  lemma OneStatus(w: Wallet, r: Reservation)
    requires WfReservations(w.reservations) && r in w.reservations
    ensures ActiveHold(w, r.id) <==> r.status.Active?
    ensures ClosedHold(w, r.id) <==> !r.status.Active?
  {
    forall x | x in w.reservations && x.id == r.id ensures x == r {
      var i :| 0 <= i < |w.reservations| && w.reservations[i] == x;
      var j :| 0 <= j < |w.reservations| && w.reservations[j] == r;
      assert ReservationId()(w.reservations[i]) == ReservationId()(w.reservations[j]);
    }
  }

  /** A hold on file is active or closed, and stays on file. */
  lemma ActiveOrClosed(w: Wallet, v: Wallet, id: Id)
    requires Sound(v) && Evolves(w, v) && ActiveHold(w, id)
    ensures ClosedHold(v, id) <==> !ActiveHold(v, id)
  {
    var r :| r in w.reservations && r.id == id && r.status.Active?;
    var i :| 0 <= i < |w.reservations| && w.reservations[i] == r;
    assert Continues(r, v.reservations[i]) && v.reservations[i] in v.reservations;
    OneStatus(v, v.reservations[i]);
  }

  ghost predicate NoneCloses(w: Wallet, moves: seq<Move>, cal: Calendar, id: Id) {
    forall i :: 0 <= i < |moves| ==> !Closes(Run(w, moves[..i], cal), moves[i].command, id)
  }

  lemma StepEvolves(w: Wallet, m: Move, cal: Calendar)
    requires Sound(w) && Fresh(w, m.env)
    ensures Evolves(w, Step(w, m.command, m.env, cal)) && Sound(Step(w, m.command, m.env, cal))
  {
    hide Attempt;
    AttemptGood(w, m.command, m.env, cal);
  }

  /** One move on a hold on file: active afterwards exactly if it was active and is not closed now. */
  lemma MoveActiveExactly(w: Wallet, m: Move, cal: Calendar, id: Id)
    requires Sound(w) && Fresh(w, m.env) && (ActiveHold(w, id) || ClosedHold(w, id))
    ensures var v := Step(w, m.command, m.env, cal);
            && (ActiveHold(v, id) <==> ActiveHold(w, id) && !Closes(w, m.command, id))
            && (ActiveHold(v, id) || ClosedHold(v, id)) && Sound(v)
  {
    hide Step, Closes, ActiveHold, ClosedHold, Sound, Fresh, Evolves;
    var v := Step(w, m.command, m.env, cal);
    StepEvolves(w, m, cal);
    if ActiveHold(w, id) {
      ClosesExactly(w, m.command, m.env, cal, id);
      ActiveOrClosed(w, v, id);
    } else {
      ClosedStays(w, v, id);
    }
  }

  lemma NoneClosesLast(w: Wallet, moves: seq<Move>, cal: Calendar, id: Id)
    requires |moves| > 0
    ensures var n := |moves| - 1;
            NoneCloses(w, moves, cal, id) <==>
              NoneCloses(w, moves[..n], cal, id) && !Closes(Run(w, moves[..n], cal), moves[n].command, id)
  {
    hide Closes, Run;
    var n := |moves| - 1;
    assert forall i :: 0 <= i < n ==> moves[..n][..i] == moves[..i];
    if NoneCloses(w, moves[..n], cal, id) && !Closes(Run(w, moves[..n], cal), moves[n].command, id) {
      forall i | 0 <= i < |moves| ensures !Closes(Run(w, moves[..i], cal), moves[i].command, id) {
        assert i < n ==> !Closes(Run(w, moves[..n][..i], cal), moves[..n][i].command, id);
      }
    }
    if NoneCloses(w, moves, cal, id) {
      forall i | 0 <= i < n ensures !Closes(Run(w, moves[..n][..i], cal), moves[..n][i].command, id) {
        assert !Closes(Run(w, moves[..i], cal), moves[i].command, id);
      }
    }
  }

  /** Whole runs: an active hold is active at the end if and only if no command of the run closed it. */
  lemma {:induction false} RunActiveExactly(w: Wallet, moves: seq<Move>, cal: Calendar, id: Id)
    requires Sound(w) && ActiveHold(w, id) && FreshMoves(w, moves, cal)
    ensures var v := Run(w, moves, cal);
            Sound(v) && (ActiveHold(v, id) || ClosedHold(v, id)) && (ActiveHold(v, id) <==> NoneCloses(w, moves, cal, id))
  {
    hide Step, Closes, ActiveHold, ClosedHold, Sound, Fresh, NoneCloses;
    if |moves| == 0 {
      assert NoneCloses(w, moves, cal, id) by { NothingCloses(w, cal, id); }
    } else {
      var n := |moves| - 1;
      FreshPrefix(w, moves, n, cal);
      RunActiveExactly(w, moves[..n], cal, id);
      assert Fresh(Run(w, moves[..n], cal), moves[n].env);
      MoveActiveExactly(Run(w, moves[..n], cal), moves[n], cal, id);
      NoneClosesLast(w, moves, cal, id);
    }
  }

  lemma NothingCloses(w: Wallet, cal: Calendar, id: Id)
    ensures NoneCloses(w, [], cal, id)
  {
  }
}
