/** Alerts over interleavings: what racing guards hand to their callers, computed on snapshots of any age. */
module AlertProtocol {
  import opened Base
  import opened Wallet
  import opened Optimistic
  import opened BalanceGuard
  import opened BillingProtocol

  /** The attempt whose reply an event hands out: a save that is accepted, or an answer without a save on
      whatever snapshot the client holds. A rejected save hands out nothing; its caller reads again. */
  function Answered(s: System<Wallet>, e: Event, cal: Calendar): Option<Wallet> {
    if !e.Commits? || e.client !in s.held then None else
    match Attempt(s.held[e.client].value, e.command, e.env, cal)
    case Save(_, _) => if Accepts(s, e.client) then Some(s.held[e.client].value) else None
    case Return(_) => Some(s.held[e.client].value)
    case Raise(_) => None
  }

  function MinuteEmitted(s: System<Wallet>, e: Event, cal: Calendar, reservation: Id): Option<int> {
    match Answered(s, e, cal)
    case None => None
    case Some(w) => MinuteAlert(w, Move(e.command, e.env), cal, reservation)
  }

  function PercentEmitted(s: System<Wallet>, e: Event, cal: Calendar, world: Id, month: int): Option<int> {
    match Answered(s, e, cal)
    case None => None
    case Some(w) => PercentAlert(w, Move(e.command, e.env), cal, world, month)
  }

  function MinutesEmitted(s: System<Wallet>, events: seq<Event>, cal: Calendar, reservation: Id): seq<int> {
    if |events| == 0 then [] else
    var n := |events| - 1;
    Append(MinutesEmitted(s, events[..n], cal, reservation), MinuteEmitted(Exec(s, events[..n], cal), events[n], cal, reservation))
  }

  function PercentsEmitted(s: System<Wallet>, events: seq<Event>, cal: Calendar, world: Id, month: int): seq<int> {
    if |events| == 0 then [] else
    var n := |events| - 1;
    Append(PercentsEmitted(s, events[..n], cal, world, month), PercentEmitted(Exec(s, events[..n], cal), events[n], cal, world, month))
  }

  /** The stored wallet and every held snapshot have only notified whole chains of thresholds. */
  ghost predicate AllSound(s: System<Wallet>) {
    AlertsSound(s.current.value) && forall c :: c in s.held ==> AlertsSound(s.held[c].value)
  }

  /** The move an event commits, if its save is accepted. */
  function Committed(s: System<Wallet>, e: Event, cal: Calendar): Option<Move> {
    if e.Commits? && Accepts(s, e.client) && Attempt(s.held[e.client].value, e.command, e.env, cal).Save?
    then Some(Move(e.command, e.env)) else None
  }

  lemma NextAllSound(s: System<Wallet>, e: Event, cal: Calendar)
    requires Coherent(s) && AllSound(s)
    ensures AllSound(Next(s, e, cal))
  {
    hide Attempt, AlertsSound;
    NextAtomic(s, e, cal);
    if e.Commits? && Accepts(s, e.client) {
      StepAlerts(s.current.value, Move(e.command, e.env), cal, "", "", 0);
      assert AlertsSound(Step(s.current.value, e.command, e.env, cal)) by {
        MovesSound(s.current.value, Move(e.command, e.env), cal);
      }
    }
  }

  lemma MovesSound(w: Wallet, m: Move, cal: Calendar)
    requires AlertsMove(w, m, cal, "", "", 0)
    ensures AlertsSound(Step(w, m.command, m.env, cal))
  {
  }

  /** No alert is handed out without its state being committed: an event that emits one has an accepted save,
      computed on the very wallet it replaces. */
  lemma EmissionIsCommitted(s: System<Wallet>, e: Event, cal: Calendar, reservation: Id, world: Id, month: int)
    requires Coherent(s) && AllSound(s)
    ensures MinuteEmitted(s, e, cal, reservation).Some? || PercentEmitted(s, e, cal, world, month).Some? ==>
              && Committed(s, e, cal).Some? && Answered(s, e, cal) == Some(s.current.value)
              && Next(s, e, cal).current.version == s.current.version + 1
    ensures MinuteEmitted(s, e, cal, reservation) ==
            if Committed(s, e, cal).Some? then MinuteAlert(s.current.value, Committed(s, e, cal).value, cal, reservation) else None
    ensures PercentEmitted(s, e, cal, world, month) ==
            if Committed(s, e, cal).Some? then PercentAlert(s.current.value, Committed(s, e, cal).value, cal, world, month) else None
  {
    hide Attempt, AlertsSound, MinuteAlert, PercentAlert;
    if e.Commits? && e.client in s.held {
      var w := s.held[e.client].value;
      if Attempt(w, e.command, e.env, cal).Return? {
        UnsavedIsSilent(w, Move(e.command, e.env), cal, reservation, world, month);
      }
    }
  }

  /** What is emitted over an interleaving is what the accepted commands announce one after another. */
  lemma {:induction false} EmittedByAccepted(s: System<Wallet>, events: seq<Event>, cal: Calendar, reservation: Id,
                                             world: Id, month: int)
    requires Coherent(s) && AllSound(s)
    ensures AllSound(Exec(s, events, cal))
    ensures MinutesEmitted(s, events, cal, reservation) == RunMinutes(s.current.value, Accepted(s, events, cal), cal, reservation)
    ensures PercentsEmitted(s, events, cal, world, month) == RunPercents(s.current.value, Accepted(s, events, cal), cal, world, month)
  {
    hide Attempt, AllSound, MinuteEmitted, PercentEmitted, MinuteAlert, PercentAlert, Next;
    if |events| > 0 {
      var n := |events| - 1;
      var before, e := Exec(s, events[..n], cal), events[n];
      EmittedByAccepted(s, events[..n], cal, reservation, world, month);
      Linearizable(s, events[..n], cal);
      EmissionIsCommitted(before, e, cal, reservation, world, month);
      NextAllSound(before, e, cal);
      var moves := Accepted(s, events[..n], cal);
      if Committed(before, e, cal).Some? {
        var all := Accepted(s, events, cal);
        assert all == moves + [Move(e.command, e.env)];
        assert all[..|all| - 1] == moves;
      } else {
        assert Accepted(s, events, cal) == moves + [] == moves;
      }
    }
  }

  /** Over any interleaving of any number of clients, stale snapshots and rejected saves included, the minute
      alerts handed out for a reservation strictly decrease and the budget percentages handed out for a World
      and month strictly increase: each threshold fires at most once, and it stays notified. */
  lemma InterleavedAlertsFireOnce(s: System<Wallet>, events: seq<Event>, cal: Calendar, reservation: Id, world: Id,
                                  month: int)
    requires Coherent(s) && AllSound(s)
    ensures var minutes, percents := MinutesEmitted(s, events, cal, reservation), PercentsEmitted(s, events, cal, world, month);
            var w := Exec(s, events, cal).current.value;
            && Decreasing(minutes) && Increasing(percents)
            && (forall t :: t in minutes ==> t in NotifiedMinutes(w, reservation))
            && (forall t :: t in percents ==> t in NotifiedPercents(w, world, month))
  {
    EmittedByAccepted(s, events, cal, reservation, world, month);
    Linearizable(s, events, cal);
    AlertsFireOnce(s.current.value, Accepted(s, events, cal), cal, reservation, world, month);
  }
}
