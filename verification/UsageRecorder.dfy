/** The recorder that closes a runtime's billing session for the operation worker. */
module UsageRecorder {
  import opened Base
  import W = Wallet
  import opened Usages
  import M = WorldModel
  import opened BillingService
  import opened Optimistic

  function UsageKeyFor(operation: Id): string { "operation:" + operation + ":runtime-usage" }
  function GuaranteeKeyFor(operation: Id): string { "operation:" + operation + ":wake-guarantee" }

  /** The billing session an operation carries, once its runtime started. */
  function SessionOf(o: M.Operation): Option<Session> {
    if o.session.None? || o.startedAt.None? then None
    else Some(Session(o.session.value.quote, o.session.value.reservation, o.startedAt.value, UsageKeyFor(o.id), GuaranteeKeyFor(o.id)))
  }

  /** Each operation has a usage key of its own. */
  lemma UsageKeysDiffer(a: Id, b: Id)
    requires UsageKeyFor(a) == UsageKeyFor(b)
    ensures a == b
  {
    var pre, post := "operation:", ":runtime-usage";
    assert UsageKeyFor(a)[|pre|..|UsageKeyFor(a)| - |post|] == a;
    assert UsageKeyFor(b)[|pre|..|UsageKeyFor(b)| - |post|] == b;
  }

  lemma Captures(s: Versioned<W.Wallet>, t: Session, at: Try, cal: W.Calendar)
    ensures var c := W.CaptureUsage(t.quote, t.reservation, t.startedAt, at.releasedAt, t.usageKey);
            var o := W.DoCaptureUsage(s.value, t.quote, t.reservation, t.startedAt, at.releasedAt, t.usageKey, at.env);
            W.Attempt(s.value, c, at.env, cal) == o && Commit(s, W.Move(c, at.env), cal).value == W.After(s.value, o)
  {
    hide W.DoCaptureUsage;
  }

  lemma Guaranteed(s: Versioned<W.Wallet>, usage: Id, t: Session, at: Try, cal: W.Calendar)
    ensures Commit(s, W.Move(W.ApplyGuarantee(usage, false, t.guaranteeKey), at.guaranteeEnv), cal).value
            == W.After(s.value, W.DoGuarantee(s.value, usage, false, t.guaranteeKey, at.guaranteeEnv))
  {
    hide W.DoGuarantee;
  }

  class BillingRuntimeUsageRecorder {
    const billing: Billing

    constructor (billing: Billing)
      ensures this.billing == billing
    {
      this.billing := billing;
    }

    method Protect(w: M.World, observedAt: Time, sleepSeconds: int, interval: int, env: W.Env, cal: W.Calendar)
      returns (answer: Option<Answer>)
      modifies billing.repository
      ensures var before := old(billing.repository.Current(w.account));
              if w.session.None? || w.startedAt.None? then
                answer == None && billing.repository.wallets == old(billing.repository.wallets)
              else
                var c := W.Protect(w.session.value.quote, w.session.value.reservation, w.startedAt.value,
                                   observedAt, sleepSeconds, interval);
                && billing.repository.Current(w.account) == Commit(before, W.Move(c, env), cal)
                && answer == Some(AnswerOf(W.Attempt(before.value, c, env, cal)))
    {
      if w.session.None? || w.startedAt.None? {
        return None;
      }
      var decision := billing.Call(
        w.account,
        W.Protect(w.session.value.quote, w.session.value.reservation, w.startedAt.value, observedAt, sleepSeconds, interval),
        env, cal);
      answer := Some(decision);
    }

    method Cancel(o: M.Operation, env: W.Env, cal: W.Calendar) returns (answer: Option<Answer>)
      modifies billing.repository
      ensures var before := old(billing.repository.Current(o.account));
              if o.session.None? then answer == None && billing.repository.wallets == old(billing.repository.wallets)
              else
                var c := W.Release(o.session.value.reservation);
                && billing.repository.Current(o.account) == Commit(before, W.Move(c, env), cal)
                && answer == Some(AnswerOf(W.Attempt(before.value, c, env, cal)))
    {
      if o.session.None? {
        return None;
      }
      var released := billing.Call(o.account, W.Release(o.session.value.reservation), env, cal);
      answer := Some(released);
    }

    /** record_release: capture the usage, then guarantee it if the World never came online. A crash may
        strike between the two. */
    method RecordRelease(o: M.Operation, t: Try, reachedOnline: bool, cal: W.Calendar) returns (answer: Answer)
      modifies billing.repository
      ensures var before, after := old(billing.repository.Current(o.account)).value, billing.repository.Current(o.account).value;
              match SessionOf(o)
              case None => answer == Failed(W.Incomplete) && billing.repository.wallets == old(billing.repository.wallets)
              case Some(s) =>
                var captured := W.DoCaptureUsage(before, s.quote, s.reservation, s.startedAt, t.releasedAt, s.usageKey, t.env);
                && answer == AnswerOf(captured)
                && after == Record(before, s, t, reachedOnline)
      ensures billing.repository.wallets - {o.account} == old(billing.repository.wallets) - {o.account}
    {
      if o.session.None? || o.startedAt.None? {
        return Failed(W.Incomplete);
      }
      hide W.DoCaptureUsage, W.DoGuarantee, W.Attempt, Commit;
      ghost var s := SessionOf(o).value;
      Captures(billing.repository.Current(o.account), s, t, cal);
      var usage := billing.Call(
        o.account,
        W.CaptureUsage(o.session.value.quote, o.session.value.reservation, o.startedAt.value, t.releasedAt, UsageKeyFor(o.id)),
        t.env, cal);
      if usage.Answered? && usage.reply.Used? && !reachedOnline && !t.crashes {
        Guaranteed(billing.repository.Current(o.account), usage.reply.usage.id, s, t, cal);
        var guarantee := billing.Call(
          o.account, W.ApplyGuarantee(usage.reply.usage.id, false, GuaranteeKeyFor(o.id)), t.guaranteeEnv, cal);
      }
      answer := usage;
    }

    /** The closing step of a failed wake, retried after every crash or lost commit. */
    method CloseFailedWake(o: M.Operation, tries: seq<Try>, cal: W.Calendar)
      requires SessionOf(o).Some?
      modifies billing.repository
      ensures billing.repository.Current(o.account).value ==
              CloseAll(old(billing.repository.Current(o.account)).value, SessionOf(o).value, tries)
    {
      hide Close;
      for n := 0 to |tries|
        invariant billing.repository.Current(o.account).value ==
                  CloseAll(old(billing.repository.Current(o.account)).value, SessionOf(o).value, tries[..n])
      {
        assert tries[..n + 1][..n] == tries[..n];
        var answer := RecordRelease(o, tries[n], false, cal);
      }
      assert tries[..|tries|] == tries;
    }
  }
}
