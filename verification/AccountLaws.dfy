/** Every account keeps an Owner, and the rest of the account's order, under any interleaving of clients
    that each work on the snapshot they last read. */
module AccountLaws {
  import opened Base
  import opened Optimistic
  import opened AccountModel

  function MemberId(): Membership -> Id { (m: Membership) => m.id }
  function MemberUser(): Membership -> Id { (m: Membership) => m.user }
  function InvitationId(): Invitation -> Id { (i: Invitation) => i.id }

  ghost predicate RoleExists(s: Snapshot, role: Role) {
    role.Custom? ==> exists r :: r in s.roles && r.id == role.id
  }

  ghost predicate MembersInOrder(s: Snapshot) {
    && Distinct(s.memberships, MemberId()) && Distinct(s.memberships, MemberUser())
    && (forall m, a :: m in s.memberships && a in m.assignments ==> RoleExists(s, a.role))
  }

  /** Membership roles in the single-role form; accounts from before it may hold more. */
  ghost predicate SingleRoles(s: Snapshot) { forall m :: m in s.memberships ==> |m.assignments| <= 1 }

  ghost predicate InvitationInOrder(s: Snapshot, i: Invitation) {
    && i.role != Predefined(Owner) && RoleExists(s, i.role)
    && (i.access.Play? ==> i.role == Predefined(Player))
  }

  ghost predicate InvitationsInOrder(s: Snapshot) {
    Distinct(s.invitations, InvitationId()) && forall i :: i in s.invitations ==> InvitationInOrder(s, i)
  }

  ghost predicate Governed(s: Snapshot) { OwnerCount(s) >= 1 && MembersInOrder(s) && InvitationsInOrder(s) }

  ghost predicate Fresh(s: Snapshot, env: Env) {
    && (forall m :: m in s.memberships ==> m.id != env.id)
    && (forall i :: i in s.invitations ==> i.id != env.id)
    && (forall i, n :: i in s.invitations ==> i.id != env.ids(n))
    && (forall m, n :: env.ids(m) == env.ids(n) ==> m == n)
  }

  /** What no command undoes: roles and activity only grow, and an accepted invitation stays accepted. */
  ghost predicate Evolves(s: Snapshot, t: Snapshot) {
    && s.roles <= t.roles && s.activity <= t.activity && |s.invitations| <= |t.invitations|
    && (forall n :: 0 <= n < |s.invitations| ==>
          t.invitations[n].id == s.invitations[n].id && (s.invitations[n].status.Accepted? ==> t.invitations[n] == s.invitations[n]))
    && t.account.id == s.account.id
  }

  // ----- members replaced and removed

  lemma ReplaceMember(ms: seq<Membership>, m: Membership, m': Membership)
    requires Distinct(ms, MemberId()) && Distinct(ms, MemberUser()) && m in ms && m'.id == m.id && m'.user == m.user
    ensures var ts := Substitute(ms, MemberIs(m.id), m');
            && Distinct(ts, MemberId()) && Distinct(ts, MemberUser())
            && Sum(ts, OwnerBit()) == Sum(ms, OwnerBit()) - OwnerBit()(m) + OwnerBit()(m')
            && forall x :: x in ts ==> x == m' || x in ms
  {
    var i :| 0 <= i < |ms| && ms[i] == m;
    assert forall j :: 0 <= j < |ms| ==> (MemberId()(ms[j]) == MemberId()(ms[i]) <==> j == i);
    SubstituteOne(ms, MemberIs(m.id), i, m');
    DistinctUpdate(ms, i, m', MemberId());
    DistinctUpdate(ms, i, m', MemberUser());
    SumUpdate(ms, i, m', OwnerBit());
  }

  lemma WithoutMember(ms: seq<Membership>, m: Membership)
    requires Distinct(ms, MemberId()) && Distinct(ms, MemberUser()) && m in ms
    ensures var ts := Filter(ms, OtherMember(m.id));
            && Distinct(ts, MemberId()) && Distinct(ts, MemberUser())
            && Sum(ts, OwnerBit()) == Sum(ms, OwnerBit()) - OwnerBit()(m)
  {
    var i :| 0 <= i < |ms| && ms[i] == m;
    assert forall j :: 0 <= j < |ms| ==> (MemberId()(ms[j]) == MemberId()(ms[i]) <==> j == i);
    FilterDistinct(ms, OtherMember(m.id), MemberId());
    FilterDistinct(ms, OtherMember(m.id), MemberUser());
    FilterOneOut(ms, i, OtherMember(m.id), OwnerBit());
  }

  /** A single assignment is the effective one. */
  lemma OneAssignment(a: Assignment)
    ensures Effective([a]) == Some(a) && Effective([]) == None
  {
    assert NewestOwner([a][..0]) == None;
  }

  // ----- one command

  ghost predicate Good(s: Snapshot, o: Outcome) {
    o.Save? ==> Governed(o.next) && Evolves(s, o.next) && (SingleRoles(s) ==> SingleRoles(o.next))
  }

  lemma AssignGood(s: Snapshot, g: Grant, member: Id, role: Role, world: Option<Id>, env: Env)
    requires Governed(s)
    ensures Good(s, DoAssignRole(s, g, member, role, world, env))
  {
    hide Sum, NewestOwner, Distinct;
    var o := DoAssignRole(s, g, member, role, world, env);
    if o.Save? {
      var m, a := Find(s.memberships, MemberIs(member)).value, Assignment(env.id, world, role);
      ReplaceMember(s.memberships, m, m.(assignments := [a]));
      OneAssignment(a);
      assert RoleExists(s, role);
    }
  }

  lemma RemoveAssignmentGood(s: Snapshot, g: Grant, member: Id, assignment: Id, env: Env)
    requires Governed(s)
    ensures Good(s, DoRemoveAssignment(s, g, member, assignment, env))
  {
    var o := DoRemoveAssignment(s, g, member, assignment, env);
    if o.Save? {
      var m := Find(s.memberships, MemberIs(member)).value;
      ReplaceMember(s.memberships, m, m.(assignments := []));
      assert Effective([]) == None by { OneAssignment(Assignment("", None, Predefined(Player))); }
    }
  }

  lemma RemoveMemberGood(s: Snapshot, g: Grant, member: Id, env: Env)
    requires Governed(s)
    ensures Good(s, DoRemoveMember(s, g, member, env))
  {
    hide Sum, Filter;
    if DoRemoveMember(s, g, member, env).Save? {
      WithoutMember(s.memberships, Find(s.memberships, MemberIs(member)).value);
    }
  }

  lemma AcceptGood(s: Snapshot, invitation: Id, user: Id, env: Env)
    requires Governed(s) && Fresh(s, env)
    ensures Good(s, DoAccept(s, invitation, user, env))
    ensures DoAccept(s, invitation, user, env).Save? ==>
              var t := DoAccept(s, invitation, user, env).next;
              && (exists n :: 0 <= n < |s.invitations| && s.invitations[n].id == invitation && s.invitations[n].status.Pending?
                              && t.invitations[n].status.Accepted?)
              && |t.memberships| == |s.memberships| + 1 && t.memberships[|s.memberships|].user == user
              && !IsOwner(t.memberships[|s.memberships|])
  {
    hide Sum, NewestOwner, Effective, InvitationsInOrder, MembersInOrder;
    var o := DoAccept(s, invitation, user, env);
    if o.Save? {
      var i := Find(s.invitations, InvitationIs(invitation)).value;
      var m := Membership(env.id, user, [Assignment(env.id, i.world, i.role)]);
      MarkAccepted(s, i, o.next.memberships);
      OneAssignment(m.assignments[0]);
      JoinGood(s, i, m, o.next.invitations);
      SumAppend(s.memberships, m, OwnerBit());
    }
  }

  /** One pending invitation marked accepted. */
  lemma MarkAccepted(s: Snapshot, i: Invitation, members: seq<Membership>)
    requires InvitationsInOrder(s) && i in s.invitations && i.status.Pending?
    ensures var t := s.(invitations := Substitute(s.invitations, InvitationIs(i.id), i.(status := Accepted)), memberships := members);
            && InvitationsInOrder(t) && |t.invitations| == |s.invitations|
            && (exists n :: 0 <= n < |s.invitations| && s.invitations[n] == i && t.invitations[n].status.Accepted?)
            && (forall n :: 0 <= n < |s.invitations| && s.invitations[n] != i ==> t.invitations[n] == s.invitations[n])
            && (forall n :: 0 <= n < |s.invitations| ==> t.invitations[n].id == s.invitations[n].id)
    ensures i.role != Predefined(Owner) && RoleExists(s, i.role)
  {
    var n :| 0 <= n < |s.invitations| && s.invitations[n] == i;
    assert forall k :: 0 <= k < |s.invitations| ==> (InvitationId()(s.invitations[k]) == InvitationId()(s.invitations[n]) <==> k == n);
    SubstituteOne(s.invitations, InvitationIs(i.id), n, i.(status := Accepted));
    DistinctUpdate(s.invitations, n, i.(status := Accepted), InvitationId());
    assert InvitationInOrder(s, i);
    var t := s.(invitations := Substitute(s.invitations, InvitationIs(i.id), i.(status := Accepted)), memberships := members);
    assert t.invitations[n].status.Accepted? && t.roles == s.roles;
    assert forall role :: RoleExists(s, role) ==> RoleExists(t, role);
    forall x | x in t.invitations ensures InvitationInOrder(t, x) {
      assert x in s.invitations || x == i.(status := Accepted);
      assert InvitationInOrder(s, if x in s.invitations then x else i);
    }
  }

  /** One new member with one existing role. */
  lemma JoinGood(s: Snapshot, i: Invitation, m: Membership, invitations: seq<Invitation>)
    requires MembersInOrder(s) && RoleExists(s, i.role) && |m.assignments| == 1 && m.assignments[0].role == i.role
    requires forall x :: x in s.memberships ==> x.id != m.id && x.user != m.user
    ensures var t := s.(memberships := s.memberships + [m], invitations := invitations);
            MembersInOrder(t) && (SingleRoles(s) ==> SingleRoles(t))
  {
    DistinctAppend(s.memberships, m, MemberId());
    DistinctAppend(s.memberships, m, MemberUser());
  }

  lemma InviteGood(s: Snapshot, g: Grant, users: seq<Id>, env: Env)
    requires Governed(s) && Fresh(s, env)
    ensures Good(s, DoInvite(s, g, users, env))
  {
    if DoInvite(s, g, users, env).Save? {
      var t := DoInvite(s, g, users, env).next;
      forall m, n | 0 <= m < |t.invitations| && 0 <= n < |t.invitations| &&
                   InvitationId()(t.invitations[m]) == InvitationId()(t.invitations[n])
        ensures m == n
      {
        var k := |s.invitations|;
        assert m < k ==> s.invitations[m] in s.invitations && InvitationId()(s.invitations[m]) == InvitationId()(t.invitations[m]);
        assert n < k ==> s.invitations[n] in s.invitations && InvitationId()(s.invitations[n]) == InvitationId()(t.invitations[n]);
        assert m >= k ==> t.invitations[m].id == env.ids(m - k);
        assert n >= k ==> t.invitations[n].id == env.ids(n - k);
      }
    }
  }

  lemma OtherGood(s: Snapshot, c: Command, env: Env)
    requires Governed(s) && Fresh(s, env)
    requires c.CreateRole? || c.CreateLink? || c.LinkGuild? || c.SetChannel? || c.RecordRecovery?
    ensures Good(s, Attempt(s, c, env))
  {
    var o := Attempt(s, c, env);
    if o.Save? {
      if c.CreateRole? {
        assert forall role :: RoleExists(s, role) ==> RoleExists(o.next, role);
      } else if c.CreateLink? {
        var i := o.next.invitations[|s.invitations|];
        DistinctAppend(s.invitations, i, InvitationId());
        assert RoleExists(s, i.role);
      }
    }
  }

  /** Every command keeps an Owner and the account's order, and undoes nothing that is final. */
  lemma AttemptGood(s: Snapshot, c: Command, env: Env)
    requires Governed(s) && Fresh(s, env)
    ensures Good(s, Attempt(s, c, env))
  {
    hide Governed, Good, DoAssignRole, DoRemoveAssignment, DoInvite, DoAccept, DoRemoveMember;
    match c
    case AssignRole(g, member, role, world) => AssignGood(s, g, member, role, world, env);
    case RemoveAssignment(g, member, assignment) => RemoveAssignmentGood(s, g, member, assignment, env);
    case Invite(g, users) => InviteGood(s, g, users, env);
    case Accept(invitation, user) => AcceptGood(s, invitation, user, env);
    case RemoveMember(g, member) => RemoveMemberGood(s, g, member, env);
    case _ => OtherGood(s, c, env);
  }

  /** Permission lookups never fail in a governed account. */
  lemma AuthorizeNeverFails(s: Snapshot, user: Id, p: Permission, world: Option<Id>)
    requires Governed(s)
    ensures Authorize(s, user, p, world).Some?
  {
    var m := Find(s.memberships, MemberFor(user));
    if m.Some? {
      EffectiveIsOne(m.value.assignments);
      if Effective(m.value.assignments).Some? {
        assert RoleExists(s, Effective(m.value.assignments).value.role);
      }
    }
  }

  lemma {:induction false} EffectiveIsOne(assignments: seq<Assignment>)
    ensures Effective(assignments).Some? ==> Effective(assignments).value in assignments
    ensures NewestOwner(assignments).Some? ==>
              NewestOwner(assignments).value in assignments && AccountOwner(NewestOwner(assignments).value)
    ensures NewestOwner(assignments).None? ==> forall a :: a in assignments ==> !AccountOwner(a)
  {
    if |assignments| > 0 {
      EffectiveIsOne(assignments[..|assignments| - 1]);
      assert assignments == assignments[..|assignments| - 1] + [assignments[|assignments| - 1]];
    }
  }

  /** In every governed account somebody may do everything, in every World. */
  lemma SomebodyMayEverything(s: Snapshot) returns (m: Membership)
    requires Governed(s)
    ensures m in s.memberships && IsOwner(m)
    ensures forall p, world :: Authorize(s, m.user, p, world) == Some(true)
  {
    if forall x :: x in s.memberships ==> !IsOwner(x) {
      SumZero(s.memberships, OwnerBit());
      assert false;
    }
    m :| m in s.memberships && IsOwner(m);
    var found := Find(s.memberships, MemberFor(m.user)).value;
    assert MemberUser()(found) == MemberUser()(m);
  }

  lemma OneOwner(m: Membership)
    requires IsOwner(m)
    ensures Sum([m], OwnerBit()) == 1
  {
    hide IsOwner;
    assert [m] == [] + [m];
    SumAppend([], m, OwnerBit());
  }

  lemma NewIsGoverned(account: Account, owner: Id, member: Id, assignment: Id)
    ensures var s := NewSnapshot(account, owner, member, assignment); Governed(s) && SingleRoles(s)
  {
    var s := NewSnapshot(account, owner, member, assignment);
    var m := s.memberships[0];
    OneAssignment(m.assignments[0]);
    OneOwner(m);
    hide Effective, Sum, IsOwner;
    assert s.memberships == [m] && s.invitations == [];
    assert OwnerCount(s) == 1 && MembersInOrder(s) && InvitationsInOrder(s);
  }

  // ----- any number of clients

  datatype Event = Reads(client: nat) | Commits(client: nat, command: Command, env: Env)

  function Next(s: System<Snapshot>, e: Event): System<Snapshot> {
    match e
    case Reads(c) => Read(s, c)
    case Commits(c, command, env) =>
      if c !in s.held then s else
      match Attempt(s.held[c].value, command, env)
      case Save(next) => Optimistic.Save(s, c, next)
      case Return => s
      case Raise(_) => s
  }

  function Exec(s: System<Snapshot>, events: seq<Event>): System<Snapshot> {
    if |events| == 0 then s else Next(Exec(s, events[..|events| - 1]), events[|events| - 1])
  }

  predicate Admits(s: System<Snapshot>, e: Event) {
    e.Commits? && e.command.Accept? && Accepts(s, e.client) && Attempt(s.held[e.client].value, e.command, e.env).Save?
  }

  /** The invitations whose acceptance was committed, in order: each made one membership. */
  function Admitted(s: System<Snapshot>, events: seq<Event>): seq<Id> {
    if |events| == 0 then [] else
    var before := Exec(s, events[..|events| - 1]);
    var e := events[|events| - 1];
    Admitted(s, events[..|events| - 1]) + if Admits(before, e) then [e.command.invitation] else []
  }

  ghost predicate FreshRun(s: System<Snapshot>, events: seq<Event>) {
    forall i :: 0 <= i < |events| && events[i].Commits? ==>
      Fresh(Exec(s, events[..i]).current.value, events[i].env)
  }

  ghost predicate AcceptedIn(s: Snapshot, id: Id) {
    exists n :: 0 <= n < |s.invitations| && s.invitations[n].id == id && s.invitations[n].status.Accepted?
  }

  lemma AcceptedStays(s: Snapshot, t: Snapshot, id: Id)
    requires Evolves(s, t) && AcceptedIn(s, id)
    ensures AcceptedIn(t, id)
  {
    var n :| 0 <= n < |s.invitations| && s.invitations[n].id == id && s.invitations[n].status.Accepted?;
    assert t.invitations[n] == s.invitations[n];
  }

  lemma StepGood(s: System<Snapshot>, e: Event)
    requires Coherent(s) && Governed(s.current.value) && (e.Commits? ==> Fresh(s.current.value, e.env))
    ensures var t := Next(s, e);
            && Coherent(t) && Governed(t.current.value) && Evolves(s.current.value, t.current.value)
            && (SingleRoles(s.current.value) ==> SingleRoles(t.current.value))
            && (Admits(s, e) ==>
                  !AcceptedIn(s.current.value, e.command.invitation) && AcceptedIn(t.current.value, e.command.invitation))
  {
    hide Governed, Attempt, SingleRoles;
    if e.Commits? && e.client in s.held {
      var o := Attempt(s.held[e.client].value, e.command, e.env);
      if o.Save? {
        SaveCoherent(s, e.client, o.next);
        if Accepts(s, e.client) {
          AttemptGood(s.current.value, e.command, e.env);
          if e.command.Accept? {
            AdmissionIsFirst(s.current.value, e.command.invitation, e.command.user, e.env);
          }
        }
      }
    }
  }

  lemma AdmissionIsFirst(s: Snapshot, invitation: Id, user: Id, env: Env)
    requires Governed(s) && Fresh(s, env) && Attempt(s, Accept(invitation, user), env).Save?
    ensures !AcceptedIn(s, invitation) && AcceptedIn(Attempt(s, Accept(invitation, user), env).next, invitation)
  {
    AcceptGood(s, invitation, user, env);
    var t := Attempt(s, Accept(invitation, user), env).next;
    var n :| 0 <= n < |s.invitations| && s.invitations[n].id == invitation
             && s.invitations[n].status.Pending? && t.invitations[n].status.Accepted?;
    assert t.invitations[n].id == invitation;
    assert forall k :: 0 <= k < |s.invitations| && InvitationId()(s.invitations[k]) == InvitationId()(s.invitations[n]) ==> k == n;
  }

  /** In every state any interleaving can reach, stale readers included: an account-wide Owner, one
      membership per user, every referenced role in place, no invitation to ownership, single roles where
      there were single roles; and no invitation was ever accepted twice. */
  lemma {:induction false} InterleavingsGoverned(s: System<Snapshot>, events: seq<Event>)
    requires Coherent(s) && Governed(s.current.value) && FreshRun(s, events)
    ensures var t := Exec(s, events);
            && Coherent(t) && Governed(t.current.value) && Evolves(s.current.value, t.current.value)
            && (SingleRoles(s.current.value) ==> SingleRoles(t.current.value))
    ensures forall id :: id in Admitted(s, events) ==> AcceptedIn(Exec(s, events).current.value, id)
    ensures forall i, j :: 0 <= i < j < |Admitted(s, events)| ==> Admitted(s, events)[i] != Admitted(s, events)[j]
  {
    hide Governed, Next, SingleRoles, AcceptedIn, Fresh, Admits;
    if |events| > 0 {
      var n := |events| - 1;
      forall i | 0 <= i < n && events[..n][i].Commits? ensures Fresh(Exec(s, events[..n][..i]).current.value, events[..n][i].env) {
        assert events[..n][..i] == events[..i];
      }
      InterleavingsGoverned(s, events[..n]);
      var before := Exec(s, events[..n]);
      assert events[..n] == events[..|events| - 1];
      assert events[n].Commits? ==> Fresh(before.current.value, events[n].env);
      StepGood(before, events[n]);
      EvolvesFurther(s.current.value, before.current.value, Exec(s, events).current.value);
      forall id | id in Admitted(s, events[..n]) ensures AcceptedIn(Exec(s, events).current.value, id) {
        AcceptedStays(before.current.value, Exec(s, events).current.value, id);
      }
    }
  }

  lemma EvolvesFurther(s: Snapshot, t: Snapshot, u: Snapshot)
    requires Evolves(s, t) && Evolves(t, u)
    ensures Evolves(s, u)
  {
  }
}
