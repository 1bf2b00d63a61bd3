/** What the account policy grants, role by role, and when each command takes effect and what it leaves,
    told from the records alone. */
module AccountDecisions {
  import opened Base
  import opened AccountModel
  import opened AccountLaws

  // ----- permissions

  predicate PlayerMay(p: Permission) { p.ViewWorld? || p.WakeWorld? || p.SleepEmptyWorld? }

  predicate ManagerMay(p: Permission) {
    || PlayerMay(p) || p.EditWorld? || p.RestartWorld? || p.UpdateWorld? || p.ForceSleepWorld? || p.ViewLogs?
    || p.CreateBackup? || p.RestoreBackup?
  }

  /** The first role of the snapshot with this identifier. */
  ghost predicate FirstRole(s: Snapshot, id: Id, n: int) {
    0 <= n < |s.roles| && s.roles[n].id == id && forall k :: 0 <= k < n ==> s.roles[k].id != id
  }

  ghost predicate Allows(s: Snapshot, role: Role, p: Permission) {
    match role
    case Predefined(Owner) => true
    case Predefined(Manager) => ManagerMay(p)
    case Predefined(Player) => PlayerMay(p)
    case Custom(id) => exists n :: FirstRole(s, id, n) && p in s.roles[n].permissions
  }

  predicate WholeAccountOwner(a: Assignment) { a.role == Predefined(Owner) && a.world.None? }

  ghost predicate OwnsAccount(m: Membership) { exists a :: a in m.assignments && WholeAccountOwner(a) }

  ghost predicate May(s: Snapshot, m: Membership, p: Permission, world: Option<Id>) {
    || OwnsAccount(m)
    || (&& |m.assignments| > 0
        && var last := m.assignments[|m.assignments| - 1];
           (last.world.None? || last.world == world) && Allows(s, last.role, p))
  }

  lemma RoleAllows(s: Snapshot, role: Role, p: Permission)
    requires RoleExists(s, role)
    ensures role.Predefined? ==> (RoleGrants(role.role, p) <==> Allows(s, role, p))
    ensures role.Custom? ==>
              var r := Find(s.roles, RoleIs(role.id));
              r.Some? && (p in r.value.permissions <==> Allows(s, role, p))
  {
    if role.Custom? {
      var n := FirstIndex(s.roles, RoleIs(role.id));
      assert FirstRole(s, role.id, n);
    }
  }

  lemma OwnsExactly(m: Membership)
    ensures IsOwner(m) <==> OwnsAccount(m)
    ensures HoldsOwnerRole(m) <==> OwnerOfSome(m)
  {
    EffectiveIsOne(m.assignments);
  }

  /** A member may do exactly this: everything as an Owner of the whole account; otherwise, in the scope of the
      newest assignment alone, what its role allows. Somebody who is no member may do nothing. */
  lemma GrantedExactly(s: Snapshot, m: Membership, p: Permission, world: Option<Id>)
    requires Governed(s) && m in s.memberships
    ensures Authorize(s, m.user, p, world) == Some(May(s, m, p, world))
  {
    var found := Find(s.memberships, MemberFor(m.user)).value;
    assert MemberUser()(found) == MemberUser()(m);
    EffectiveIsOne(m.assignments);
    if Effective(m.assignments).Some? {
      var a := Effective(m.assignments).value;
      RoleAllows(s, a.role, p);
    }
  }

  /** The same for one assignment, with every set of permissions written out. */
  lemma SingleRoleGrants(s: Snapshot, m: Membership, a: Assignment, p: Permission, world: Option<Id>)
    requires Governed(s) && m in s.memberships && m.assignments == [a]
    ensures a.world.Some? && a.world != world ==> Authorize(s, m.user, p, world) == Some(false)
    ensures a.world.None? || a.world == world ==>
              Authorize(s, m.user, p, world) ==
              Some(match a.role
                   case Predefined(Owner) => true
                   case Predefined(Manager) =>
                     p in {ViewWorld, WakeWorld, SleepEmptyWorld, EditWorld, RestartWorld, UpdateWorld, ForceSleepWorld, ViewLogs,
                           CreateBackup, RestoreBackup}
                   case Predefined(Player) => p in {ViewWorld, WakeWorld, SleepEmptyWorld}
                   case Custom(id) => exists n :: FirstRole(s, id, n) && p in s.roles[n].permissions)
  {
    GrantedExactly(s, m, p, world);
    if OwnsAccount(m) {
      var x :| x in m.assignments && WholeAccountOwner(x);
      assert x == a;
    }
  }

  lemma StrangersMayNothing(s: Snapshot, user: Id, p: Permission, world: Option<Id>)
    ensures Authorize(s, user, p, world) == Some(false) || exists m :: m in s.memberships && m.user == user
  {
    assert forall m :: m in s.memberships && m.user == user ==> MemberFor(user)(m);
  }

  // ----- Owners

  /** Two members own the whole account. */
  ghost predicate TwoOwners(s: Snapshot) {
    exists i, j :: 0 <= i < j < |s.memberships| && OwnsAccount(s.memberships[i]) && OwnsAccount(s.memberships[j])
  }

  lemma {:induction false} SomeOwner(ms: seq<Membership>)
    ensures Sum(ms, OwnerBit()) >= 0
    ensures Sum(ms, OwnerBit()) >= 1 <==> exists i :: 0 <= i < |ms| && OwnsAccount(ms[i])
  {
    if |ms| > 0 {
      var n := |ms| - 1;
      SomeOwner(ms[..n]);
      OwnsExactly(ms[n]);
      hide OwnsAccount, IsOwner;
      assert Sum(ms, OwnerBit()) == Sum(ms[..n], OwnerBit()) + OwnerBit()(ms[n]);
      if i :| 0 <= i < n && OwnsAccount(ms[..n][i]) {
        assert OwnsAccount(ms[i]);
      }
    }
  }

  lemma {:induction false} OwnersCounted(ms: seq<Membership>)
    ensures Sum(ms, OwnerBit()) >= 2 <==> exists i, j :: 0 <= i < j < |ms| && OwnsAccount(ms[i]) && OwnsAccount(ms[j])
  {
    if |ms| > 0 {
      var n := |ms| - 1;
      OwnersCounted(ms[..n]);
      SomeOwner(ms[..n]);
      OwnsExactly(ms[n]);
      hide OwnsAccount, IsOwner;
      assert Sum(ms, OwnerBit()) == Sum(ms[..n], OwnerBit()) + OwnerBit()(ms[n]);
      if i, j :| 0 <= i < j < n && OwnsAccount(ms[..n][i]) && OwnsAccount(ms[..n][j]) {
        assert OwnsAccount(ms[i]) && OwnsAccount(ms[j]);
      }
      if i :| 0 <= i < n && OwnsAccount(ms[..n][i]) {
        assert OwnsAccount(ms[i]);
      }
    }
  }

  // ----- commands

  ghost predicate HasRole(s: Snapshot, id: Id) { exists r :: r in s.roles && r.id == id }

  /** The invitation may be accepted by this user now. */
  ghost predicate Open(s: Snapshot, i: Invitation, user: Id, now: Time) {
    && i.status == Pending && (i.invited == None || i.invited == Some(user))
    && (i.expiresAt == None || now < i.expiresAt.value)
    && forall m :: m in s.memberships ==> m.user != user
  }

  /** The newest assignment counts, or the newest that owns the account where there is one. */
  ghost predicate Counts(m: Membership, n: int) {
    && 0 <= n < |m.assignments|
    && (forall k :: n < k < |m.assignments| ==> !WholeAccountOwner(m.assignments[k]))
    && (WholeAccountOwner(m.assignments[n]) || (n == |m.assignments| - 1 && !OwnsAccount(m)))
  }

  ghost predicate Member(s: Snapshot, n: int, id: Id) { 0 <= n < |s.memberships| && s.memberships[n].id == id }

  /** The member owns the whole account, or its newest assignment is an Owner's, of whatever scope. */
  ghost predicate OwnerOfSome(m: Membership) {
    OwnsAccount(m) || (|m.assignments| > 0 && m.assignments[|m.assignments| - 1].role == Predefined(Owner))
  }

  /** When a command takes effect. */
  ghost predicate Takes(s: Snapshot, c: Command, now: Time) {
    match c
    case CreateRole(g, _, _) => g.permitted && g.confirmed
    case AssignRole(g, id, role, world) =>
      && g.permitted && g.confirmed && (role.Custom? ==> HasRole(s, role.id))
      && exists n :: Member(s, n, id)
                     && (OwnsAccount(s.memberships[n]) ==> (role == Predefined(Owner) && world == None) || TwoOwners(s))
    case RemoveAssignment(g, id, assignment) =>
      && g.permitted && g.confirmed
      && exists n, k :: Member(s, n, id) && Removable(s, s.memberships[n], k, assignment)
    case Invite(g, users) => g.permitted && forall m :: m in s.memberships ==> m.user !in users
    case CreateLink(g, predefined, custom, _, expiresIn) =>
      && g.permitted && 0 < expiresIn <= 2_592_000_000_000
      && ((predefined == Some(Player) && custom == None) || (predefined == Some(Manager) && custom == None && g.mayAssign)
          || (predefined == None && custom.Some? && g.mayAssign && HasRole(s, custom.value)))
    case Accept(id, user) => exists i :: i in s.invitations && i.id == id && Open(s, i, user, now)
    case RemoveMember(g, id) =>
      && g.permitted && g.confirmed
      && exists n :: Member(s, n, id)
                     && (TwoOwners(s) || !OwnerOfSome(s.memberships[n]))
    case LinkGuild(g, guild, wellFormed, elsewhere) => wellFormed && g.permitted && !elsewhere && s.account.guild != Some(guild)
    case SetChannel(g, channel) => g.permitted && channel != "" && s.account.channel != Some(channel)
    case RecordRecovery(g, _) => g.permitted
  }

  /** The assignment may be taken away: it is the one that counts, and not that of the only Owner. */
  ghost predicate Removable(s: Snapshot, m: Membership, k: int, assignment: Id) {
    && 0 <= k < |m.assignments| && m.assignments[k].id == assignment
    && (forall j :: 0 <= j < k ==> m.assignments[j].id != assignment)
    && (exists n :: Counts(m, n) && m.assignments[n] == m.assignments[k])
    && (WholeAccountOwner(m.assignments[k]) ==> TwoOwners(s))
  }

  /** Member `n` of the list has these assignments now, and everybody else is as before. */
  ghost predicate Reassigned(before: seq<Membership>, after: seq<Membership>, id: Id, assignments: seq<Assignment>) {
    && |after| == |before|
    && forall n :: 0 <= n < |before| ==>
         after[n] == if before[n].id == id then Membership(id, before[n].user, assignments) else before[n]
  }

  /** The member with this identifier is gone from the list, and everybody else is there in the same order. */
  ghost predicate Without(before: seq<Membership>, after: seq<Membership>, id: Id) {
    exists n :: 0 <= n < |before| && before[n].id == id && after == before[..n] + before[n + 1..]
  }

  /** What a command that takes effect leaves. */
  ghost predicate Leaves(s: Snapshot, c: Command, env: Env, t: Snapshot) {
    match c
    case CreateRole(_, name, permissions) =>
      && t.roles == s.roles + [CustomRole(env.id, name, permissions)]
      && (t.account, t.memberships, t.invitations, t.activity) == (s.account, s.memberships, s.invitations, s.activity)
    case AssignRole(_, id, role, world) =>
      && Reassigned(s.memberships, t.memberships, id, [Assignment(env.id, world, role)])
      && (t.account, t.roles, t.invitations, t.activity) == (s.account, s.roles, s.invitations, s.activity)
    case RemoveAssignment(g, id, assignment) =>
      && Reassigned(s.memberships, t.memberships, id, [])
      && t.activity == s.activity + [Activity(env.id, g.actor, RoleRevoked, assignment, env.now)]
      && (t.account, t.roles, t.invitations) == (s.account, s.roles, s.invitations)
    case Invite(g, users) =>
      && |t.invitations| == |s.invitations| + |users| && s.invitations <= t.invitations
      && (forall k :: 0 <= k < |users| ==>
            t.invitations[|s.invitations| + k]
            == Invitation(env.ids(k), g.actor, Some(users[k]), Pending, Play, Predefined(Player), None, None))
      && (t.account, t.memberships, t.roles, t.activity) == (s.account, s.memberships, s.roles, s.activity)
    case CreateLink(g, predefined, custom, world, expiresIn) =>
      && t.invitations == s.invitations + [
           Invitation(env.id, g.actor, None, Pending, if predefined == Some(Player) then Play else Console,
                      if custom.Some? then Custom(custom.value) else if predefined == Some(Manager) then Predefined(Manager)
                      else Predefined(Player), world, Some(env.now + expiresIn))]
      && (t.account, t.memberships, t.roles, t.activity) == (s.account, s.memberships, s.roles, s.activity)
    case Accept(id, user) =>
      && (exists n :: 0 <= n < |s.invitations| && s.invitations[n].id == id && Open(s, s.invitations[n], user, env.now)
                      && Joins(s, s.invitations[n], n, user, env, t))
      && (t.account, t.roles, t.activity) == (s.account, s.roles, s.activity)
    case RemoveMember(g, id) =>
      && Without(s.memberships, t.memberships, id)
      && t.activity == s.activity + [Activity(env.id, g.actor, MembershipRevoked, id, env.now)]
      && (t.account, t.roles, t.invitations) == (s.account, s.roles, s.invitations)
    case LinkGuild(_, guild, _, _) =>
      && t.account == Account(s.account.id, s.account.name, Some(guild), s.account.channel)
      && (t.memberships, t.roles, t.invitations, t.activity) == (s.memberships, s.roles, s.invitations, s.activity)
    case SetChannel(_, channel) =>
      && t.account == Account(s.account.id, s.account.name, s.account.guild, Some(channel))
      && (t.memberships, t.roles, t.invitations, t.activity) == (s.memberships, s.roles, s.invitations, s.activity)
    case RecordRecovery(g, owner) =>
      && t.activity == s.activity + [Activity(env.id, g.actor, OwnerRecovered, owner, env.now)]
      && (t.account, t.memberships, t.roles, t.invitations) == (s.account, s.memberships, s.roles, s.invitations)
  }

  /** One member more, with the role and the scope of the invitation, and that invitation accepted. */
  ghost predicate Joins(s: Snapshot, i: Invitation, n: int, user: Id, env: Env, t: Snapshot)
    requires 0 <= n < |s.invitations|
  {
    && t.memberships == s.memberships + [Membership(env.id, user, [Assignment(env.id, i.world, i.role)])]
    && t.invitations == s.invitations[n := i.(status := Accepted)]
  }

  /** The command saves exactly when it takes effect, and then leaves exactly that. */
  ghost predicate Exact(s: Snapshot, c: Command, env: Env) {
    var o := Attempt(s, c, env);
    (o.Save? <==> Takes(s, c, env.now)) && (o.Save? ==> Leaves(s, c, env, o.next))
  }

  lemma FoundMember(s: Snapshot, id: Id)
    requires Governed(s)
    ensures var found := Find(s.memberships, MemberIs(id));
            if found.None? then forall n :: !Member(s, n, id)
            else forall n :: Member(s, n, id) ==> s.memberships[n] == found.value
    ensures Find(s.memberships, MemberIs(id)).Some? ==> Member(s, FirstIndex(s.memberships, MemberIs(id)), id)
  {
    forall n | Member(s, n, id)
      ensures Find(s.memberships, MemberIs(id)) == Some(s.memberships[n])
    {
      var i := FirstIndex(s.memberships, MemberIs(id));
      assert MemberIs(id)(s.memberships[n]);
      assert MemberId()(s.memberships[n]) == MemberId()(s.memberships[i]);
    }
  }

  lemma OwnersAreTwo(s: Snapshot)
    requires Governed(s)
    ensures OwnerCount(s) == 1 <==> !TwoOwners(s)
  {
    OwnersCounted(s.memberships);
  }

  lemma AssignExactly(s: Snapshot, c: Command, env: Env)
    requires Governed(s) && c.AssignRole?
    ensures Exact(s, c, env)
  {
    hide Governed, OwnsAccount, TwoOwners, IsOwner, OwnerCount;
    hide DoRemoveMember, DoRemoveAssignment, DoAccept, DoCreateLink, DoInvite, HasRole, Open, Joins, Removable, Without;
    FoundMember(s, c.member);
    OwnersAreTwo(s);
    var m := Find(s.memberships, MemberIs(c.member));
    if m.Some? {
      OwnsExactly(m.value);
    }
    assert c.role.Custom? ==> (Find(s.roles, RoleIs(c.role.id)).Some? <==> HasRole(s, c.role.id)) by { FoundRole(s, c.role); }
  }

  lemma FoundRole(s: Snapshot, role: Role)
    ensures role.Custom? ==> (Find(s.roles, RoleIs(role.id)).Some? <==> HasRole(s, role.id))
  {
    if role.Custom? && HasRole(s, role.id) {
      var r :| r in s.roles && r.id == role.id;
      assert RoleIs(role.id)(r);
    }
  }

  lemma {:induction false} EffectiveCounts(m: Membership)
    ensures Effective(m.assignments).None? ==> m.assignments == []
    ensures forall n :: Counts(m, n) ==> Effective(m.assignments) == Some(m.assignments[n])
    ensures Effective(m.assignments).Some? ==> exists n :: Counts(m, n)
  {
    EffectiveIsOne(m.assignments);
    NewestIsLast(m.assignments);
    if m.assignments != [] && NewestOwner(m.assignments).None? {
      assert Counts(m, |m.assignments| - 1);
    }
  }

  lemma {:induction false} NewestIsLast(xs: seq<Assignment>)
    ensures NewestOwner(xs).Some? ==>
              exists n :: 0 <= n < |xs| && xs[n] == NewestOwner(xs).value && WholeAccountOwner(xs[n])
                          && forall k :: n < k < |xs| ==> !WholeAccountOwner(xs[k])
    ensures NewestOwner(xs).None? ==> forall k :: 0 <= k < |xs| ==> !WholeAccountOwner(xs[k])
  {
    if |xs| > 0 {
      NewestIsLast(xs[..|xs| - 1]);
    }
  }

  /** Which assignment a removal looks at, and whether it may go. */
  lemma RemovableExactly(s: Snapshot, m: Membership, assignment: Id)
    ensures var a := Find(m.assignments, AssignmentIs(assignment));
            (exists k :: Removable(s, m, k, assignment))
            <==> a.Some? && Effective(m.assignments) == a && (AccountOwner(a.value) ==> TwoOwners(s))
  {
    EffectiveCounts(m);
    var k := FirstIndex(m.assignments, AssignmentIs(assignment));
    assert forall j :: 0 <= j < |m.assignments| ==> (AssignmentIs(assignment)(m.assignments[j]) <==> m.assignments[j].id == assignment);
    hide Counts, Effective, TwoOwners;
    if j :| Removable(s, m, j, assignment) {
      assert j == k;
    }
    if k < |m.assignments| && Effective(m.assignments) == Some(m.assignments[k]) {
      var n :| Counts(m, n);
      assert m.assignments[n] == m.assignments[k];
      assert Removable(s, m, k, assignment) <==> (AccountOwner(m.assignments[k]) ==> TwoOwners(s));
    }
  }

  lemma RemoveAssignmentExactly(s: Snapshot, c: Command, env: Env)
    requires Governed(s) && c.RemoveAssignment?
    ensures Exact(s, c, env)
  {
    hide Governed, TwoOwners, OwnerCount, Effective, Removable;
    hide DoAssignRole, DoRemoveMember, DoAccept, DoCreateLink, DoInvite, HasRole, Open, Joins, Without;
    FoundMember(s, c.member);
    OwnersAreTwo(s);
    var n := FirstIndex(s.memberships, MemberIs(c.member));
    if n < |s.memberships| {
      RemovableExactly(s, s.memberships[n], c.assignment);
      assert Member(s, n, c.member);
    }
  }

  lemma RemoveMemberExactly(s: Snapshot, c: Command, env: Env)
    requires Governed(s) && c.RemoveMember?
    ensures Exact(s, c, env)
  {
    hide Governed, OwnsAccount, TwoOwners, HoldsOwnerRole, OwnerOfSome, OwnerCount, Filter, Without;
    hide DoAssignRole, DoRemoveAssignment, DoAccept, DoCreateLink, DoInvite, HasRole, Open, Joins, Removable, Reassigned;
    FoundMember(s, c.member);
    OwnersAreTwo(s);
    var n := FirstIndex(s.memberships, MemberIs(c.member));
    if n < |s.memberships| {
      OwnsExactly(s.memberships[n]);
      MemberRemoved(s, n);
    }
  }

  lemma {:induction false} OneRemoved(ms: seq<Membership>, n: nat, p: Membership -> bool)
    requires n < |ms| && forall k :: 0 <= k < |ms| ==> (p(ms[k]) <==> k != n)
    ensures Filter(ms, p) == ms[..n] + ms[n + 1..]
  {
    hide Filter;
    var last := |ms| - 1;
    assert ms == ms[..last] + [ms[last]];
    FilterLast(ms[..last], ms[last], p);
    if n == last {
      FilterAll(ms[..last], p);
      assert ms[..n] + ms[n + 1..] == ms[..last];
    } else {
      OneRemoved(ms[..last], n, p);
      assert ms[..last][..n] + ms[..last][n + 1..] + [ms[last]] == ms[..n] + ms[n + 1..];
    }
  }

  lemma MemberRemoved(s: Snapshot, n: nat)
    requires Governed(s) && n < |s.memberships|
    ensures Without(s.memberships, Filter(s.memberships, OtherMember(s.memberships[n].id)), s.memberships[n].id)
  {
    var ms := s.memberships;
    assert forall k :: 0 <= k < |ms| ==> (MemberId()(ms[k]) == MemberId()(ms[n]) <==> k == n);
    OneRemoved(ms, n, OtherMember(ms[n].id));
  }

  lemma AcceptExactly(s: Snapshot, c: Command, env: Env)
    requires Governed(s) && c.Accept?
    ensures Exact(s, c, env)
  {
    hide DoAssignRole, DoRemoveMember, DoRemoveAssignment, DoCreateLink, DoInvite, Without, Reassigned, Removable;
    var n := FirstIndex(s.invitations, InvitationIs(c.invitation));
    assert forall k :: 0 <= k < |s.invitations| ==>
        (InvitationIs(c.invitation)(s.invitations[k]) <==> s.invitations[k].id == c.invitation);
    assert n < |s.invitations| ==>
        forall k :: 0 <= k < |s.invitations| ==> (InvitationId()(s.invitations[k]) == InvitationId()(s.invitations[n]) <==> k == n);
    assert Find(s.memberships, MemberFor(c.user)).Some? <==> exists m :: m in s.memberships && m.user == c.user by {
      if m :| m in s.memberships && m.user == c.user {
        assert MemberFor(c.user)(m);
      }
    }
    if n < |s.invitations| {
      var i := s.invitations[n];
      SubstituteOne(s.invitations, InvitationIs(i.id), n, i.(status := Accepted));
    }
  }

  lemma LinkExactly(s: Snapshot, c: Command, env: Env)
    requires c.CreateLink?
    ensures Exact(s, c, env)
  {
    if c.custom.Some? {
      FoundRole(s, Custom(c.custom.value));
    }
    assert c.predefined.Some? ==> c.predefined.value.Owner? || c.predefined.value.Manager? || c.predefined.value.Player?;
  }

  lemma OtherExactly(s: Snapshot, c: Command, env: Env)
    requires !c.AssignRole? && !c.RemoveAssignment? && !c.RemoveMember? && !c.Accept? && !c.CreateLink?
    ensures Exact(s, c, env)
  {
    hide HasRole, Open, Joins, Removable, Without, Reassigned;
    hide DoAssignRole, DoRemoveMember, DoRemoveAssignment, DoAccept, DoCreateLink;
  }

  /** Every command: it saves exactly when the records, the caller's permissions and the clock say so, and it
      leaves exactly the records it names changed. */
  lemma CommandExactly(s: Snapshot, c: Command, env: Env)
    requires Governed(s)
    ensures (Attempt(s, c, env).Save? <==> Takes(s, c, env.now))
            && (Attempt(s, c, env).Save? ==> Leaves(s, c, env, Attempt(s, c, env).next))
  {
    assert Exact(s, c, env) by {
      hide Exact, Governed;
      if c.AssignRole? {
        AssignExactly(s, c, env);
      } else if c.RemoveAssignment? {
        RemoveAssignmentExactly(s, c, env);
      } else if c.RemoveMember? {
        RemoveMemberExactly(s, c, env);
      } else if c.Accept? {
        AcceptExactly(s, c, env);
      } else if c.CreateLink? {
        LinkExactly(s, c, env);
      } else {
        OtherExactly(s, c, env);
      }
    }
  }
}
