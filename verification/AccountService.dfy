/** The account repository, where one Discord guild belongs to one account, and the calls that read a
    snapshot, rebuild it and save it. */
module AccountService {
  import opened Base
  import opened Optimistic
  import opened AccountModel
  import opened AccountLaws

  type Store = map<Id, Versioned<Snapshot>>

  /** Another account holds the guild. */
  predicate LinkedElsewhere(m: Store, account: Id, guild: Option<string>) {
    guild.Some? && exists a :: a in m && a != account && m[a].value.account.guild == guild
  }

  ghost predicate InOrder(m: Store) {
    && (forall a :: a in m ==> m[a].value.account.id == a && Governed(m[a].value))
    && (forall a :: a in m ==> !LinkedElsewhere(m, a, m[a].value.account.guild))
  }

  /** The store after a command's outcome on the current snapshot. */
  function Committed(m: Store, account: Id, o: Outcome): Store
    requires account in m
  {
    if o.Save? then m[account := Versioned(o.next, m[account].version + 1)] else m
  }

  function ErrorOf(o: Outcome): Option<Error> { if o.Raise? then Some(o.error) else None }

  lemma HeldInOrder(m: Store, account: Id)
    requires InOrder(m) && account in m
    ensures Governed(m[account].value) && m[account].value.account.id == account
  {
  }

  lemma CommittedInOrder(m: Store, account: Id, o: Outcome)
    requires InOrder(m) && account in m && Good(m[account].value, o)
    requires o.Save? ==> !LinkedElsewhere(m, account, o.next.account.guild)
    ensures InOrder(Committed(m, account, o))
  {
    hide Governed;
    var t := Committed(m, account, o);
    forall a, b | a in t && b in t && a != b && t[a].value.account.guild.Some?
      ensures t[b].value.account.guild != t[a].value.account.guild
    {
      assert !LinkedElsewhere(m, a, m[a].value.account.guild);
      assert !LinkedElsewhere(m, b, m[b].value.account.guild);
    }
  }

  class AccountRepository {
    var snapshots: Store

    constructor ()
      ensures snapshots == map[] && InOrder(snapshots)
    {
      snapshots := map[];
    }

    method Create(account: Account, owner: Id, member: Id, assignment: Id) returns (error: Option<Error>)
      requires InOrder(snapshots) && account.id !in snapshots
      modifies this
      ensures InOrder(snapshots)
      ensures error == if LinkedElsewhere(old(snapshots), account.id, account.guild) then Some(AlreadyLinked) else None
      ensures snapshots == if error.Some? then old(snapshots) else
                           old(snapshots)[account.id := Versioned(NewSnapshot(account, owner, member, assignment), 1)]
    {
      if LinkedElsewhere(snapshots, account.id, account.guild) {
        return Some(AlreadyLinked);
      }
      NewIsGoverned(account, owner, member, assignment);
      CreatedInOrder(snapshots, NewSnapshot(account, owner, member, assignment));
      snapshots := snapshots[account.id := Versioned(NewSnapshot(account, owner, member, assignment), 1)];
      error := None;
    }

    method Save(next: Snapshot, expected: nat) returns (error: Option<Error>)
      modifies this
      ensures error == if next.account.id !in old(snapshots) then Some(Missing)
                       else if old(snapshots)[next.account.id].version != expected then Some(Conflict)
                       else if LinkedElsewhere(old(snapshots), next.account.id, next.account.guild) then Some(AlreadyLinked)
                       else None
      ensures snapshots == if error.Some? then old(snapshots) else old(snapshots)[next.account.id := Versioned(next, expected + 1)]
    {
      var id := next.account.id;
      if id !in snapshots {
        return Some(Missing);
      }
      if snapshots[id].version != expected {
        return Some(Conflict);
      }
      if LinkedElsewhere(snapshots, id, next.account.guild) {
        return Some(AlreadyLinked);
      }
      snapshots := snapshots[id := Versioned(next, expected + 1)];
      error := None;
    }
  }

  lemma CreatedInOrder(m: Store, s: Snapshot)
    requires InOrder(m) && s.account.id !in m && Governed(s) && !LinkedElsewhere(m, s.account.id, s.account.guild)
    ensures InOrder(m[s.account.id := Versioned(s, 1)])
  {
    hide Governed;
    var t := m[s.account.id := Versioned(s, 1)];
    forall a | a in t ensures !LinkedElsewhere(t, a, t[a].value.account.guild) {
      if a != s.account.id {
        assert !LinkedElsewhere(m, a, m[a].value.account.guild);
      }
    }
  }

  predicate May(s: Snapshot, user: Id, p: Permission) { Authorize(s, user, p, None) == Some(true) }

  function RoleGrant(s: Snapshot, actor: Id, p: Permission, confirmed: bool): Grant {
    Grant(actor, May(s, actor, p), May(s, actor, ManageRoles), confirmed)
  }

  class Accounts {
    const repository: AccountRepository

    constructor (repository: AccountRepository)
      ensures this.repository == repository
    {
      this.repository := repository;
    }

    /** Whether a user may act; in a store in order this is always answered. */
    method Authorized(account: Id, user: Id, p: Permission, world: Option<Id>) returns (allowed: bool)
      requires InOrder(repository.snapshots) && account in repository.snapshots
      ensures Authorize(repository.snapshots[account].value, user, p, world) == Some(allowed)
    {
      AuthorizeNeverFails(repository.snapshots[account].value, user, p, world);
      allowed := Authorize(repository.snapshots[account].value, user, p, world).value;
    }

    method AssignCustomRole(account: Id, actor: Id, member: Id, role: Id, world: Option<Id>, confirmed: bool, env: Env)
      returns (error: Option<Error>)
      requires InOrder(repository.snapshots) && account in repository.snapshots
      requires Fresh(repository.snapshots[account].value, env)
      modifies repository
      ensures InOrder(repository.snapshots)
      ensures var s := old(repository.snapshots)[account].value;
              var o := DoAssignRole(s, RoleGrant(s, actor, ManageRoles, confirmed), member, Custom(role), world, env);
              repository.snapshots == Committed(old(repository.snapshots), account, o) && error == ErrorOf(o)
    {
      hide Governed, Good, InOrder, Effective, Sum, Grants, Fresh;
      var allowed := Authorized(account, actor, ManageRoles, None);
      if !allowed {
        return Some(Denied);
      }
      var held := repository.snapshots[account];
      var s := held.value;
      HeldInOrder(repository.snapshots, account);
      if !confirmed {
        return Some(Unconfirmed);
      }
      if Find(s.roles, RoleIs(role)).None? {
        return Some(Missing);
      }
      var m := Find(s.memberships, MemberIs(member));
      if m.None? {
        return Some(Missing);
      }
      var assignment := Assignment(env.id, world, Custom(role));
      if LosesLastOwner(s, m.value, assignment) {
        return Some(LastOwner);
      }
      AssignGood(s, RoleGrant(s, actor, ManageRoles, confirmed), member, Custom(role), world, env);
      error := Rewrite(
        account, s.(memberships := Substitute(s.memberships, MemberIs(member), m.value.(assignments := [assignment]))), held.version);
    }

    method AssignPredefinedRole(account: Id, actor: Id, member: Id, role: PredefinedRole, world: Option<Id>,
                                confirmed: bool, env: Env)
      returns (error: Option<Error>)
      requires InOrder(repository.snapshots) && account in repository.snapshots
      requires Fresh(repository.snapshots[account].value, env)
      modifies repository
      ensures InOrder(repository.snapshots)
      ensures var s := old(repository.snapshots)[account].value;
              var o := DoAssignRole(s, RoleGrant(s, actor, ManageRoles, confirmed), member, Predefined(role), world, env);
              repository.snapshots == Committed(old(repository.snapshots), account, o) && error == ErrorOf(o)
    {
      hide Governed, Good, InOrder, Effective, Sum, Grants, Fresh;
      var allowed := Authorized(account, actor, ManageRoles, None);
      if !allowed {
        return Some(Denied);
      }
      var held := repository.snapshots[account];
      var s := held.value;
      HeldInOrder(repository.snapshots, account);
      if !confirmed {
        return Some(Unconfirmed);
      }
      var m := Find(s.memberships, MemberIs(member));
      if m.None? {
        return Some(Missing);
      }
      var assignment := Assignment(env.id, world, Predefined(role));
      if LosesLastOwner(s, m.value, assignment) {
        return Some(LastOwner);
      }
      AssignGood(s, RoleGrant(s, actor, ManageRoles, confirmed), member, Predefined(role), world, env);
      error := Rewrite(
        account, s.(memberships := Substitute(s.memberships, MemberIs(member), m.value.(assignments := [assignment]))), held.version);
    }

    method RemoveRoleAssignment(account: Id, actor: Id, member: Id, assignment: Id, confirmed: bool, env: Env)
      returns (error: Option<Error>)
      requires InOrder(repository.snapshots) && account in repository.snapshots
      requires Fresh(repository.snapshots[account].value, env)
      modifies repository
      ensures InOrder(repository.snapshots)
      ensures var s := old(repository.snapshots)[account].value;
              var o := DoRemoveAssignment(s, RoleGrant(s, actor, ManageRoles, confirmed), member, assignment, env);
              repository.snapshots == Committed(old(repository.snapshots), account, o) && error == ErrorOf(o)
    {
      hide Governed, Good, InOrder, Effective, Sum, Grants, Fresh;
      var allowed := Authorized(account, actor, ManageRoles, None);
      if !allowed {
        return Some(Denied);
      }
      var held := repository.snapshots[account];
      var s := held.value;
      HeldInOrder(repository.snapshots, account);
      if !confirmed {
        return Some(Unconfirmed);
      }
      var m := Find(s.memberships, MemberIs(member));
      if m.None? {
        return Some(Missing);
      }
      var a := Find(m.value.assignments, AssignmentIs(assignment));
      if a.None? {
        return Some(Missing);
      }
      if Effective(m.value.assignments) != a {
        return Some(Invalid);
      }
      if AccountOwner(a.value) && OwnerCount(s) == 1 {
        return Some(LastOwner);
      }
      RemoveAssignmentGood(s, RoleGrant(s, actor, ManageRoles, confirmed), member, assignment, env);
      error := Rewrite(
        account,
        s.(memberships := Substitute(s.memberships, MemberIs(member), m.value.(assignments := [])),
           activity := s.activity + [Activity(env.id, actor, RoleRevoked, assignment, env.now)]), held.version);
    }

    method CreateCustomRole(account: Id, actor: Id, name: string, permissions: set<Permission>, confirmed: bool,
                            env: Env)
      returns (error: Option<Error>)
      requires InOrder(repository.snapshots) && account in repository.snapshots
      requires Fresh(repository.snapshots[account].value, env)
      modifies repository
      ensures InOrder(repository.snapshots)
      ensures var s := old(repository.snapshots)[account].value;
              var o := DoCreateRole(s, RoleGrant(s, actor, ManageRoles, confirmed), name, permissions, env);
              repository.snapshots == Committed(old(repository.snapshots), account, o) && error == ErrorOf(o)
    {
      hide Governed, Good, InOrder, Effective, Sum, Grants, Fresh;
      var allowed := Authorized(account, actor, ManageRoles, None);
      if !allowed {
        return Some(Denied);
      }
      var held := repository.snapshots[account];
      var s := held.value;
      HeldInOrder(repository.snapshots, account);
      if !confirmed {
        return Some(Unconfirmed);
      }
      OtherGood(s, CreateRole(RoleGrant(s, actor, ManageRoles, confirmed), name, permissions), env);
      error := Rewrite(account, s.(roles := s.roles + [CustomRole(env.id, name, permissions)]), held.version);
    }

    /** An invitation link never grants ownership, and more than playing only from somebody who may assign roles. */
    method CreateInvitationLink(account: Id, inviter: Id, predefined: Option<PredefinedRole>, custom: Option<Id>,
                                world: Option<Id>,
                                expiresIn: Time, env: Env)
      returns (error: Option<Error>)
      requires InOrder(repository.snapshots) && account in repository.snapshots
      requires Fresh(repository.snapshots[account].value, env)
      modifies repository
      ensures InOrder(repository.snapshots)
      ensures var s := old(repository.snapshots)[account].value;
              var o := DoCreateLink(s, RoleGrant(s, inviter, ManageMemberships, true), predefined, custom, world, expiresIn, env);
              repository.snapshots == Committed(old(repository.snapshots), account, o) && error == ErrorOf(o)
    {
      hide Governed, Good, InOrder, Effective, Sum, Grants, Fresh;
      var held := repository.snapshots[account];
      var s := held.value;
      HeldInOrder(repository.snapshots, account);
      var allowed := Authorized(account, inviter, ManageMemberships, None);
      if !allowed {
        return Some(Denied);
      }
      if predefined.None? == custom.None? {
        return Some(Invalid);
      }
      if predefined == Some(Owner) {
        return Some(Invalid);
      }
      var access := if predefined == Some(Player) then Play else Console;
      var mayAssign := Authorized(account, inviter, ManageRoles, None);
      if access.Console? && !mayAssign {
        return Some(Denied);
      }
      if custom.Some? && Find(s.roles, RoleIs(custom.value)).None? {
        return Some(Invalid);
      }
      if expiresIn <= 0 || expiresIn > 30 * DAY {
        return Some(Invalid);
      }
      var role := if custom.Some? then Custom(custom.value) else Predefined(predefined.value);
      OtherGood(s, CreateLink(RoleGrant(s, inviter, ManageMemberships, true), predefined, custom, world, expiresIn),
                env);
      error := Rewrite(
        account,
        s.(invitations := s.invitations + [Invitation(env.id, inviter, None, Pending, access, role, world, Some(env.now + expiresIn))]),
        held.version);
    }

    method InviteMembers(account: Id, inviter: Id, users: seq<Id>, env: Env) returns (error: Option<Error>)
      requires InOrder(repository.snapshots) && account in repository.snapshots
      requires Fresh(repository.snapshots[account].value, env)
      modifies repository
      ensures InOrder(repository.snapshots)
      ensures var s := old(repository.snapshots)[account].value;
              var o := DoInvite(s, RoleGrant(s, inviter, ManageMemberships, true), users, env);
              repository.snapshots == Committed(old(repository.snapshots), account, o) && error == ErrorOf(o)
    {
      hide Governed, Good, InOrder, Effective, Sum, Grants, Fresh;
      var held := repository.snapshots[account];
      var s := held.value;
      HeldInOrder(repository.snapshots, account);
      var allowed := Authorized(account, inviter, ManageMemberships, None);
      if !allowed {
        return Some(Denied);
      }
      if exists m :: m in s.memberships && m.user in users {
        return Some(AlreadyMember);
      }
      var g := RoleGrant(s, inviter, ManageMemberships, true);
      InviteGood(s, g, users, env);
      error := Rewrite(account, s.(invitations := s.invitations + Invitations(g, users, env.ids)), held.version);
    }

    method AcceptInvitation(account: Id, invitation: Id, user: Id, env: Env) returns (error: Option<Error>)
      requires InOrder(repository.snapshots) && account in repository.snapshots
      requires Fresh(repository.snapshots[account].value, env)
      modifies repository
      ensures InOrder(repository.snapshots)
      ensures var s := old(repository.snapshots)[account].value;
              var o := DoAccept(s, invitation, user, env);
              repository.snapshots == Committed(old(repository.snapshots), account, o) && error == ErrorOf(o)
    {
      hide Governed, Good, InOrder, Effective, Sum, Grants, Fresh;
      var held := repository.snapshots[account];
      var s := held.value;
      HeldInOrder(repository.snapshots, account);
      var found := Find(s.invitations, InvitationIs(invitation));
      if found.None? {
        return Some(Missing);
      }
      var i := found.value;
      if i.invited.Some? && i.invited.value != user {
        return Some(Denied);
      }
      if !i.status.Pending? {
        return Some(Invalid);
      }
      if i.expiresAt.Some? && env.now >= i.expiresAt.value {
        return Some(Invalid);
      }
      if Find(s.memberships, MemberFor(user)).Some? {
        return Some(Invalid);
      }
      AcceptGood(s, invitation, user, env);
      error := Rewrite(
        account,
        s.(memberships := s.memberships + [Membership(env.id, user, [Assignment(env.id, i.world, i.role)])],
           invitations := Substitute(s.invitations, InvitationIs(i.id), i.(status := Accepted))), held.version);
    }

    method RemoveMembership(account: Id, actor: Id, member: Id, confirmed: bool, env: Env)
      returns (error: Option<Error>)
      requires InOrder(repository.snapshots) && account in repository.snapshots
      requires Fresh(repository.snapshots[account].value, env)
      modifies repository
      ensures InOrder(repository.snapshots)
      ensures var s := old(repository.snapshots)[account].value;
              var o := DoRemoveMember(s, RoleGrant(s, actor, ManageMemberships, confirmed), member, env);
              repository.snapshots == Committed(old(repository.snapshots), account, o) && error == ErrorOf(o)
    {
      hide Governed, Good, InOrder, Effective, Sum, Grants, Fresh;
      var held := repository.snapshots[account];
      var s := held.value;
      HeldInOrder(repository.snapshots, account);
      var allowed := Authorized(account, actor, ManageMemberships, None);
      if !allowed {
        return Some(Denied);
      }
      if !confirmed {
        return Some(Unconfirmed);
      }
      var m := Find(s.memberships, MemberIs(member));
      if m.None? {
        return Some(Missing);
      }
      if HoldsOwnerRole(m.value) && OwnerCount(s) == 1 {
        return Some(LastOwner);
      }
      RemoveMemberGood(s, RoleGrant(s, actor, ManageMemberships, confirmed), member, env);
      error := Rewrite(
        account,
        s.(memberships := Filter(s.memberships, OtherMember(member)),
           activity := s.activity + [Activity(env.id, actor, MembershipRevoked, member, env.now)]), held.version);
    }

    /** Two accounts never hold one guild: a guild linked elsewhere is refused. */
    method ConfigureDiscordGuild(account: Id, actor: Id, guild: string, wellFormed: bool) returns (error: Option<Error>)
      requires InOrder(repository.snapshots) && account in repository.snapshots
      modifies repository
      ensures InOrder(repository.snapshots)
      ensures var s := old(repository.snapshots)[account].value;
              var o := DoLinkGuild(s, RoleGrant(s, actor, ManageIntegrations, true), guild, wellFormed,
                                   LinkedElsewhere(old(repository.snapshots), account, Some(guild)));
              repository.snapshots == Committed(old(repository.snapshots), account, o) && error == ErrorOf(o)
    {
      hide Governed, Good, InOrder, Effective, Sum, Grants, Fresh;
      if !wellFormed {
        return Some(Invalid);
      }
      var held := repository.snapshots[account];
      var s := held.value;
      HeldInOrder(repository.snapshots, account);
      var allowed := Authorized(account, actor, ManageIntegrations, None);
      if !allowed {
        return Some(Denied);
      }
      if LinkedElsewhere(repository.snapshots, account, Some(guild)) {
        return Some(AlreadyLinked);
      }
      if s.account.guild == Some(guild) {
        return None;
      }
      GuildGood(s, guild);
      error := Rewrite(account, s.(account := s.account.(guild := Some(guild))), held.version);
    }

    /** Saving a rebuilt snapshot of the account that nobody changed meanwhile. */
    method Rewrite(account: Id, next: Snapshot, expected: nat) returns (error: Option<Error>)
      requires InOrder(repository.snapshots) && account in repository.snapshots
      requires expected == repository.snapshots[account].version
      requires Good(repository.snapshots[account].value, AccountModel.Save(next))
      requires next.account.guild == repository.snapshots[account].value.account.guild
               || !LinkedElsewhere(repository.snapshots, account, next.account.guild)
      modifies repository
      ensures InOrder(repository.snapshots) && error == None
      ensures repository.snapshots == old(repository.snapshots)[account := Versioned(next, expected + 1)]
    {
      hide Governed, InOrder;
      HeldInOrder(repository.snapshots, account);
      if next.account.guild == repository.snapshots[account].value.account.guild {
        SaveIsAllowed(repository.snapshots, account, next);
      }
      CommittedInOrder(repository.snapshots, account, AccountModel.Save(next));
      error := repository.Save(next, expected);
    }
  }

  lemma SaveIsAllowed(m: Store, account: Id, next: Snapshot)
    requires InOrder(m) && account in m && next.account.guild == m[account].value.account.guild
    ensures !LinkedElsewhere(m, account, next.account.guild)
  {
  }

  lemma GuildGood(s: Snapshot, guild: string)
    requires Governed(s)
    ensures Good(s, AccountModel.Save(s.(account := s.account.(guild := Some(guild)))))
  {
  }
}
