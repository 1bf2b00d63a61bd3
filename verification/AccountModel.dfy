/** Accounts: memberships, roles and invitations as one versioned snapshot, and each command as one
    attempt on a snapshot. */
module AccountModel {
  import opened Base

  const MINUTE := 60_000_000
  const DAY := 24 * 60 * MINUTE

  datatype PredefinedRole = Owner | Manager | Player

  /** A Role Assignment or an Invitation refers to exactly one role. */
  datatype Role = Predefined(role: PredefinedRole) | Custom(id: Id)

  /** An assignment applies to the whole account, or to one World. */
  datatype Assignment = Assignment(id: Id, world: Option<Id>, role: Role)

  datatype Membership = Membership(id: Id, user: Id, assignments: seq<Assignment>)

  datatype InvitationStatus = Pending | Accepted

  datatype Access = Play | Console

  datatype Invitation = Invitation(id: Id, inviter: Id, invited: Option<Id>, status: InvitationStatus, access: Access,
                                   role: Role, world: Option<Id>, expiresAt: Option<Time>)

  datatype Permission =
    | CreateWorld | ViewWorld | WakeWorld | SleepEmptyWorld | EditWorld | RestartWorld | UpdateWorld | ForceSleepWorld
    | ViewLogs | CreateBackup | RestoreBackup | ManageMemberships | ManageRoles | ManageIntegrations | ManageWallet
    | ManageWorldBudget | MigrateWorld | ExportWorld | DeleteWorld | TransferOwnership | DeleteAccount

  datatype CustomRole = CustomRole(id: Id, name: string, permissions: set<Permission>)

  datatype Account = Account(id: Id, name: string, guild: Option<string>, channel: Option<string>)

  datatype Action = RoleRevoked | MembershipRevoked | OwnerRecovered

  datatype Activity = Activity(id: Id, actor: Id, action: Action, subject: Id, at: Time)

  datatype Snapshot = Snapshot(account: Account, memberships: seq<Membership>, invitations: seq<Invitation>,
                               roles: seq<CustomRole>, activity: seq<Activity>)

  // ----- effective roles and permissions

  predicate AccountOwner(a: Assignment) { a.role == Predefined(Owner) && a.world.None? }

  /** The newest account-wide Owner assignment if there is one, else the newest assignment. */
  function Effective(assignments: seq<Assignment>): Option<Assignment> {
    match NewestOwner(assignments)
    case Some(a) => Some(a)
    case None => if |assignments| > 0 then Some(assignments[|assignments| - 1]) else None
  }

  function NewestOwner(assignments: seq<Assignment>): Option<Assignment> {
    if |assignments| == 0 then None
    else if AccountOwner(assignments[|assignments| - 1]) then Some(assignments[|assignments| - 1])
    else NewestOwner(assignments[..|assignments| - 1])
  }

  const PLAYER_PERMISSIONS := {ViewWorld, WakeWorld, SleepEmptyWorld}
  const MANAGER_PERMISSIONS :=
    PLAYER_PERMISSIONS + {EditWorld, RestartWorld, UpdateWorld, ForceSleepWorld, ViewLogs, CreateBackup, RestoreBackup}

  predicate RoleGrants(role: PredefinedRole, p: Permission) {
    match role
    case Owner => true
    case Manager => p in MANAGER_PERMISSIONS
    case Player => p in PLAYER_PERMISSIONS
  }

  function RoleIs(id: Id): CustomRole -> bool { (r: CustomRole) => r.id == id }

  predicate AppliesTo(a: Assignment, world: Option<Id>) { a.world.None? || (world.Some? && a.world == world) }

  /** Whether the assignments grant a permission: None where the lookup of a custom role would fail. */
  function Grants(assignments: seq<Assignment>, roles: seq<CustomRole>, p: Permission,
                  world: Option<Id>): Option<bool> {
    match Effective(assignments)
    case None => Some(false)
    case Some(a) =>
      if !AppliesTo(a, world) then Some(false) else
      match a.role
      case Predefined(role) => Some(RoleGrants(role, p))
      case Custom(id) =>
        (match Find(roles, RoleIs(id))
         case None => None
         case Some(r) => Some(p in r.permissions))
  }

  function MemberIs(id: Id): Membership -> bool { (m: Membership) => m.id == id }
  function MemberFor(user: Id): Membership -> bool { (m: Membership) => m.user == user }
  function InvitationIs(id: Id): Invitation -> bool { (i: Invitation) => i.id == id }
  function AssignmentIs(id: Id): Assignment -> bool { (a: Assignment) => a.id == id }

  function Authorize(s: Snapshot, user: Id, p: Permission, world: Option<Id>): Option<bool> {
    match Find(s.memberships, MemberFor(user))
    case None => Some(false)
    case Some(m) => Grants(m.assignments, s.roles, p, world)
  }

  predicate IsOwner(m: Membership) {
    var a := Effective(m.assignments);
    a.Some? && AccountOwner(a.value)
  }

  function OwnerBit(): Membership -> int { (m: Membership) => if IsOwner(m) then 1 else 0 }

  function OwnerCount(s: Snapshot): int { Sum(s.memberships, OwnerBit()) }

  predicate HoldsOwnerRole(m: Membership) {
    var a := Effective(m.assignments);
    a.Some? && a.value.role == Predefined(Owner)
  }

  // ----- commands

  /** What the caller established on a read of its own, maybe of an older snapshot, and its confirmation. */
  datatype Grant = Grant(actor: Id, permitted: bool, mayAssign: bool, confirmed: bool)

  /** Fresh identifiers and the clock. */
  datatype Env = Env(id: Id, ids: nat -> Id, now: Time)

  datatype Command =
    | CreateRole(grant: Grant, name: string, permissions: set<Permission>)
    | AssignRole(grant: Grant, member: Id, role: Role, world: Option<Id>)
    | RemoveAssignment(grant: Grant, member: Id, assignment: Id)
    | Invite(grant: Grant, users: seq<Id>)
    | CreateLink(grant: Grant, predefined: Option<PredefinedRole>, custom: Option<Id>, world: Option<Id>, expiresIn: Time)
    | Accept(invitation: Id, user: Id)
    | RemoveMember(grant: Grant, member: Id)
    | LinkGuild(grant: Grant, guild: string, wellFormed: bool, elsewhere: bool)
    | SetChannel(grant: Grant, channel: string)
    | RecordRecovery(grant: Grant, owner: Id)

  datatype Error = Missing | Denied | Unconfirmed | LastOwner | Invalid | AlreadyLinked | AlreadyMember | Conflict

  datatype Outcome = Save(next: Snapshot) | Return | Raise(error: Error)

  function DoCreateRole(s: Snapshot, g: Grant, name: string, permissions: set<Permission>, env: Env): Outcome {
    if !g.permitted then Raise(Denied) else if !g.confirmed then Raise(Unconfirmed) else
    Save(s.(roles := s.roles + [CustomRole(env.id, name, permissions)]))
  }

  /** Replacing the last account-wide Owner by anything else is refused. */
  predicate LosesLastOwner(s: Snapshot, m: Membership, a: Assignment) {
    IsOwner(m) && !AccountOwner(a) && OwnerCount(s) == 1
  }

  function DoAssignRole(s: Snapshot, g: Grant, member: Id, role: Role, world: Option<Id>, env: Env): Outcome {
    if !g.permitted then Raise(Denied) else if !g.confirmed then Raise(Unconfirmed) else
    if role.Custom? && Find(s.roles, RoleIs(role.id)).None? then Raise(Missing) else
    match Find(s.memberships, MemberIs(member))
    case None => Raise(Missing)
    case Some(m) =>
      var a := Assignment(env.id, world, role);
      if LosesLastOwner(s, m, a) then Raise(LastOwner) else
      Save(s.(memberships := Substitute(s.memberships, MemberIs(member), m.(assignments := [a]))))
  }

  function DoRemoveAssignment(s: Snapshot, g: Grant, member: Id, assignment: Id, env: Env): Outcome {
    if !g.permitted then Raise(Denied) else if !g.confirmed then Raise(Unconfirmed) else
    match Find(s.memberships, MemberIs(member))
    case None => Raise(Missing)
    case Some(m) =>
      match Find(m.assignments, AssignmentIs(assignment))
      case None => Raise(Missing)
      case Some(a) =>
        if Effective(m.assignments) != Some(a) then Raise(Invalid) else
        if AccountOwner(a) && OwnerCount(s) == 1 then Raise(LastOwner) else
        Save(s.(memberships := Substitute(s.memberships, MemberIs(member), m.(assignments := [])),
                activity := s.activity + [Activity(env.id, g.actor, RoleRevoked, assignment, env.now)]))
  }

  function Invitations(g: Grant, users: seq<Id>, ids: nat -> Id): seq<Invitation> {
    seq(|users|, i requires 0 <= i < |users| =>
      Invitation(ids(i), g.actor, Some(users[i]), Pending, Play, Predefined(Player), None, None))
  }

  function DoInvite(s: Snapshot, g: Grant, users: seq<Id>, env: Env): Outcome {
    if !g.permitted then Raise(Denied) else
    if exists m :: m in s.memberships && m.user in users then Raise(AlreadyMember) else
    Save(s.(invitations := s.invitations + Invitations(g, users, env.ids)))
  }

  function DoCreateLink(s: Snapshot, g: Grant, predefined: Option<PredefinedRole>, custom: Option<Id>,
                        world: Option<Id>,
                        expiresIn: Time, env: Env): Outcome {
    if !g.permitted then Raise(Denied) else
    if predefined.None? == custom.None? then Raise(Invalid) else
    if predefined == Some(Owner) then Raise(Invalid) else
    var access := if predefined == Some(Player) then Play else Console;
    if access.Console? && !g.mayAssign then Raise(Denied) else
    if custom.Some? && Find(s.roles, RoleIs(custom.value)).None? then Raise(Invalid) else
    if expiresIn <= 0 || expiresIn > 30 * DAY then Raise(Invalid) else
    var role := if custom.Some? then Custom(custom.value) else Predefined(predefined.value);
    Save(s.(invitations := s.invitations +
                             [Invitation(env.id, g.actor, None, Pending, access, role, world, Some(env.now + expiresIn))]))
  }

  function DoAccept(s: Snapshot, invitation: Id, user: Id, env: Env): Outcome {
    match Find(s.invitations, InvitationIs(invitation))
    case None => Raise(Missing)
    case Some(i) =>
      if i.invited.Some? && i.invited.value != user then Raise(Denied) else
      if !i.status.Pending? then Raise(Invalid) else
      if i.expiresAt.Some? && env.now >= i.expiresAt.value then Raise(Invalid) else
      if Find(s.memberships, MemberFor(user)).Some? then Raise(Invalid) else
      Save(s.(memberships := s.memberships + [Membership(env.id, user, [Assignment(env.id, i.world, i.role)])],
              invitations := Substitute(s.invitations, InvitationIs(i.id), i.(status := Accepted))))
  }

  function OtherMember(id: Id): Membership -> bool { (m: Membership) => m.id != id }

  /** Removal asks about the Owner role in any scope, where role changes ask about account-wide Owners. */
  function DoRemoveMember(s: Snapshot, g: Grant, member: Id, env: Env): Outcome {
    if !g.permitted then Raise(Denied) else if !g.confirmed then Raise(Unconfirmed) else
    match Find(s.memberships, MemberIs(member))
    case None => Raise(Missing)
    case Some(m) =>
      if HoldsOwnerRole(m) && OwnerCount(s) == 1 then Raise(LastOwner) else
      Save(s.(memberships := Filter(s.memberships, OtherMember(member)),
              activity := s.activity + [Activity(env.id, g.actor, MembershipRevoked, member, env.now)]))
  }

  function DoLinkGuild(s: Snapshot, g: Grant, guild: string, wellFormed: bool, elsewhere: bool): Outcome {
    if !wellFormed then Raise(Invalid) else if !g.permitted then Raise(Denied) else if elsewhere then Raise(AlreadyLinked) else
    if s.account.guild == Some(guild) then Return else
    Save(s.(account := s.account.(guild := Some(guild))))
  }

  function DoSetChannel(s: Snapshot, g: Grant, channel: string): Outcome {
    if channel == "" then Raise(Invalid) else if !g.permitted then Raise(Denied) else
    if s.account.channel == Some(channel) then Return else
    Save(s.(account := s.account.(channel := Some(channel))))
  }

  function Attempt(s: Snapshot, c: Command, env: Env): Outcome {
    match c
    case CreateRole(g, name, permissions) => DoCreateRole(s, g, name, permissions, env)
    case AssignRole(g, member, role, world) => DoAssignRole(s, g, member, role, world, env)
    case RemoveAssignment(g, member, assignment) => DoRemoveAssignment(s, g, member, assignment, env)
    case Invite(g, users) => DoInvite(s, g, users, env)
    case CreateLink(g, predefined, custom, world, expiresIn) => DoCreateLink(s, g, predefined, custom, world, expiresIn, env)
    case Accept(invitation, user) => DoAccept(s, invitation, user, env)
    case RemoveMember(g, member) => DoRemoveMember(s, g, member, env)
    case LinkGuild(g, guild, wellFormed, elsewhere) => DoLinkGuild(s, g, guild, wellFormed, elsewhere)
    case SetChannel(g, channel) => DoSetChannel(s, g, channel)
    case RecordRecovery(g, owner) =>
      if !g.permitted then Raise(Denied)
      else Save(s.(activity := s.activity + [Activity(env.id, g.actor, OwnerRecovered, owner, env.now)]))
  }

  /** create_account: one membership, its account-wide Owner. */
  function NewSnapshot(account: Account, owner: Id, member: Id, assignment: Id): Snapshot {
    Snapshot(account, [Membership(member, owner, [Assignment(assignment, None, Predefined(Owner))])], [], [], [])
  }
}
