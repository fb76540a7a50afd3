/** Project membership: every console transaction that changes who belongs to a project, with what roles,
    who owns it, and the audit rows each one writes. A refused transaction leaves every table as it was. */
module Membership {
  import opened Options

  type User = string
  type ProjectId = string
  type InvitationId = string

  datatype Role = EventsWrite | ConfigRead | ConfigWrite | ConfigEvaluate | QueryRead | AgentsRead
                | AgentsRun | AgentsManage | AgentsApprove | CredentialsManage | MembersManage

  /** Role lists are non-empty and in canonical order, so they are sets. */
  type Roles = r: set<Role> | r != {} witness {MembersManage}

  const CREATOR_ROLES: Roles := {EventsWrite, ConfigRead, ConfigWrite, ConfigEvaluate, QueryRead, AgentsRead,
                                 CredentialsManage, MembersManage}

  /** Seven days, in seconds. */
  const INVITATION_LIFETIME: int := 7 * 24 * 3600

  datatype Account = Account(email: string, active: bool)

  datatype Fate = Pending | Accepted(user: User) | Revoked

  datatype Invitation = Invitation(project: ProjectId, email: string, roles: Roles, inviter: User, expires: int,
                                   fate: Fate)

  datatype Entry =
    | InvitationCreate(actor: User, email: string, id: InvitationId, granted: Roles)
    | InvitationRevoke(actor: User, email: string, id: InvitationId, previous: Roles)
    | InvitationAccept(actor: User, subject: User, email: string, id: InvitationId, granted: Roles)
    | RolesReplace(actor: User, subject: User, email: string, previous: Roles, granted: Roles)
    | MemberRemove(actor: User, subject: User, email: string, previous: Roles)

  datatype Transfer = Transfer(from: User, to: User)

  datatype Project = Project(creator: User, owner: Option<User>, members: map<User, Roles>, audit: seq<Entry>,
                             transfers: seq<Transfer>)

  /** The tables; `pending` is the unique index over invitations neither accepted nor revoked. */
  datatype Site = Site(quota: nat, now: int, accounts: map<User, Account>, projects: map<ProjectId, Project>,
                       invitations: map<InvitationId, Invitation>, pending: map<(ProjectId, string), InvitationId>)

  datatype Status = Success | Unauthorized | Forbidden | NotFound | Conflict

  datatype Step =
    | CreateProject(actor: User, project: ProjectId)
    | Invite(actor: User, project: ProjectId, email: string, roles: Roles, id: InvitationId)
    | RevokeInvitation(actor: User, project: ProjectId, id: InvitationId)
    | ReplaceRoles(actor: User, project: ProjectId, subject: User, roles: Roles)
    | RemoveMember(actor: User, project: ProjectId, subject: User)
    | Accept(actor: User, id: InvitationId)
    | TransferOwnership(actor: User, project: ProjectId, target: User)
    // Around the console: accounts appear, are switched on and off, and time passes.
    | Register(actor: User, email: string)
    | SetActive(actor: User, active: bool)
    | Tick(seconds: nat)

  // ----- what a well-formed database satisfies

  /** Foreign keys and the unique index. */
  ghost predicate Linked(site: Site) {
    && (forall k <- site.pending :: site.pending[k] in site.invitations &&
          var i := site.invitations[site.pending[k]]; i.fate.Pending? && (i.project, i.email) == k)
    && (forall id <- site.invitations :: site.invitations[id].project in site.projects &&
          site.invitations[id].inviter in site.accounts)
    && (forall id <- site.invitations :: site.invitations[id].fate.Pending? ==>
          var key := (site.invitations[id].project, site.invitations[id].email);
          key in site.pending && site.pending[key] == id)
    && (forall p <- site.projects :: site.projects[p].members.Keys <= site.accounts.Keys)
  }

  // ----- the checks

  predicate Active(site: Site, user: User) {
    user in site.accounts && site.accounts[user].active
  }

  predicate Manager(site: Site, project: ProjectId, actor: User) {
    && project in site.projects && actor in site.projects[project].members && Active(site, actor)
    && MembersManage in site.projects[project].members[actor]
  }

  /** The role ceiling, and the rule that only the owner touches a members:manage grant. */
  predicate MayGrant(project: Project, actor: User, requested: Roles, current: Option<Roles>)
    requires actor in project.members
  {
    && requested <= project.members[actor]
    && (project.owner == Some(actor)
        || (MembersManage !in requested && (current.Some? ==> MembersManage !in current.value)))
  }

  predicate HasMember(site: Site, project: ProjectId, email: string)
    requires project in site.projects
  {
    exists u :: u in site.projects[project].members && u in site.accounts && site.accounts[u].email == email
  }

  /** An invitation that can still be accepted: its inviter has, now, all the authority it needs. */
  predicate ValidInvitation(site: Site, id: InvitationId) {
    && id in site.invitations
    && var i := site.invitations[id];
       && i.fate.Pending? && i.expires > site.now && Active(site, i.inviter)
       && i.project in site.projects
       && var p := site.projects[i.project];
          && i.inviter in p.members && MembersManage in p.members[i.inviter] && i.roles <= p.members[i.inviter]
          && (MembersManage in i.roles ==> p.owner == Some(i.inviter))
  }

  function Created(site: Site, user: User): set<ProjectId> {
    set p | p in site.projects && site.projects[p].creator == user
  }

  /** The open invitation for an address, found through the unique index. */
  function Holder(site: Site, project: ProjectId, email: string): Option<InvitationId> {
    if (project, email) in site.pending && site.pending[(project, email)] in site.invitations
    then Some(site.pending[(project, email)]) else None
  }

  predicate Expired(site: Site, project: ProjectId, email: string) {
    var id := Holder(site, project, email);
    id.Some? && site.invitations[id.value].expires <= site.now
  }

  function CreateVerdict(site: Site, actor: User, project: ProjectId): Status {
    if !Active(site, actor) then Unauthorized
    else if |Created(site, actor)| >= site.quota || project in site.projects then Conflict
    else Success
  }

  function InviteVerdict(site: Site, actor: User, project: ProjectId, email: string, roles: Roles,
                         id: InvitationId): Status {
    if !Manager(site, project, actor) || !MayGrant(site.projects[project], actor, roles, None) then Forbidden
    else if HasMember(site, project, email) || id in site.invitations then Conflict
    else if Holder(site, project, email).Some? && !Expired(site, project, email) then Conflict
    else Success
  }

  function RevokeVerdict(site: Site, actor: User, project: ProjectId, id: InvitationId): Status {
    if !Manager(site, project, actor) then Forbidden
    else if !(id in site.invitations && site.invitations[id].project == project && site.invitations[id].fate.Pending?)
        then NotFound
    else if !MayGrant(site.projects[project], actor, site.invitations[id].roles, Some(site.invitations[id].roles))
        then Forbidden
    else Success
  }

  function ReplaceVerdict(site: Site, actor: User, project: ProjectId, subject: User, roles: Roles): Status {
    if !Manager(site, project, actor) then Forbidden
    else
      var p := site.projects[project];
      if subject !in p.members || subject !in site.accounts then NotFound
      else if p.owner == Some(subject) || p.members[subject] == roles then Conflict
      else if !MayGrant(p, actor, roles, Some(p.members[subject])) then Forbidden
      else Success
  }

  function RemoveVerdict(site: Site, actor: User, project: ProjectId, subject: User): Status {
    if !Manager(site, project, actor) then Forbidden
    else
      var p := site.projects[project];
      if subject !in p.members || subject !in site.accounts then NotFound
      else if p.owner == Some(subject) then Conflict
      else if !MayGrant(p, actor, p.members[subject], Some(p.members[subject])) then Forbidden
      else Success
  }

  function AcceptVerdict(site: Site, actor: User, id: InvitationId): Status {
    if !ValidInvitation(site, id) || !Active(site, actor)
       || site.accounts[actor].email != site.invitations[id].email then NotFound
    else if actor in site.projects[site.invitations[id].project].members then Conflict
    else Success
  }

  function TransferVerdict(site: Site, actor: User, project: ProjectId, target: User): Status {
    if target == actor then Conflict
    else if !(project in site.projects && actor in site.projects[project].members && Active(site, actor)) then Forbidden
    else
      var p := site.projects[project];
      if p.owner.None? then Conflict
      else if p.owner != Some(actor) then Forbidden
      else if !(target in p.members && Active(site, target) && MembersManage in p.members[target]) then Conflict
      else Success
  }

  function RegisterVerdict(site: Site, actor: User, email: string): Status {
    if actor in site.accounts || exists u :: u in site.accounts && site.accounts[u].email == email
        then Conflict else Success
  }

  // ----- the effects

  function WithProject(site: Site, project: ProjectId, p: Project): Site {
    site.(projects := site.projects[project := p])
  }

  function Ended(site: Site, id: InvitationId, fate: Fate): Site
    requires id in site.invitations
  {
    var i := site.invitations[id];
    site.(invitations := site.invitations[id := i.(fate := fate)], pending := site.pending - {(i.project, i.email)})
  }

  function Audited(p: Project, entry: Entry): Project {
    p.(audit := p.audit + [entry])
  }

  function RevokedBy(site: Site, actor: User, project: ProjectId, id: InvitationId): Site
    requires id in site.invitations && project in site.projects
  {
    var i := site.invitations[id];
    WithProject(Ended(site, id, Revoked), project,
                Audited(site.projects[project], InvitationRevoke(actor, i.email, id, i.roles)))
  }

  function WithInvitation(site: Site, actor: User, project: ProjectId, email: string, roles: Roles,
                          id: InvitationId): Site
    requires project in site.projects
  {
    var i := Invitation(project, email, roles, actor, site.now + INVITATION_LIFETIME, Pending);
    WithProject(site.(invitations := site.invitations[id := i], pending := site.pending[(project, email) := id]),
                project, Audited(site.projects[project], InvitationCreate(actor, email, id, roles)))
  }

  /** The expired invitation that still holds the index entry, if any, is revoked first. */
  function WithoutExpired(site: Site, actor: User, project: ProjectId, email: string): (r: Site)
    requires project in site.projects
    ensures project in r.projects
  {
    if Expired(site, project, email) then RevokedBy(site, actor, project, Holder(site, project, email).value) else site
  }

  function AcceptedBy(site: Site, actor: User, id: InvitationId): Site
    requires id in site.invitations && site.invitations[id].project in site.projects
  {
    var i := site.invitations[id];
    var p := site.projects[i.project];
    WithProject(Ended(site, id, Accepted(actor)), i.project,
                Audited(p.(members := p.members[actor := i.roles]),
                        InvitationAccept(actor, actor, i.email, id, i.roles)))
  }

  function WithNewProject(site: Site, actor: User, project: ProjectId): Site {
    WithProject(site, project, Project(actor, Some(actor), map[actor := CREATOR_ROLES], [], []))
  }

  function WithRoles(site: Site, actor: User, project: ProjectId, subject: User, roles: Roles): Site
    requires project in site.projects && subject in site.projects[project].members && subject in site.accounts
  {
    var p := site.projects[project];
    WithProject(site, project, Audited(p.(members := p.members[subject := roles]),
                  RolesReplace(actor, subject, site.accounts[subject].email, p.members[subject], roles)))
  }

  function WithoutMember(site: Site, actor: User, project: ProjectId, subject: User): Site
    requires project in site.projects && subject in site.projects[project].members && subject in site.accounts
  {
    var p := site.projects[project];
    WithProject(site, project, Audited(p.(members := p.members - {subject}),
                  MemberRemove(actor, subject, site.accounts[subject].email, p.members[subject])))
  }

  function OwnedBy(site: Site, actor: User, project: ProjectId, target: User): Site
    requires project in site.projects
  {
    var p := site.projects[project];
    WithProject(site, project, p.(owner := Some(target), transfers := p.transfers + [Transfer(actor, target)]))
  }

  /** The transaction a step runs, and the site it leaves: unchanged unless the verdict is success. */
  function Apply(site: Site, step: Step): Site {
    match step
    case CreateProject(actor, project) =>
      if CreateVerdict(site, actor, project) == Success then WithNewProject(site, actor, project) else site
    case Invite(actor, project, email, roles, id) =>
      if InviteVerdict(site, actor, project, email, roles, id) == Success
      then WithInvitation(WithoutExpired(site, actor, project, email), actor, project, email, roles, id) else site
    case RevokeInvitation(actor, project, id) =>
      if RevokeVerdict(site, actor, project, id) == Success then RevokedBy(site, actor, project, id) else site
    case ReplaceRoles(actor, project, subject, roles) =>
      if ReplaceVerdict(site, actor, project, subject, roles) == Success
      then WithRoles(site, actor, project, subject, roles) else site
    case RemoveMember(actor, project, subject) =>
      if RemoveVerdict(site, actor, project, subject) == Success
          then WithoutMember(site, actor, project, subject) else site
    case Accept(actor, id) =>
      if AcceptVerdict(site, actor, id) == Success then AcceptedBy(site, actor, id) else site
    case TransferOwnership(actor, project, target) =>
      if TransferVerdict(site, actor, project, target) == Success then OwnedBy(site, actor, project, target) else site
    case Register(actor, email) =>
      if RegisterVerdict(site, actor, email) == Success
      then site.(accounts := site.accounts[actor := Account(email, true)]) else site
    case SetActive(actor, active) =>
      if actor in site.accounts
      then site.(accounts := site.accounts[actor := site.accounts[actor].(active := active)]) else site
    case Tick(seconds) => site.(now := site.now + seconds)
  }
}
