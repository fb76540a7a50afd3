/** What holds over every run of membership transactions, from a site without projects. */
module MembershipSafety {
  import opened Options
  import opened Membership

  // ----- replaying the audit

  /** An open invitation as the audit shows it. */
  datatype Offer = Offer(email: string, roles: Roles)

  datatype Ledger = Ledger(members: map<User, Roles>, offers: map<InvitationId, Offer>)

  /** One audit row read back. Its recorded previous roles, offer and subject must be those of the ledger
      reached so far. */
  function ReadBack(ledger: Ledger, e: Entry): Option<Ledger> {
    match e
    case InvitationCreate(_, email, id, granted) =>
      if id in ledger.offers then None else Some(ledger.(offers := ledger.offers[id := Offer(email, granted)]))
    case InvitationRevoke(_, email, id, previous) =>
      if id in ledger.offers && ledger.offers[id] == Offer(email, previous)
      then Some(ledger.(offers := ledger.offers - {id})) else None
    case InvitationAccept(actor, subject, email, id, granted) =>
      if actor == subject && subject !in ledger.members && id in ledger.offers
          && ledger.offers[id] == Offer(email, granted)
      then Some(Ledger(ledger.members[subject := granted], ledger.offers - {id})) else None
    case RolesReplace(_, subject, _, previous, granted) =>
      if subject in ledger.members && ledger.members[subject] == previous && previous != granted
      then Some(ledger.(members := ledger.members[subject := granted])) else None
    case MemberRemove(_, subject, _, previous) =>
      if subject in ledger.members && ledger.members[subject] == previous
      then Some(ledger.(members := ledger.members - {subject})) else None
  }

  /** The whole audit, oldest row first, from the creator's initial grant. */
  function Replay(creator: User, audit: seq<Entry>): Option<Ledger> {
    if audit == [] then Some(Ledger(map[creator := CREATOR_ROLES], map[]))
    else match Replay(creator, audit[..|audit| - 1])
      case None => None
      case Some(ledger) => ReadBack(ledger, audit[|audit| - 1])
  }

  function ReplayOwner(creator: User, transfers: seq<Transfer>): Option<User> {
    if transfers == [] then Some(creator)
    else
      var last := transfers[|transfers| - 1];
      if ReplayOwner(creator, transfers[..|transfers| - 1]) == Some(last.from) && last.from != last.to
      then Some(last.to) else None
  }

  function Offers(invitations: map<InvitationId, Invitation>, project: ProjectId): map<InvitationId, Offer> {
    map id | id in invitations && invitations[id].project == project && invitations[id].fate.Pending? ::
      Offer(invitations[id].email, invitations[id].roles)
  }

  // ----- the invariant

  ghost predicate OwnerManages(p: Project) {
    && p.owner.Some? && p.owner.value in p.members && MembersManage in p.members[p.owner.value]
    && ReplayOwner(p.creator, p.transfers) == p.owner
  }

  ghost predicate WithinCeiling(p: Project) {
    forall u <- p.members :: p.members[u] <= CREATOR_ROLES
  }

  /** The audit rebuilds the membership table and the open invitations. */
  ghost predicate Rebuilds(p: Project, offers: map<InvitationId, Offer>) {
    Replay(p.creator, p.audit) == Some(Ledger(p.members, offers))
  }

  ghost predicate Sound(p: Project, offers: map<InvitationId, Offer>) {
    OwnerManages(p) && WithinCeiling(p) && Rebuilds(p, offers)
  }

  ghost predicate ProjectsSound(projects: map<ProjectId, Project>, invitations: map<InvitationId, Invitation>) {
    forall p <- projects :: Sound(projects[p], Offers(invitations, p))
  }

  ghost predicate InvitationsSound(invitations: map<InvitationId, Invitation>) {
    forall id <- invitations :: invitations[id].roles <= CREATOR_ROLES
  }

  ghost predicate WithinQuota(site: Site) {
    forall u :: |Created(site, u)| <= site.quota
  }

  ghost predicate Inv(site: Site) {
    && Linked(site) && WithinQuota(site)
    && ProjectsSound(site.projects, site.invitations) && InvitationsSound(site.invitations)
  }

  lemma ReplaySnoc(creator: User, audit: seq<Entry>, e: Entry)
    ensures Replay(creator, audit + [e]) ==
            match Replay(creator, audit) case None => None case Some(ledger) => ReadBack(ledger, e)
  {
    assert (audit + [e])[..|audit|] == audit;
  }

  // ----- one project changes, the others do not

  lemma EndedOffers(invitations: map<InvitationId, Invitation>, id: InvitationId, fate: Fate)
    requires id in invitations && !fate.Pending?
    ensures var after := invitations[id := invitations[id].(fate := fate)];
            && (forall p :: p != invitations[id].project ==> Offers(after, p) == Offers(invitations, p))
            && Offers(after, invitations[id].project) == Offers(invitations, invitations[id].project) - {id}
  {
    var after := invitations[id := invitations[id].(fate := fate)];
    forall p | p != invitations[id].project ensures Offers(after, p) == Offers(invitations, p) {
    }
  }

  lemma AddedOffers(invitations: map<InvitationId, Invitation>, id: InvitationId, i: Invitation)
    requires id !in invitations && i.fate.Pending?
    ensures forall p :: p != i.project ==> Offers(invitations[id := i], p) == Offers(invitations, p)
    ensures Offers(invitations[id := i], i.project) == Offers(invitations, i.project)[id := Offer(i.email, i.roles)]
  {
    forall p | p != i.project ensures Offers(invitations[id := i], p) == Offers(invitations, p) {
    }
  }

  lemma OneProjectSound(projects: map<ProjectId, Project>, before: map<InvitationId, Invitation>,
                        project: ProjectId, p': Project, after: map<InvitationId, Invitation>)
    requires ProjectsSound(projects, before)
    requires forall q <- projects :: q != project ==> Offers(after, q) == Offers(before, q)
    requires Sound(p', Offers(after, project))
    ensures ProjectsSound(projects[project := p'], after)
  {
    var projects' := projects[project := p'];
    forall q | q in projects' ensures Sound(projects'[q], Offers(after, q)) {
      if q != project { assert Sound(projects[q], Offers(before, q)); }
    }
  }

  lemma SameCreators(site: Site, site': Site)
    requires WithinQuota(site)
    requires site'.projects.Keys == site.projects.Keys && site'.quota == site.quota
    requires forall p <- site.projects :: site'.projects[p].creator == site.projects[p].creator
    ensures WithinQuota(site')
  {
    forall u ensures |Created(site', u)| <= site'.quota {
      assert Created(site', u) == Created(site, u);
    }
  }

  lemma EndedLinked(site: Site, id: InvitationId, fate: Fate)
    requires Linked(site) && id in site.invitations && site.invitations[id].fate.Pending? && !fate.Pending?
    ensures Linked(Ended(site, id, fate))
  {
  }

  lemma UpdatedLinked(site: Site, project: ProjectId, p': Project)
    requires Linked(site) && p'.members.Keys <= site.accounts.Keys
    ensures Linked(WithProject(site, project, p'))
  {
  }

  /** What is left to show when a transaction changes invitations and one existing project. */
  lemma OneProjectKeeps(site: Site, site': Site, project: ProjectId, p': Project)
    requires Inv(site) && project in site.projects && p'.creator == site.projects[project].creator
    requires site'.quota == site.quota && site'.projects == site.projects[project := p']
    requires Linked(site') && InvitationsSound(site'.invitations)
    requires forall q <- site.projects :: q != project ==> Offers(site'.invitations, q) == Offers(site.invitations, q)
    requires Sound(p', Offers(site'.invitations, project))
    ensures Inv(site')
  {
    OneProjectSound(site.projects, site.invitations, project, p', site'.invitations);
    SameCreators(site, site');
  }

  /** A transaction that only rewrites one project's row set. */
  lemma RewriteKeeps(site: Site, project: ProjectId, p': Project)
    requires Inv(site) && project in site.projects && p'.creator == site.projects[project].creator
    requires p'.members.Keys <= site.accounts.Keys
    requires Sound(p', Offers(site.invitations, project))
    ensures Inv(WithProject(site, project, p'))
  {
    UpdatedLinked(site, project, p');
    OneProjectSound(site.projects, site.invitations, project, p', site.invitations);
    SameCreators(site, WithProject(site, project, p'));
  }

  /** A transaction that ends an invitation and rewrites its project. */
  lemma EndKeeps(site: Site, id: InvitationId, fate: Fate, p': Project)
    requires Inv(site) && id in site.invitations && site.invitations[id].fate.Pending? && !fate.Pending?
    requires var project := site.invitations[id].project;
             && p'.creator == site.projects[project].creator && p'.members.Keys <= site.accounts.Keys
             && Sound(p', Offers(site.invitations, project) - {id})
    ensures Inv(WithProject(Ended(site, id, fate), site.invitations[id].project, p'))
  {
    var project := site.invitations[id].project;
    var ended := Ended(site, id, fate);
    EndedLinked(site, id, fate);
    UpdatedLinked(ended, project, p');
    EndedOffers(site.invitations, id, fate);
    OneProjectKeeps(site, WithProject(ended, project, p'), project, p');
  }

  // ----- each transaction keeps the invariant

  lemma NewProjectSound(actor: User)
    ensures Sound(Project(actor, Some(actor), map[actor := CREATOR_ROLES], [], []), map[])
  {
  }

  lemma CreateKeeps(site: Site, actor: User, project: ProjectId)
    requires Inv(site) && CreateVerdict(site, actor, project) == Success
    ensures Inv(WithNewProject(site, actor, project))
  {
    var p := Project(actor, Some(actor), map[actor := CREATOR_ROLES], [], []);
    NewProjectSound(actor);
    UpdatedLinked(site, project, p);
    NoOffersYet(site, project);
    OneProjectSound(site.projects, site.invitations, project, p, site.invitations);
    CreateKeepsQuota(site, actor, project);
  }

  lemma NoOffersYet(site: Site, project: ProjectId)
    requires Linked(site) && project !in site.projects
    ensures Offers(site.invitations, project) == map[]
  {
  }

  lemma CreatedAfter(site: Site, actor: User, project: ProjectId, user: User)
    requires project !in site.projects
    ensures Created(WithNewProject(site, actor, project), user) ==
            if user == actor then Created(site, user) + {project} else Created(site, user)
  {
    var site' := WithNewProject(site, actor, project);
    assert forall p <- site.projects :: p != project && site'.projects[p] == site.projects[p];
  }

  lemma CreateKeepsQuota(site: Site, actor: User, project: ProjectId)
    requires WithinQuota(site) && CreateVerdict(site, actor, project) == Success
    ensures WithinQuota(WithNewProject(site, actor, project))
  {
    var site' := WithNewProject(site, actor, project);
    forall u ensures |Created(site', u)| <= site'.quota {
      CreatedAfter(site, actor, project, u);
    }
  }

  lemma RevokeKeeps(site: Site, actor: User, project: ProjectId, id: InvitationId)
    requires Inv(site) && id in site.invitations && site.invitations[id].fate.Pending?
        && site.invitations[id].project == project
    ensures Inv(RevokedBy(site, actor, project, id))
  {
    var i := site.invitations[id];
    var p, e := site.projects[project], InvitationRevoke(actor, i.email, id, i.roles);
    assert Sound(p, Offers(site.invitations, project));
    ReplaySnoc(p.creator, p.audit, e);
    EndKeeps(site, id, Revoked, Audited(p, e));
  }

  lemma InvitedSound(p: Project, offers: map<InvitationId, Offer>, actor: User, email: string, roles: Roles,
                     id: InvitationId)
    requires Sound(p, offers) && id !in offers
    ensures Sound(Audited(p, InvitationCreate(actor, email, id, roles)), offers[id := Offer(email, roles)])
  {
    ReplaySnoc(p.creator, p.audit, InvitationCreate(actor, email, id, roles));
  }

  lemma InvitationOffers(site: Site, actor: User, project: ProjectId, email: string, roles: Roles, id: InvitationId)
    requires ProjectsSound(site.projects, site.invitations) && project in site.projects && id !in site.invitations
    ensures var site' := WithInvitation(site, actor, project, email, roles, id);
            && (forall q <- site.projects :: q != project ==>
                  Offers(site'.invitations, q) == Offers(site.invitations, q))
            && Sound(site'.projects[project], Offers(site'.invitations, project))
  {
    var site' := WithInvitation(site, actor, project, email, roles, id);
    InvitedSound(site.projects[project], Offers(site.invitations, project), actor, email, roles, id);
    AddedOffers(site.invitations, id, site'.invitations[id]);
  }

  lemma InvitationKeeps(site: Site, actor: User, project: ProjectId, email: string, roles: Roles, id: InvitationId)
    requires Inv(site) && project in site.projects && actor in site.accounts && roles <= CREATOR_ROLES
    requires id !in site.invitations && (project, email) !in site.pending
    ensures Inv(WithInvitation(site, actor, project, email, roles, id))
  {
    var site' := WithInvitation(site, actor, project, email, roles, id);
    InvitationOffers(site, actor, project, email, roles, id);
    InvitationLinked(site, actor, project, email, roles, id);
    OneProjectKeeps(site, site', project, site'.projects[project]);
  }

  lemma InvitationLinked(site: Site, actor: User, project: ProjectId, email: string, roles: Roles, id: InvitationId)
    requires Linked(site) && project in site.projects && actor in site.accounts
    requires id !in site.invitations && (project, email) !in site.pending
    ensures Linked(WithInvitation(site, actor, project, email, roles, id))
  {
  }

  lemma InviteKeeps(site: Site, actor: User, project: ProjectId, email: string, roles: Roles, id: InvitationId)
    requires Inv(site) && InviteVerdict(site, actor, project, email, roles, id) == Success
    ensures Inv(WithInvitation(WithoutExpired(site, actor, project, email), actor, project, email, roles, id))
  {
    assert Sound(site.projects[project], Offers(site.invitations, project));
    if Expired(site, project, email) { RevokeKeeps(site, actor, project, site.pending[(project, email)]); }
    InvitationKeeps(WithoutExpired(site, actor, project, email), actor, project, email, roles, id);
  }

  lemma AcceptedSound(p: Project, offers: map<InvitationId, Offer>, actor: User, id: InvitationId)
    requires Sound(p, offers) && actor !in p.members && id in offers && offers[id].roles <= CREATOR_ROLES
    ensures Sound(Audited(p.(members := p.members[actor := offers[id].roles]),
                          InvitationAccept(actor, actor, offers[id].email, id, offers[id].roles)), offers - {id})
  {
    ReplaySnoc(p.creator, p.audit, InvitationAccept(actor, actor, offers[id].email, id, offers[id].roles));
  }

  lemma AcceptKeeps(site: Site, actor: User, id: InvitationId)
    requires Inv(site) && AcceptVerdict(site, actor, id) == Success
    ensures Inv(AcceptedBy(site, actor, id))
  {
    var i := site.invitations[id];
    var p, e := site.projects[i.project], InvitationAccept(actor, actor, i.email, id, i.roles);
    AcceptedSound(p, Offers(site.invitations, i.project), actor, id);
    EndKeeps(site, id, Accepted(actor), Audited(p.(members := p.members[actor := i.roles]), e));
  }

  lemma ReplaceKeeps(site: Site, actor: User, project: ProjectId, subject: User, roles: Roles)
    requires Inv(site) && ReplaceVerdict(site, actor, project, subject, roles) == Success
    ensures Inv(WithRoles(site, actor, project, subject, roles))
  {
    var p := site.projects[project];
    var e := RolesReplace(actor, subject, site.accounts[subject].email, p.members[subject], roles);
    assert Sound(p, Offers(site.invitations, project));
    ReplaySnoc(p.creator, p.audit, e);
    RewriteKeeps(site, project, Audited(p.(members := p.members[subject := roles]), e));
  }

  lemma RemoveKeeps(site: Site, actor: User, project: ProjectId, subject: User)
    requires Inv(site) && RemoveVerdict(site, actor, project, subject) == Success
    ensures Inv(WithoutMember(site, actor, project, subject))
  {
    var p := site.projects[project];
    var e := MemberRemove(actor, subject, site.accounts[subject].email, p.members[subject]);
    assert Sound(p, Offers(site.invitations, project));
    ReplaySnoc(p.creator, p.audit, e);
    RewriteKeeps(site, project, Audited(p.(members := p.members - {subject}), e));
  }

  lemma TransferKeeps(site: Site, actor: User, project: ProjectId, target: User)
    requires Inv(site) && TransferVerdict(site, actor, project, target) == Success
    ensures Inv(OwnedBy(site, actor, project, target))
  {
    var p := site.projects[project];
    assert Sound(p, Offers(site.invitations, project));
    var transfers := p.transfers + [Transfer(actor, target)];
    assert transfers[..|p.transfers|] == p.transfers;
    RewriteKeeps(site, project, p.(owner := Some(target), transfers := transfers));
  }

  /** Accounts and the clock are not part of what the invariant reads, beyond who exists. */
  lemma AroundKeeps(site: Site, site': Site)
    requires Inv(site) && site.accounts.Keys <= site'.accounts.Keys
    requires site'.(now := site.now, accounts := site.accounts) == site
    ensures Inv(site')
  {
    SameCreators(site, site');
  }

  lemma InviteStepKeeps(site: Site, actor: User, project: ProjectId, email: string, roles: Roles, id: InvitationId)
    requires Inv(site)
    ensures Inv(Apply(site, Invite(actor, project, email, roles, id)))
  {
    if InviteVerdict(site, actor, project, email, roles, id) == Success {
      InviteKeeps(site, actor, project, email, roles, id);
      assert Apply(site, Invite(actor, project, email, roles, id))
          == WithInvitation(WithoutExpired(site, actor, project, email), actor, project, email, roles, id);
    } else {
      assert Apply(site, Invite(actor, project, email, roles, id)) == site;
    }
  }

  lemma RevokeStepKeeps(site: Site, actor: User, project: ProjectId, id: InvitationId)
    requires Inv(site)
    ensures Inv(Apply(site, RevokeInvitation(actor, project, id)))
  {
    if RevokeVerdict(site, actor, project, id) == Success {
      RevokeKeeps(site, actor, project, id);
      assert Apply(site, RevokeInvitation(actor, project, id)) == RevokedBy(site, actor, project, id);
    } else {
      assert Apply(site, RevokeInvitation(actor, project, id)) == site;
    }
  }

  lemma AcceptStepKeeps(site: Site, actor: User, id: InvitationId)
    requires Inv(site)
    ensures Inv(Apply(site, Accept(actor, id)))
  {
    if AcceptVerdict(site, actor, id) == Success {
      AcceptKeeps(site, actor, id);
      assert Apply(site, Accept(actor, id)) == AcceptedBy(site, actor, id);
    } else {
      assert Apply(site, Accept(actor, id)) == site;
    }
  }

  lemma ReplaceStepKeeps(site: Site, actor: User, project: ProjectId, subject: User, roles: Roles)
    requires Inv(site)
    ensures Inv(Apply(site, ReplaceRoles(actor, project, subject, roles)))
  {
    if ReplaceVerdict(site, actor, project, subject, roles) == Success {
      ReplaceKeeps(site, actor, project, subject, roles);
      assert Apply(site, ReplaceRoles(actor, project, subject, roles))
          == WithRoles(site, actor, project, subject, roles);
    } else {
      assert Apply(site, ReplaceRoles(actor, project, subject, roles)) == site;
    }
  }

  lemma RemoveStepKeeps(site: Site, actor: User, project: ProjectId, subject: User)
    requires Inv(site)
    ensures Inv(Apply(site, RemoveMember(actor, project, subject)))
  {
    if RemoveVerdict(site, actor, project, subject) == Success {
      RemoveKeeps(site, actor, project, subject);
      assert Apply(site, RemoveMember(actor, project, subject)) == WithoutMember(site, actor, project, subject);
    } else {
      assert Apply(site, RemoveMember(actor, project, subject)) == site;
    }
  }

  lemma CreateStepKeeps(site: Site, actor: User, project: ProjectId)
    requires Inv(site)
    ensures Inv(Apply(site, CreateProject(actor, project)))
  {
    if CreateVerdict(site, actor, project) == Success {
      CreateKeeps(site, actor, project);
      assert Apply(site, CreateProject(actor, project)) == WithNewProject(site, actor, project);
    } else {
      assert Apply(site, CreateProject(actor, project)) == site;
    }
  }

  lemma TransferStepKeeps(site: Site, actor: User, project: ProjectId, target: User)
    requires Inv(site)
    ensures Inv(Apply(site, TransferOwnership(actor, project, target)))
  {
    if TransferVerdict(site, actor, project, target) == Success {
      TransferKeeps(site, actor, project, target);
      assert Apply(site, TransferOwnership(actor, project, target)) == OwnedBy(site, actor, project, target);
    } else {
      assert Apply(site, TransferOwnership(actor, project, target)) == site;
    }
  }

  lemma StepKeeps(site: Site, step: Step)
    requires Inv(site)
    ensures Inv(Apply(site, step))
  {
    match step
    case Invite(actor, project, email, roles, id) => InviteStepKeeps(site, actor, project, email, roles, id);
    case RevokeInvitation(actor, project, id) => RevokeStepKeeps(site, actor, project, id);
    case Accept(actor, id) => AcceptStepKeeps(site, actor, id);
    case ReplaceRoles(actor, project, subject, roles) => ReplaceStepKeeps(site, actor, project, subject, roles);
    case RemoveMember(actor, project, subject) => RemoveStepKeeps(site, actor, project, subject);
    case CreateProject(actor, project) => CreateStepKeeps(site, actor, project);
    case TransferOwnership(actor, project, target) => TransferStepKeeps(site, actor, project, target);
    case _ => AroundKeeps(site, Apply(site, step));
  }

  // ----- runs

  function After(site: Site, steps: seq<Step>): Site {
    if steps == [] then site else Apply(After(site, steps[..|steps| - 1]), steps[|steps| - 1])
  }

  lemma {:induction false} RunKeeps(site: Site, steps: seq<Step>)
    requires Inv(site)
    ensures Inv(After(site, steps))
  {
    if steps != [] {
      RunKeeps(site, steps[..|steps| - 1]);
      StepKeeps(After(site, steps[..|steps| - 1]), steps[|steps| - 1]);
    }
  }

  function NoProjects(quota: nat, now: int, accounts: map<User, Account>): Site {
    Site(quota, now, accounts, map[], map[], map[])
  }

  lemma NoProjectsInv(quota: nat, now: int, accounts: map<User, Account>)
    ensures Inv(NoProjects(quota, now, accounts))
  {
    forall u ensures |Created(NoProjects(quota, now, accounts), u)| <= quota {
      assert Created(NoProjects(quota, now, accounts), u) == {};
    }
  }

  /** Over every run, in every project: the owner is a member who manages members; nobody's roles exceed
      the creator's; replaying the audit from the creator's grant rebuilds the membership table and the
      open invitations; replaying the ownership audit gives the owner; and no account exceeds its quota. */
  lemma EveryRunIsSound(quota: nat, now: int, accounts: map<User, Account>, steps: seq<Step>)
    ensures var site := After(NoProjects(quota, now, accounts), steps);
            && (forall id <- site.projects ::
                  var p := site.projects[id];
                  && p.owner.Some? && p.owner.value in p.members && MembersManage in p.members[p.owner.value]
                  && (forall u <- p.members :: p.members[u] <= CREATOR_ROLES)
                  && Replay(p.creator, p.audit) == Some(Ledger(p.members, Offers(site.invitations, id)))
                  && ReplayOwner(p.creator, p.transfers) == p.owner)
            && (forall u :: |Created(site, u)| <= site.quota)
  {
    NoProjectsInv(quota, now, accounts);
    RunKeeps(NoProjects(quota, now, accounts), steps);
    var site := After(NoProjects(quota, now, accounts), steps);
    forall id | id in site.projects ensures Sound(site.projects[id], Offers(site.invitations, id)) {
    }
  }

  // ----- who can change a members:manage grant

  predicate Manages(site: Site, project: ProjectId, user: User) {
    && project in site.projects && user in site.projects[project].members
    && MembersManage in site.projects[project].members[user]
  }

  /** The step acts with the authority of the project's owner at that moment: the owner's own request, or
      the subject accepting what the owner offered. A new project's owner is its creator. */
  predicate ThroughOwner(site: Site, step: Step, project: ProjectId, user: User) {
    match step
    case CreateProject(actor, q) => q == project && actor == user && project !in site.projects
    case ReplaceRoles(actor, q, subject, _) =>
      q == project && subject == user && project in site.projects && site.projects[project].owner == Some(actor)
    case RemoveMember(actor, q, subject) =>
      q == project && subject == user && project in site.projects && site.projects[project].owner == Some(actor)
    case Accept(actor, id) =>
      && actor == user && id in site.invitations && site.invitations[id].project == project
      && project in site.projects && site.projects[project].owner == Some(site.invitations[id].inviter)
    case _ => false
  }

  lemma GrantChangesThroughOwner(site: Site, step: Step, project: ProjectId, user: User)
    requires Manages(Apply(site, step), project, user) != Manages(site, project, user)
    ensures ThroughOwner(site, step, project, user)
  {
    match step
    case Invite(actor, q, email, roles, id) => InviteLeavesMembers(site, actor, q, email, roles, id);
    case Accept(actor, id) => AcceptedGrant(site, actor, id, project, user);
    case ReplaceRoles(actor, q, subject, roles) => ReplacedGrant(site, actor, q, subject, roles, project, user);
    case RemoveMember(actor, q, subject) => RemovedGrant(site, actor, q, subject, project, user);
    case _ =>
  }

  lemma AcceptedGrant(site: Site, actor: User, id: InvitationId, project: ProjectId, user: User)
    requires AcceptVerdict(site, actor, id) == Success
    requires Manages(AcceptedBy(site, actor, id), project, user) != Manages(site, project, user)
    ensures ThroughOwner(site, Accept(actor, id), project, user)
  {
  }

  lemma ReplacedGrant(site: Site, actor: User, q: ProjectId, subject: User, roles: Roles, project: ProjectId,
                      user: User)
    requires ReplaceVerdict(site, actor, q, subject, roles) == Success
    requires Manages(WithRoles(site, actor, q, subject, roles), project, user) != Manages(site, project, user)
    ensures ThroughOwner(site, ReplaceRoles(actor, q, subject, roles), project, user)
  {
  }

  lemma RemovedGrant(site: Site, actor: User, q: ProjectId, subject: User, project: ProjectId, user: User)
    requires RemoveVerdict(site, actor, q, subject) == Success
    requires Manages(WithoutMember(site, actor, q, subject), project, user) != Manages(site, project, user)
    ensures ThroughOwner(site, RemoveMember(actor, q, subject), project, user)
  {
  }

  lemma InviteLeavesMembers(site: Site, actor: User, project: ProjectId, email: string, roles: Roles, id: InvitationId)
    ensures var site' := Apply(site, Invite(actor, project, email, roles, id));
            site'.projects.Keys == site.projects.Keys
            && forall p <- site.projects :: site'.projects[p].members == site.projects[p].members
  {
  }

  /** Over a whole run, a members:manage grant that differs at the end was changed by some step acting
      with the authority of whoever owned the project when it was taken. */
  lemma {:induction false} GrantsTraceToOwner(site: Site, steps: seq<Step>, project: ProjectId, user: User)
      returns (k: nat)
    requires Manages(After(site, steps), project, user) != Manages(site, project, user)
    ensures k < |steps| && ThroughOwner(After(site, steps[..k]), steps[k], project, user)
  {
    assert steps[..0] == [] && steps[..|steps|] == steps;
    k := FirstChange(seq(|steps| + 1, i requires 0 <= i <= |steps| => Manages(After(site, steps[..i]), project, user)));
    StepThroughOwner(site, steps, k, project, user);
  }

  lemma {:induction false} FirstChange(flags: seq<bool>) returns (k: nat)
    requires flags != [] && flags[0] != flags[|flags| - 1]
    ensures k + 1 < |flags| && flags[k] != flags[k + 1]
  {
    if flags[0] != flags[1] { return 0; }
    k := FirstChange(flags[1..]);
    k := k + 1;
  }

  lemma StepThroughOwner(site: Site, steps: seq<Step>, k: nat, project: ProjectId, user: User)
    requires k < |steps|
    requires Manages(After(site, steps[..k]), project, user) != Manages(After(site, steps[..k + 1]), project, user)
    ensures ThroughOwner(After(site, steps[..k]), steps[k], project, user)
  {
    assert steps[..k + 1][..k] == steps[..k];
    var before := After(site, steps[..k]);
    assert After(site, steps[..k + 1]) == Apply(before, steps[k]);
    GrantChangesThroughOwner(before, steps[k], project, user);
  }

  /** An invitation that offers members:manage is only ever created by the owner. */
  lemma ManagerOffersComeFromOwner(site: Site, step: Step, id: InvitationId)
    requires id !in site.invitations && id in Apply(site, step).invitations
    ensures step.Invite? && step.id == id && step.project in site.projects
    ensures Apply(site, step).invitations[id] ==
            Invitation(step.project, step.email, step.roles, step.actor, site.now + INVITATION_LIFETIME, Pending)
    ensures MembersManage in step.roles ==> site.projects[step.project].owner == Some(step.actor)
  {
  }

  /** Ownership moves only by the current owner's transfer to an active member who manages members. */
  lemma OwnershipMovesByOwner(site: Site, step: Step, project: ProjectId)
    requires project in site.projects
    requires Apply(site, step).projects[project].owner != site.projects[project].owner
    ensures step.TransferOwnership? && step.project == project && site.projects[project].owner == Some(step.actor)
    ensures Apply(site, step).projects[project].owner == Some(step.target)
    ensures Manager(site, project, step.target)
  {
  }

  // ----- what the audit records

  predicate Attributed(site: Site, step: Step, e: Entry) {
    && !step.Tick? && e.actor == step.actor
    && (!e.InvitationCreate? && !e.InvitationRevoke? ==>
          e.subject in site.accounts && site.accounts[e.subject].email == e.email)
  }

  ghost predicate AuditGrows(site: Site, step: Step, before: seq<Entry>, after: seq<Entry>) {
    before <= after && forall i :: |before| <= i < |after| ==> Attributed(site, step, after[i])
  }

  /** The audit only grows; each new row names the acting account, and its subject by its address. */
  lemma AuditGrowsAttributed(site: Site, step: Step, project: ProjectId)
    requires project in site.projects
    ensures project in Apply(site, step).projects
    ensures AuditGrows(site, step, site.projects[project].audit, Apply(site, step).projects[project].audit)
  {
    if step.Invite? { InviteAttributed(site, step, project); }
  }

  lemma InviteAttributed(site: Site, step: Step, project: ProjectId)
    requires project in site.projects && step.Invite?
    ensures project in Apply(site, step).projects
    ensures AuditGrows(site, step, site.projects[project].audit, Apply(site, step).projects[project].audit)
  {
  }

  /** The audit determines the tables: wherever two reachable sites agree on a project's creator and audit,
      they agree on its membership table and its open invitations. */
  lemma AuditDeterminesTables(site: Site, site': Site, project: ProjectId)
    requires Inv(site) && Inv(site') && project in site.projects && project in site'.projects
    requires site'.projects[project].creator == site.projects[project].creator
    requires site'.projects[project].audit == site.projects[project].audit
    ensures site'.projects[project].members == site.projects[project].members
    ensures Offers(site'.invitations, project) == Offers(site.invitations, project)
  {
    assert Sound(site.projects[project], Offers(site.invitations, project));
    assert Sound(site'.projects[project], Offers(site'.invitations, project));
  }

  // ----- all of it for one step

  /** What every step leaves: the invariant, grants changed only through the owner, and an audit that only
      grew, by rows that name the actor. */
  ghost predicate Lawful(site: Site, step: Step, site': Site) {
    && Inv(site')
    && (forall p: ProjectId, u: User :: Manages(site', p, u) != Manages(site, p, u) ==> ThroughOwner(site, step, p, u))
    && (forall p <- site.projects ::
          p in site'.projects && AuditGrows(site, step, site.projects[p].audit, site'.projects[p].audit))
  }

  lemma EveryStepIsLawful(site: Site, step: Step)
    requires Inv(site)
    ensures Lawful(site, step, Apply(site, step))
  {
    StepKeeps(site, step);
    var site' := Apply(site, step);
    forall p: ProjectId, u: User | Manages(site', p, u) != Manages(site, p, u) ensures ThroughOwner(site, step, p, u) {
      GrantChangesThroughOwner(site, step, p, u);
    }
    forall p | p in site.projects
      ensures p in site'.projects && AuditGrows(site, step, site.projects[p].audit, site'.projects[p].audit)
    {
      AuditGrowsAttributed(site, step, p);
    }
  }
}
