/** What the membership transactions allow and do, told from the tables alone: when each succeeds, what it then
    changes, and that nobody hands out, offers, revokes or removes what they do not hold. */
module MembershipLaws {
  import opened Options
  import opened Membership

  /** A member's roles; none for anybody else. */
  function RolesOf(site: Site, project: ProjectId, user: User): set<Role> {
    if project in site.projects && user in site.projects[project].members
        then site.projects[project].members[user] else {}
  }

  predicate IsOwner(site: Site, project: ProjectId, user: User) {
    project in site.projects && site.projects[project].owner == Some(user)
  }

  predicate IsActive(site: Site, user: User) {
    user in site.accounts && site.accounts[user].active
  }

  // ----- when each transaction succeeds

  ghost predicate MayCreate(site: Site, actor: User, project: ProjectId) {
    && IsActive(site, actor) && project !in site.projects
    && |set p | p in site.projects && site.projects[p].creator == actor| < site.quota
  }

  /** A manager of the project who holds all the roles in question; members:manage only passes the owner. */
  predicate Holds(site: Site, project: ProjectId, actor: User, roles: set<Role>, current: set<Role>) {
    && IsActive(site, actor) && MembersManage in RolesOf(site, project, actor) && roles <= RolesOf(site, project, actor)
    && (MembersManage in roles || MembersManage in current ==> IsOwner(site, project, actor))
  }

  /** No member has the address, and no invitation for it is open and unexpired. */
  ghost predicate AddressIsFree(site: Site, project: ProjectId, email: string) {
    && (forall u :: u in site.accounts && site.accounts[u].email == email ==> RolesOf(site, project, u) == {})
    && (forall id <- site.invitations ::
          site.invitations[id].project == project && site.invitations[id].email == email
              && site.invitations[id].fate.Pending?
          ==> site.invitations[id].expires <= site.now)
  }

  lemma CreateSucceedsExactly(site: Site, actor: User, project: ProjectId)
    ensures CreateVerdict(site, actor, project) == Success <==> MayCreate(site, actor, project)
  {
    assert Created(site, actor) == set p | p in site.projects && site.projects[p].creator == actor;
  }

  ghost predicate MayInvite(site: Site, actor: User, project: ProjectId, email: string, roles: Roles,
                            id: InvitationId) {
    Holds(site, project, actor, roles, {}) && AddressIsFree(site, project, email) && id !in site.invitations
  }

  predicate MayRevoke(site: Site, actor: User, project: ProjectId, id: InvitationId) {
    && id in site.invitations && site.invitations[id].project == project && site.invitations[id].fate.Pending?
    && Holds(site, project, actor, site.invitations[id].roles, {})
  }

  predicate MayReplace(site: Site, actor: User, project: ProjectId, subject: User, roles: Roles) {
    && RolesOf(site, project, subject) != {} && RolesOf(site, project, subject) != roles
    && !IsOwner(site, project, subject) && Holds(site, project, actor, roles, RolesOf(site, project, subject))
  }

  predicate MayRemove(site: Site, actor: User, project: ProjectId, subject: User) {
    && RolesOf(site, project, subject) != {} && !IsOwner(site, project, subject)
    && Holds(site, project, actor, RolesOf(site, project, subject), {})
  }

  /** Acceptance needs an open, unexpired invitation for the account's own address, whose inviter could make it
      again now. */
  predicate MayAccept(site: Site, actor: User, id: InvitationId) {
    && id in site.invitations && site.invitations[id].fate.Pending? && site.invitations[id].expires > site.now
    && IsActive(site, actor) && site.accounts[actor].email == site.invitations[id].email
    && var i := site.invitations[id];
       && i.project in site.projects && actor !in site.projects[i.project].members
       && Holds(site, i.project, i.inviter, i.roles, {})
  }

  predicate MayTransfer(site: Site, actor: User, project: ProjectId, target: User) {
    && actor != target && IsOwner(site, project, actor) && IsActive(site, actor) && IsActive(site, target)
    && RolesOf(site, project, actor) != {} && MembersManage in RolesOf(site, project, target)
  }

  lemma InviteSucceedsExactly(site: Site, actor: User, project: ProjectId, email: string, roles: Roles,
                              id: InvitationId)
    requires Linked(site)
    ensures InviteVerdict(site, actor, project, email, roles, id) == Success <==>
            MayInvite(site, actor, project, email, roles, id)
  {
    if Manager(site, project, actor) {
      assert HasMember(site, project, email) <==>
             !(forall u :: u in site.accounts && site.accounts[u].email == email ==> RolesOf(site, project, u) == {});
    }
  }

  lemma RevokeSucceedsExactly(site: Site, actor: User, project: ProjectId, id: InvitationId)
    ensures RevokeVerdict(site, actor, project, id) == Success <==> MayRevoke(site, actor, project, id)
  {
  }

  lemma ReplaceSucceedsExactly(site: Site, actor: User, project: ProjectId, subject: User, roles: Roles)
    requires Linked(site)
    ensures ReplaceVerdict(site, actor, project, subject, roles) == Success <==>
            MayReplace(site, actor, project, subject, roles)
  {
  }

  lemma RemoveSucceedsExactly(site: Site, actor: User, project: ProjectId, subject: User)
    requires Linked(site)
    ensures RemoveVerdict(site, actor, project, subject) == Success <==> MayRemove(site, actor, project, subject)
  {
  }

  lemma AcceptSucceedsExactly(site: Site, actor: User, id: InvitationId)
    ensures AcceptVerdict(site, actor, id) == Success <==> MayAccept(site, actor, id)
  {
  }

  lemma TransferSucceedsExactly(site: Site, actor: User, project: ProjectId, target: User)
    ensures TransferVerdict(site, actor, project, target) == Success <==> MayTransfer(site, actor, project, target)
  {
  }

  // ----- what somebody without authority learns

  /** Whoever is not an active member with members:manage is forbidden, whatever the rest of the request says. */
  lemma NonManagersAreForbidden(site: Site, actor: User, project: ProjectId, email: string, roles: Roles,
                                id: InvitationId, subject: User)
    requires Linked(site) && !(IsActive(site, actor) && MembersManage in RolesOf(site, project, actor))
    ensures InviteVerdict(site, actor, project, email, roles, id) == Forbidden
    ensures RevokeVerdict(site, actor, project, id) == Forbidden
    ensures ReplaceVerdict(site, actor, project, subject, roles) == Forbidden
    ensures RemoveVerdict(site, actor, project, subject) == Forbidden
  {
  }

  /** To a manager, a missing subject or open invitation is not found, and the owner or an unchanged role set is a
      conflict, before any question of the manager's own roles. */
  lemma ManagersLearnWhatIsWrong(site: Site, actor: User, project: ProjectId, roles: Roles, id: InvitationId,
                                 subject: User)
    requires Linked(site) && IsActive(site, actor) && MembersManage in RolesOf(site, project, actor)
    ensures RolesOf(site, project, subject) == {} ==>
              ReplaceVerdict(site, actor, project, subject, roles) == RemoveVerdict(site, actor, project, subject)
                  == NotFound
    ensures IsOwner(site, project, subject) && RolesOf(site, project, subject) != {} ==>
              ReplaceVerdict(site, actor, project, subject, roles) == RemoveVerdict(site, actor, project, subject)
                  == Conflict
    ensures RolesOf(site, project, subject) == roles
        ==> ReplaceVerdict(site, actor, project, subject, roles) == Conflict
    ensures !(id in site.invitations && site.invitations[id].project == project
              && site.invitations[id].fate.Pending?) ==>
              RevokeVerdict(site, actor, project, id) == NotFound
  {
  }

  /** A refused acceptance says no more than that the invitation is unavailable, except to a member under its own
      address. */
  lemma RefusedAcceptanceIsUnavailable(site: Site, actor: User, id: InvitationId)
    ensures AcceptVerdict(site, actor, id) in {Success, NotFound, Conflict}
    ensures AcceptVerdict(site, actor, id) == Conflict ==>
              id in site.invitations && RolesOf(site, site.invitations[id].project, actor) != {}
              && actor in site.accounts && site.accounts[actor].email == site.invitations[id].email
  {
  }

  // ----- what a successful transaction changes

  /** All projects other than this one are as before. */
  ghost predicate OnlyProject(site: Site, site': Site, project: ProjectId) {
    && site'.projects.Keys == site.projects.Keys + {project}
    && (forall p <- site.projects :: p != project ==> site'.projects[p] == site.projects[p])
    && site'.accounts == site.accounts && site'.now == site.now && site'.quota == site.quota
  }

  lemma CreateDoes(site: Site, actor: User, project: ProjectId)
    requires CreateVerdict(site, actor, project) == Success
    ensures var site' := Apply(site, CreateProject(actor, project));
            && OnlyProject(site, site', project) && site'.invitations == site.invitations
            && IsOwner(site', project, actor) && site'.projects[project].creator == actor
            && site'.projects[project].members == map[actor := CREATOR_ROLES]
  {
  }

  lemma ReplaceDoes(site: Site, actor: User, project: ProjectId, subject: User, roles: Roles)
    requires ReplaceVerdict(site, actor, project, subject, roles) == Success
    ensures var site' := Apply(site, ReplaceRoles(actor, project, subject, roles));
            && OnlyProject(site, site', project) && site'.invitations == site.invitations
            && site'.projects[project].owner == site.projects[project].owner
            && site'.projects[project].members == site.projects[project].members[subject := roles]
  {
  }

  lemma RemoveDoes(site: Site, actor: User, project: ProjectId, subject: User)
    requires RemoveVerdict(site, actor, project, subject) == Success
    ensures var site' := Apply(site, RemoveMember(actor, project, subject));
            && OnlyProject(site, site', project) && site'.invitations == site.invitations
            && site'.projects[project].owner == site.projects[project].owner
            && site'.projects[project].members == map u | u in site.projects[project].members && u != subject ::
                                                    site.projects[project].members[u]
  {
  }

  lemma TransferDoes(site: Site, actor: User, project: ProjectId, target: User)
    requires TransferVerdict(site, actor, project, target) == Success
    ensures var site' := Apply(site, TransferOwnership(actor, project, target));
            && OnlyProject(site, site', project) && site'.invitations == site.invitations
            && IsOwner(site', project, target)
            && site'.projects[project].members == site.projects[project].members
            && site'.projects[project].audit == site.projects[project].audit
  {
  }

  lemma RevokeDoes(site: Site, actor: User, project: ProjectId, id: InvitationId)
    requires RevokeVerdict(site, actor, project, id) == Success
    ensures var site' := Apply(site, RevokeInvitation(actor, project, id));
            && OnlyProject(site, site', project)
            && site'.projects[project].members == site.projects[project].members
            && site'.invitations == site.invitations[id := site.invitations[id].(fate := Revoked)]
  {
  }

  lemma AcceptDoes(site: Site, actor: User, id: InvitationId)
    requires AcceptVerdict(site, actor, id) == Success
    ensures var site', i := Apply(site, Accept(actor, id)), site.invitations[id];
            && OnlyProject(site, site', i.project)
            && site'.projects[i.project].owner == site.projects[i.project].owner
            && site'.projects[i.project].members == site.projects[i.project].members[actor := i.roles]
            && site'.invitations == site.invitations[id := i.(fate := Accepted(actor))]
  {
  }

  /** The revocation of the expired invitation for an address, if there is one. */
  lemma WithoutExpiredDoes(site: Site, actor: User, project: ProjectId, email: string)
    requires Linked(site) && project in site.projects
    ensures var site' := WithoutExpired(site, actor, project, email);
            && OnlyProject(site, site', project)
            && site'.projects[project].members == site.projects[project].members
            && site'.projects[project].owner == site.projects[project].owner
            && site'.invitations.Keys == site.invitations.Keys
            && (forall x <- site.invitations ::
                  site'.invitations[x] ==
                  var i := site.invitations[x];
                  if i.project == project && i.email == email && i.fate.Pending? && i.expires <= site.now
                  then i.(fate := Revoked) else i)
  {
  }

  /** A new invitation is open for seven days; at most the expired one for the same address is revoked. */
  lemma InviteDoes(site: Site, actor: User, project: ProjectId, email: string, roles: Roles, id: InvitationId)
    requires Linked(site) && InviteVerdict(site, actor, project, email, roles, id) == Success
    ensures var site' := Apply(site, Invite(actor, project, email, roles, id));
            && OnlyProject(site, site', project)
            && site'.projects[project].members == site.projects[project].members
            && site'.projects[project].owner == site.projects[project].owner
            && site'.invitations.Keys == site.invitations.Keys + {id}
            && site'.invitations[id] == Invitation(project, email, roles, actor, site.now + 604800, Pending)
            && (forall x <- site.invitations ::
                  site'.invitations[x] ==
                  var i := site.invitations[x];
                  if i.project == project && i.email == email && i.fate.Pending? && i.expires <= site.now
                  then i.(fate := Revoked) else i)
  {
    WithoutExpiredDoes(site, actor, project, email);
    AddingDoes(WithoutExpired(site, actor, project, email), actor, project, email, roles, id);
  }

  lemma AddingDoes(site: Site, actor: User, project: ProjectId, email: string, roles: Roles, id: InvitationId)
    requires project in site.projects && id !in site.invitations
    ensures var site' := WithInvitation(site, actor, project, email, roles, id);
            && OnlyProject(site, site', project)
            && site'.projects[project].members == site.projects[project].members
            && site'.projects[project].owner == site.projects[project].owner
            && site'.invitations ==
               site.invitations[id := Invitation(project, email, roles, actor, site.now + 604800, Pending)]
  {
  }

  // ----- nobody passes on what they do not hold

  /** Where a role that a member newly has comes from. */
  predicate Granted(site: Site, step: Step, project: ProjectId, user: User, role: Role) {
    match step
    case CreateProject(actor, q) => q == project && actor == user && project !in site.projects
    case ReplaceRoles(actor, q, subject, roles) =>
      q == project && subject == user && role in roles && role in RolesOf(site, project, actor)
    case Accept(actor, id) =>
      && actor == user && id in site.invitations && site.invitations[id].project == project
      && role in site.invitations[id].roles && role in RolesOf(site, project, site.invitations[id].inviter)
    case _ => false
  }

  lemma InviteKeepsRoles(site: Site, step: Step, project: ProjectId, user: User)
    requires Linked(site) && step.Invite?
    ensures RolesOf(Apply(site, step), project, user) == RolesOf(site, project, user)
  {
    if InviteVerdict(site, step.actor, step.project, step.email, step.roles, step.id) == Success {
      InviteDoes(site, step.actor, step.project, step.email, step.roles, step.id);
    }
  }

  /** Only creation, acceptance, replacement and removal change what roles a member has. */
  lemma OtherStepsKeepRoles(site: Site, step: Step, project: ProjectId, user: User)
    requires Linked(site)
    requires !step.CreateProject? && !step.Accept? && !step.ReplaceRoles? && !step.RemoveMember?
    ensures RolesOf(Apply(site, step), project, user) == RolesOf(site, project, user)
  {
    if step.Invite? { InviteKeepsRoles(site, step, project, user); }
  }

  /** A role that a member has after a step and not before was held, at that moment, by the acting member or by the
      inviter of the accepted invitation, unless the step creates the project. */
  lemma NewRolesWereHeld(site: Site, step: Step, project: ProjectId, user: User, role: Role)
    requires Linked(site)
    requires role in RolesOf(Apply(site, step), project, user) && role !in RolesOf(site, project, user)
    ensures Granted(site, step, project, user, role)
  {
    match step
    case CreateProject(actor, q) =>
    case ReplaceRoles(actor, q, subject, roles) =>
      if ReplaceVerdict(site, actor, q, subject, roles) == Success {
        ReplaceDoes(site, actor, q, subject, roles);
        ReplaceSucceedsExactly(site, actor, q, subject, roles);
      }
    case RemoveMember(actor, q, subject) =>
    case Accept(actor, id) =>
      if AcceptVerdict(site, actor, id) == Success {
        AcceptDoes(site, actor, id);
        AcceptSucceedsExactly(site, actor, id);
      }
    case _ => OtherStepsKeepRoles(site, step, project, user);
  }

  /** A new invitation offers only roles that its inviter holds at that moment. */
  lemma OffersAreHeld(site: Site, step: Step, id: InvitationId)
    requires Linked(site) && id !in site.invitations && id in Apply(site, step).invitations
    ensures var i := Apply(site, step).invitations[id];
            step.Invite? && i.inviter == step.actor && i.project == step.project
            && i.roles <= RolesOf(site, i.project, i.inviter)
  {
  }

  /** An invitation ends once. It is accepted only by the account it made a member, and revoked only by a manager
      who holds all its roles, or by a later invitation for the same address once it has expired. */
  lemma InvitationsEndForCause(site: Site, step: Step, id: InvitationId)
    requires Linked(site) && id in site.invitations
    ensures id in Apply(site, step).invitations
    ensures var i, after := site.invitations[id], Apply(site, step).invitations[id];
            after != i ==>
              && i.fate.Pending? && after == i.(fate := after.fate)
              && match after.fate
                 case Pending => false
                 case Accepted(user) =>
                   step == Accept(user, id) && RolesOf(Apply(site, step), i.project, user) == i.roles
                 case Revoked =>
                   || (step.RevokeInvitation? && step.id == id && i.roles <= RolesOf(site, i.project, step.actor))
                   || (step.Invite? && step.project == i.project && step.email == i.email && i.expires <= site.now)
  {
    match step
    case Invite(actor, q, email, roles, x) =>
      if InviteVerdict(site, actor, q, email, roles, x) == Success {
        InviteDoes(site, actor, q, email, roles, x);
        InviteSucceedsExactly(site, actor, q, email, roles, x);
      }
    case Accept(actor, x) =>
      if AcceptVerdict(site, actor, x) == Success { AcceptDoes(site, actor, x); }
    case RevokeInvitation(actor, q, x) =>
      if RevokeVerdict(site, actor, q, x) == Success {
        RevokeDoes(site, actor, q, x);
        RevokeSucceedsExactly(site, actor, q, x);
      }
    case _ =>
  }

  /** A member leaves only by removal, and only by an actor who holds all the member's roles. A role taken from
      somebody who stays was taken by a replacement. */
  lemma LostRolesWereTaken(site: Site, step: Step, project: ProjectId, user: User, role: Role)
    requires Linked(site)
    requires role in RolesOf(site, project, user) && role !in RolesOf(Apply(site, step), project, user)
    ensures || (step.RemoveMember? && step.project == project && step.subject == user
                && RolesOf(site, project, user) <= RolesOf(site, project, step.actor))
            || (step.ReplaceRoles? && step.project == project && step.subject == user
                && RolesOf(Apply(site, step), project, user) == step.roles)
  {
    match step
    case CreateProject(actor, q) =>
    case ReplaceRoles(actor, q, subject, roles) =>
      if ReplaceVerdict(site, actor, q, subject, roles) == Success { ReplaceDoes(site, actor, q, subject, roles); }
    case RemoveMember(actor, q, subject) =>
      if RemoveVerdict(site, actor, q, subject) == Success {
        RemoveDoes(site, actor, q, subject);
        RemoveSucceedsExactly(site, actor, q, subject);
      }
    case Accept(actor, id) =>
    case _ => OtherStepsKeepRoles(site, step, project, user);
  }

  /** One step hands on only what is held. */
  ghost predicate HandsOnOnlyHeld(site: Site, step: Step, site': Site) {
    && (forall p: ProjectId, u: User, role: Role ::
          role in RolesOf(site', p, u) && role !in RolesOf(site, p, u) ==> Granted(site, step, p, u, role))
    && (forall id <- site'.invitations :: id !in site.invitations ==>
          var i := site'.invitations[id]; i.roles <= RolesOf(site, i.project, i.inviter))
  }

  lemma EveryStepHandsOnOnlyHeld(site: Site, step: Step)
    requires Linked(site)
    ensures HandsOnOnlyHeld(site, step, Apply(site, step))
  {
    var site' := Apply(site, step);
    forall p: ProjectId, u: User, role: Role | role in RolesOf(site', p, u) && role !in RolesOf(site, p, u)
      ensures Granted(site, step, p, u, role)
    {
      NewRolesWereHeld(site, step, p, u, role);
    }
    forall id | id in site'.invitations && id !in site.invitations
      ensures var i := site'.invitations[id]; i.roles <= RolesOf(site, i.project, i.inviter)
    {
      OffersAreHeld(site, step, id);
    }
  }

  /** A replacement takes away only roles that the actor holds if and only if the member's roles before it were within
      the actor's. */
  lemma ReplacementTakesHeldExactlyWhenWithin(site: Site, actor: User, project: ProjectId, subject: User, roles: Roles)
    requires Linked(site) && MayReplace(site, actor, project, subject, roles)
    ensures var site' := Apply(site, ReplaceRoles(actor, project, subject, roles));
            (forall role <- RolesOf(site, project, subject) ::
               role !in RolesOf(site', project, subject) ==> role in RolesOf(site, project, actor)) <==>
            RolesOf(site, project, subject) <= RolesOf(site, project, actor)
  {
    ReplaceSucceedsExactly(site, actor, project, subject, roles);
    ReplaceDoes(site, actor, project, subject, roles);
  }

  /** A replacement checks the roles it gives, not those it takes: a manager can take a role away that the manager
      does not hold. */
  lemma ReplacementCanTakeUnheldRoles()
    ensures var members: map<User, Roles> :=
              map["o" := CREATOR_ROLES, "m" := {MembersManage, QueryRead}, "s" := {CredentialsManage}];
            var accounts := map["o" := Account("o", true), "m" := Account("m", true), "s" := Account("s", true)];
            var site := Site(1, 0, accounts, map["p" := Project("o", Some("o"), members, [], [])], map[], map[]);
            && CredentialsManage !in RolesOf(site, "p", "m") && RolesOf(site, "p", "s") == {CredentialsManage}
            && RolesOf(Apply(site, ReplaceRoles("m", "p", "s", {QueryRead})), "p", "s") == {QueryRead}
  {
    var members: map<User, Roles> := map["o" := CREATOR_ROLES, "m" := {MembersManage, QueryRead},
                                         "s" := {CredentialsManage}];
    var site := Site(1, 0, map["o" := Account("o", true), "m" := Account("m", true), "s" := Account("s", true)],
                     map["p" := Project("o", Some("o"), members, [], [])], map[], map[]);
    assert CredentialsManage in RolesOf(site, "p", "s");
    assert ReplaceVerdict(site, "m", "p", "s", {QueryRead}) == Success;
  }
}
