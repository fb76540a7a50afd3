/** The console's handlers as they run: checks and row updates in the source's order, inside a transaction
    that is rolled back when a check fails after rows were written. Every handler keeps the site's invariant
    and is lawful: it changes members:manage grants only with the owner's authority and audits what it does. */
module MembershipConsole {
  import opened Options
  import opened Membership
  import Safety = MembershipSafety
  import Laws = MembershipLaws

  class Console {
    const quota: nat
    var now: int
    var accounts: map<User, Account>
    var projects: map<ProjectId, Project>
    var invitations: map<InvitationId, Invitation>
    var pending: map<(ProjectId, string), InvitationId>

    ghost predicate Valid()
      reads this
    {
      Safety.Inv(View())
    }

    constructor (quota: nat, now: int, accounts: map<User, Account>)
      ensures Valid() && View() == Site(quota, now, accounts, map[], map[], map[])
    {
      this.quota, this.now, this.accounts := quota, now, accounts;
      projects, invitations, pending := map[], map[], map[];
      new;
      Safety.NoProjectsInv(quota, now, accounts);
    }

    function View(): Site
      reads this
    {
      Site(quota, now, accounts, projects, invitations, pending)
    }

    // ----- what each handler runs

    method RunCreateProject(actor: User, project: ProjectId) returns (status: Status)
      modifies this`projects
      ensures status == CreateVerdict(old(View()), actor, project)
      ensures View() == Apply(old(View()), Step.CreateProject(actor, project))
    {
      if !Active(View(), actor) { return Unauthorized; }
      if |Created(View(), actor)| >= quota { return Conflict; }
      if project in projects { return Conflict; }
      var p := Project(actor, None, map[], [], []);
      projects := projects[project := p];
      p := p.(members := map[actor := CREATOR_ROLES]);
      projects := projects[project := p];
      if p.owner.None? {
        projects := projects[project := p.(owner := Some(actor))];
      }
      assert View() == WithNewProject(old(View()), actor, project);
      status := Success;
    }

    method Record(project: ProjectId, entry: Entry)
      requires project in projects
      modifies this`projects
      ensures projects == old(projects)[project := Audited(old(projects)[project], entry)]
    {
      projects := projects[project := Audited(projects[project], entry)];
    }

    /** An unaccepted invitation leaves the unique index when it is accepted or revoked. */
    method End(id: InvitationId, fate: Fate)
      requires id in invitations
      modifies this`invitations, this`pending
      ensures View() == Ended(old(View()), id, fate)
    {
      var i := invitations[id];
      invitations := invitations[id := i.(fate := fate)];
      pending := pending - {(i.project, i.email)};
    }

    /** The expired invitation for this address, if any, gives up its place in the index. */
    method RevokeExpired(actor: User, project: ProjectId, email: string)
      requires project in projects
      modifies this`projects, this`invitations, this`pending
      ensures View() == WithoutExpired(old(View()), actor, project, email)
    {
      if (project, email) in pending && pending[(project, email)] in invitations {
        var id := pending[(project, email)];
        var i := invitations[id];
        if i.expires <= now {
          End(id, Revoked);
          Record(project, InvitationRevoke(actor, i.email, id, i.roles));
        }
      }
    }

    method RunInvite(actor: User, project: ProjectId, email: string, roles: Roles, id: InvitationId)
        returns (status: Status)
      requires Linked(View())
      modifies this`projects, this`invitations, this`pending
      ensures status == InviteVerdict(old(View()), actor, project, email, roles, id)
      ensures View() == Apply(old(View()), Step.Invite(actor, project, email, roles, id))
    {
      if !Manager(View(), project, actor) { return Forbidden; }
      if !MayGrant(projects[project], actor, roles, None) { return Forbidden; }
      if HasMember(View(), project, email) { return Conflict; }
      var saved := (projects, invitations, pending);
      RevokeExpired(actor, project, email);
      if id in invitations || Holder(View(), project, email).Some? {
        projects, invitations, pending := saved.0, saved.1, saved.2;
        return Conflict;
      }
      invitations := invitations[id := Invitation(project, email, roles, actor, now + INVITATION_LIFETIME, Pending)];
      pending := pending[(project, email) := id];
      Record(project, InvitationCreate(actor, email, id, roles));
      status := Success;
    }

    method RunRevokeInvitation(actor: User, project: ProjectId, id: InvitationId) returns (status: Status)
      modifies this`projects, this`invitations, this`pending
      ensures status == RevokeVerdict(old(View()), actor, project, id)
      ensures View() == Apply(old(View()), Step.RevokeInvitation(actor, project, id))
    {
      if !Manager(View(), project, actor) { return Forbidden; }
      if id !in invitations || invitations[id].project != project || !invitations[id].fate.Pending? { return NotFound; }
      var i := invitations[id];
      if !MayGrant(projects[project], actor, i.roles, Some(i.roles)) { return Forbidden; }
      End(id, Revoked);
      Record(project, InvitationRevoke(actor, i.email, id, i.roles));
      status := Success;
    }

    method RunReplaceRoles(actor: User, project: ProjectId, subject: User, roles: Roles) returns (status: Status)
      modifies this`projects
      ensures status == ReplaceVerdict(old(View()), actor, project, subject, roles)
      ensures View() == Apply(old(View()), Step.ReplaceRoles(actor, project, subject, roles))
    {
      if !Manager(View(), project, actor) { return Forbidden; }
      var p := projects[project];
      if subject !in p.members || subject !in accounts { return NotFound; }
      if p.owner == Some(subject) { return Conflict; }
      var current := p.members[subject];
      if current == roles { return Conflict; }
      if !MayGrant(p, actor, roles, Some(current)) { return Forbidden; }
      projects := projects[project := p.(members := p.members[subject := roles])];
      Record(project, RolesReplace(actor, subject, accounts[subject].email, current, roles));
      status := Success;
    }

    method RunRemoveMember(actor: User, project: ProjectId, subject: User) returns (status: Status)
      modifies this`projects
      ensures status == RemoveVerdict(old(View()), actor, project, subject)
      ensures View() == Apply(old(View()), Step.RemoveMember(actor, project, subject))
    {
      if !Manager(View(), project, actor) { return Forbidden; }
      var p := projects[project];
      if subject !in p.members || subject !in accounts { return NotFound; }
      if p.owner == Some(subject) { return Conflict; }
      var current := p.members[subject];
      if !MayGrant(p, actor, current, Some(current)) { return Forbidden; }
      Record(project, MemberRemove(actor, subject, accounts[subject].email, current));
      projects := projects[project := projects[project].(members := projects[project].members - {subject})];
      status := Success;
    }

    method RunAccept(actor: User, id: InvitationId) returns (status: Status)
      modifies this`projects, this`invitations, this`pending
      ensures status == AcceptVerdict(old(View()), actor, id)
      ensures View() == Apply(old(View()), Step.Accept(actor, id))
    {
      if !ValidInvitation(View(), id) || !Active(View(), actor) || accounts[actor].email != invitations[id].email {
        return NotFound;
      }
      var i := invitations[id];
      var p := projects[i.project];
      if actor in p.members { return Conflict; }
      projects := projects[i.project := p.(members := p.members[actor := i.roles])];
      End(id, Accepted(actor));
      Record(i.project, InvitationAccept(actor, actor, i.email, id, i.roles));
      status := Success;
    }

    method RunTransferOwnership(actor: User, project: ProjectId, target: User) returns (status: Status)
      modifies this`projects
      ensures status == TransferVerdict(old(View()), actor, project, target)
      ensures View() == Apply(old(View()), Step.TransferOwnership(actor, project, target))
    {
      if target == actor { return Conflict; }
      if !(project in projects && actor in projects[project].members && Active(View(), actor)) { return Forbidden; }
      var p := projects[project];
      if p.owner.None? { return Conflict; }
      if p.owner != Some(actor) { return Forbidden; }
      if !(target in p.members && Active(View(), target) && MembersManage in p.members[target]) { return Conflict; }
      projects := projects[project := p.(owner := Some(target))];
      projects := projects[project := projects[project].(transfers := p.transfers + [Transfer(actor, target)])];
      status := Success;
    }

    // ----- the handlers

    method CreateProject(actor: User, project: ProjectId) returns (status: Status)
      requires Valid()
      modifies this`projects
      ensures status == CreateVerdict(old(View()), actor, project)
      ensures View() == Apply(old(View()), Step.CreateProject(actor, project))
      ensures Valid() && Safety.Lawful(old(View()), Step.CreateProject(actor, project), View())
      ensures status == Success <==> Laws.MayCreate(old(View()), actor, project)
      ensures Laws.HandsOnOnlyHeld(old(View()), Step.CreateProject(actor, project), View())
    {
      Laws.CreateSucceedsExactly(View(), actor, project);
      Laws.EveryStepHandsOnOnlyHeld(View(), Step.CreateProject(actor, project));
      Safety.EveryStepIsLawful(View(), Step.CreateProject(actor, project));
      status := RunCreateProject(actor, project);
    }

    method Invite(actor: User, project: ProjectId, email: string, roles: Roles, id: InvitationId)
        returns (status: Status)
      requires Valid()
      modifies this`projects, this`invitations, this`pending
      ensures status == InviteVerdict(old(View()), actor, project, email, roles, id)
      ensures View() == Apply(old(View()), Step.Invite(actor, project, email, roles, id))
      ensures Valid() && Safety.Lawful(old(View()), Step.Invite(actor, project, email, roles, id), View())
      ensures status == Success <==> Laws.MayInvite(old(View()), actor, project, email, roles, id)
      ensures Laws.HandsOnOnlyHeld(old(View()), Step.Invite(actor, project, email, roles, id), View())
    {
      Laws.InviteSucceedsExactly(View(), actor, project, email, roles, id);
      Laws.EveryStepHandsOnOnlyHeld(View(), Step.Invite(actor, project, email, roles, id));
      Safety.EveryStepIsLawful(View(), Step.Invite(actor, project, email, roles, id));
      status := RunInvite(actor, project, email, roles, id);
    }

    method RevokeInvitation(actor: User, project: ProjectId, id: InvitationId) returns (status: Status)
      requires Valid()
      modifies this`projects, this`invitations, this`pending
      ensures status == RevokeVerdict(old(View()), actor, project, id)
      ensures View() == Apply(old(View()), Step.RevokeInvitation(actor, project, id))
      ensures Valid() && Safety.Lawful(old(View()), Step.RevokeInvitation(actor, project, id), View())
      ensures status == Success <==> Laws.MayRevoke(old(View()), actor, project, id)
      ensures Laws.HandsOnOnlyHeld(old(View()), Step.RevokeInvitation(actor, project, id), View())
    {
      Laws.RevokeSucceedsExactly(View(), actor, project, id);
      Laws.EveryStepHandsOnOnlyHeld(View(), Step.RevokeInvitation(actor, project, id));
      Safety.EveryStepIsLawful(View(), Step.RevokeInvitation(actor, project, id));
      status := RunRevokeInvitation(actor, project, id);
    }

    method ReplaceRoles(actor: User, project: ProjectId, subject: User, roles: Roles) returns (status: Status)
      requires Valid()
      modifies this`projects
      ensures status == ReplaceVerdict(old(View()), actor, project, subject, roles)
      ensures View() == Apply(old(View()), Step.ReplaceRoles(actor, project, subject, roles))
      ensures Valid() && Safety.Lawful(old(View()), Step.ReplaceRoles(actor, project, subject, roles), View())
      ensures status == Success <==> Laws.MayReplace(old(View()), actor, project, subject, roles)
      ensures Laws.HandsOnOnlyHeld(old(View()), Step.ReplaceRoles(actor, project, subject, roles), View())
    {
      Laws.ReplaceSucceedsExactly(View(), actor, project, subject, roles);
      Laws.EveryStepHandsOnOnlyHeld(View(), Step.ReplaceRoles(actor, project, subject, roles));
      Safety.EveryStepIsLawful(View(), Step.ReplaceRoles(actor, project, subject, roles));
      status := RunReplaceRoles(actor, project, subject, roles);
    }

    method RemoveMember(actor: User, project: ProjectId, subject: User) returns (status: Status)
      requires Valid()
      modifies this`projects
      ensures status == RemoveVerdict(old(View()), actor, project, subject)
      ensures View() == Apply(old(View()), Step.RemoveMember(actor, project, subject))
      ensures Valid() && Safety.Lawful(old(View()), Step.RemoveMember(actor, project, subject), View())
      ensures status == Success <==> Laws.MayRemove(old(View()), actor, project, subject)
      ensures Laws.HandsOnOnlyHeld(old(View()), Step.RemoveMember(actor, project, subject), View())
    {
      Laws.RemoveSucceedsExactly(View(), actor, project, subject);
      Laws.EveryStepHandsOnOnlyHeld(View(), Step.RemoveMember(actor, project, subject));
      Safety.EveryStepIsLawful(View(), Step.RemoveMember(actor, project, subject));
      status := RunRemoveMember(actor, project, subject);
    }

    method Accept(actor: User, id: InvitationId) returns (status: Status)
      requires Valid()
      modifies this`projects, this`invitations, this`pending
      ensures status == AcceptVerdict(old(View()), actor, id)
      ensures View() == Apply(old(View()), Step.Accept(actor, id))
      ensures Valid() && Safety.Lawful(old(View()), Step.Accept(actor, id), View())
      ensures status == Success <==> Laws.MayAccept(old(View()), actor, id)
      ensures Laws.HandsOnOnlyHeld(old(View()), Step.Accept(actor, id), View())
    {
      Laws.AcceptSucceedsExactly(View(), actor, id);
      Laws.EveryStepHandsOnOnlyHeld(View(), Step.Accept(actor, id));
      Safety.EveryStepIsLawful(View(), Step.Accept(actor, id));
      status := RunAccept(actor, id);
    }

    method TransferOwnership(actor: User, project: ProjectId, target: User) returns (status: Status)
      requires Valid()
      modifies this`projects
      ensures status == TransferVerdict(old(View()), actor, project, target)
      ensures View() == Apply(old(View()), Step.TransferOwnership(actor, project, target))
      ensures Valid() && Safety.Lawful(old(View()), Step.TransferOwnership(actor, project, target), View())
      ensures status == Success <==> Laws.MayTransfer(old(View()), actor, project, target)
      ensures Laws.HandsOnOnlyHeld(old(View()), Step.TransferOwnership(actor, project, target), View())
    {
      Laws.TransferSucceedsExactly(View(), actor, project, target);
      Laws.EveryStepHandsOnOnlyHeld(View(), Step.TransferOwnership(actor, project, target));
      Safety.EveryStepIsLawful(View(), Step.TransferOwnership(actor, project, target));
      status := RunTransferOwnership(actor, project, target);
    }
  }
}
