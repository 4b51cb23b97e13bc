/** The membership transitions of controllers/applicantController.js:
    `acceptApplicant`, `rejectApplicant`, `acceptInvite` and `rejectInvite`.

    Each handler receives the project its lookup returns (`null` when none), and
    changes the applicant or invite sub-document in place and, on acceptance, the
    `collaborators` and `team` arrays. The new states are pure transitions on
    `ProjectDoc`; the lemmas state what those transitions keep. */
module ApplicantController {
  import opened Common
  import opened ProjectModel
  import ProjectController

  // ---------------------------------------------------------------------------
  // Membership helpers

  /** No id occurs twice. */
  predicate NoDuplicates(xs: seq<UserId>)
  {
    forall i, j :: 0 <= i < j < |xs| ==> xs[i] != xs[j]
  }

  /** No user has two team entries. */
  predicate TeamUnique(team: seq<TeamMember>)
  {
    forall i, j :: 0 <= i < j < |team| ==> team[i].user != team[j].user
  }

  /** `if (!xs.some(c => c == u)) xs.push(u)`. */
  function AddIfAbsent(xs: seq<UserId>, u: UserId): (ys: seq<UserId>)
    ensures u in ys && |xs| <= |ys| <= |xs| + 1 && ys[..|xs|] == xs
    ensures Count(ys, u) == (if u in xs then Count(xs, u) else 1)
  {
    if u in xs then xs
    else
      CountAppend(xs, [u], u);
      xs + [u]
  }

  /** Adds a team entry for `u` unless it has one; the role is the role applied for,
      or "Collaborator" when there is none. */
  function JoinTeam(team: seq<TeamMember>, u: UserId, roleAppliedFor: string, now: int): (t: seq<TeamMember>)
    ensures InTeam(t, u) && |team| <= |t| <= |team| + 1 && t[..|team|] == team
    ensures !InTeam(team, u) ==> t[|team|].role == (if roleAppliedFor == "" then "Collaborator" else roleAppliedFor)
  {
    if InTeam(team, u) then team
    else
      var t := team + [TeamMember(u, if roleAppliedFor == "" then "Collaborator" else roleAppliedFor, now)];
      assert t[|team|].user == u;
      t
  }

  lemma JoinTeamKeepsUnique(team: seq<TeamMember>, u: UserId, role: string, now: int)
    requires TeamUnique(team)
    ensures TeamUnique(JoinTeam(team, u, role, now))
  {
    var t := JoinTeam(team, u, role, now);
    if !InTeam(team, u) {
      forall i, j | 0 <= i < j < |t|
        ensures t[i].user != t[j].user
      {
        if j == |team| {
          assert t[i] == team[i];
        }
      }
    }
  }

  lemma AddIfAbsentKeepsNoDuplicates(xs: seq<UserId>, u: UserId)
    requires NoDuplicates(xs)
    ensures NoDuplicates(AddIfAbsent(xs, u))
  {
    var ys := AddIfAbsent(xs, u);
    if u !in xs {
      forall i, j | 0 <= i < j < |ys|
        ensures ys[i] != ys[j]
      {
        if j == |xs| {
          assert ys[i] == xs[i];
        }
      }
    }
  }

  // ---------------------------------------------------------------------------
  // acceptApplicant and rejectApplicant

  /** `project.applicants.id(applicantId)`: the first entry with that `_id`. */
  function ApplicantIndex(apps: seq<Applicant>, id: nat): (k: int)
    ensures -1 <= k < |apps|
    ensures k == -1 <==> forall j :: 0 <= j < |apps| ==> apps[j].id != id
    ensures 0 <= k ==> apps[k].id == id && forall j :: 0 <= j < k ==> apps[j].id != id
  {
    if apps == [] then -1
    else if apps[0].id == id then 0
    else
      var k := ApplicantIndex(apps[1..], id);
      if k == -1 then -1 else k + 1
  }

  datatype AcceptOutcome = ProjectNotFound | ApplicantNotFound | ApplicantAccepted
  {
    function Code(): nat
    {
      match this
      case ProjectNotFound => 404
      case ApplicantNotFound => 404
      case ApplicantAccepted => 200
    }
  }

  /** The project after accepting applicant `k`: the entry is "accepted", and its user
      is a collaborator and a team member, each added only when absent. */
  function AcceptState(d: ProjectDoc, k: nat, now: int): (d': ProjectDoc)
    requires k < |d.applicants|
    ensures d' == d.(applicants := d'.applicants, collaborators := d'.collaborators, team := d'.team)
    ensures |d'.applicants| == |d.applicants|
    ensures d'.applicants[k] == d.applicants[k].(status := Accepted)
    ensures forall j :: 0 <= j < |d.applicants| && j != k ==> d'.applicants[j] == d.applicants[j]
    ensures d'.collaborators == AddIfAbsent(d.collaborators, d.applicants[k].user)
    ensures d'.team == JoinTeam(d.team, d.applicants[k].user, d.applicants[k].roleAppliedFor, now)
  {
    var a := d.applicants[k];
    d.(applicants := d.applicants[k := a.(status := Accepted)],
       collaborators := AddIfAbsent(d.collaborators, a.user),
       team := JoinTeam(d.team, a.user, a.roleAppliedFor, now))
  }

  /** Accepting makes the applicant a member exactly once, whatever the prior state,
      and keeps both membership lists free of duplicates. */
  lemma AcceptMakesMember(d: ProjectDoc, k: nat, now: int)
    requires k < |d.applicants|
    ensures var u := d.applicants[k].user;
      var d' := AcceptState(d, k, now);
      && u in d'.collaborators && InTeam(d'.team, u)
      && Count(d'.collaborators, u) == (if u in d.collaborators then Count(d.collaborators, u) else 1)
    ensures var a := d.applicants[k];
      var d' := AcceptState(d, k, now);
      && d'.collaborators[..|d.collaborators|] == d.collaborators
      && d'.team[..|d.team|] == d.team
      && (!InTeam(d.team, a.user) ==>
            d'.team[|d.team|] == TeamMember(a.user, if a.roleAppliedFor == "" then "Collaborator" else a.roleAppliedFor, now))
    ensures NoDuplicates(d.collaborators) ==> NoDuplicates(AcceptState(d, k, now).collaborators)
    ensures TeamUnique(d.team) ==> TeamUnique(AcceptState(d, k, now).team)
  {
    var a := d.applicants[k];
    if NoDuplicates(d.collaborators) {
      AddIfAbsentKeepsNoDuplicates(d.collaborators, a.user);
    }
    if TeamUnique(d.team) {
      JoinTeamKeepsUnique(d.team, a.user, a.roleAppliedFor, now);
    }
  }

  /** Repeating the acceptance, at any later time, changes nothing more. */
  lemma AcceptIdempotent(d: ProjectDoc, k: nat, now: int, later: int)
    requires k < |d.applicants|
    ensures AcceptState(AcceptState(d, k, now), k, later) == AcceptState(d, k, now)
  {
    var d1 := AcceptState(d, k, now);
    var u := d.applicants[k].user;
    assert d1.applicants[k].user == u;
    assert d1.applicants[k := d1.applicants[k].(status := Accepted)] == d1.applicants;
  }

  /** `acceptApplicant`. Besides the outcome it yields the recipient of the
      acceptance notification. */
  method AcceptApplicant(project: Project?, applicantId: nat, now: int)
    returns (outcome: AcceptOutcome, notified: Option<UserId>)
    modifies project
    ensures project == null ==> outcome == ProjectNotFound && notified == None
    ensures project != null ==>
      var k := ApplicantIndex(old(project.applicants), applicantId);
      if k < 0 then
        outcome == ApplicantNotFound && notified == None && project.Doc() == old(project.Doc())
      else
        && outcome == ApplicantAccepted
        && notified == Some(old(project.applicants)[k].user)
        && project.Doc() == AcceptState(old(project.Doc()), k, now)
  {
    if project == null {
      return ProjectNotFound, None;
    }
    var k := ApplicantIndex(project.applicants, applicantId);
    if k < 0 {
      return ApplicantNotFound, None;
    }
    var applicant := project.applicants[k].(status := Accepted);
    project.applicants := project.applicants[k := applicant];
    AddCollaborator(project, applicant.user);
    AddTeamMember(project, applicant.user, applicant.roleAppliedFor, now);
    outcome, notified := ApplicantAccepted, Some(applicant.user);
  }

  /** `collaborators.push(user)` unless the user is already listed. */
  method AddCollaborator(project: Project, u: UserId)
    modifies project
    ensures project.Doc() == old(project.Doc()).(collaborators := AddIfAbsent(old(project.collaborators), u))
  {
    if u !in project.collaborators {
      project.collaborators := project.collaborators + [u];
    }
  }

  /** `team.push({user, role, joinedAt})` unless the user is already a member; the
      role falls back to "Collaborator". */
  method AddTeamMember(project: Project, u: UserId, roleAppliedFor: string, now: int)
    modifies project
    ensures project.Doc() == old(project.Doc()).(team := JoinTeam(old(project.team), u, roleAppliedFor, now))
  {
    if !InTeam(project.team, u) {
      var role := if roleAppliedFor == "" then "Collaborator" else roleAppliedFor;
      project.team := project.team + [TeamMember(u, role, now)];
    }
  }

  datatype RejectOutcome = ApplicationNotFound | RejectApplicantNotFound | ApplicantRejected
  {
    function Code(): nat
    {
      match this
      case ApplicationNotFound => 404
      case RejectApplicantNotFound => 404
      case ApplicantRejected => 200
    }
  }

  /** `rejectApplicant`: `project` is the record holding a sub-document with that
      `_id`, if any. Only that entry's status changes. */
  method RejectApplicant(project: Project?, applicantId: nat) returns (outcome: RejectOutcome)
    modifies project
    ensures project == null ==> outcome == ApplicationNotFound
    ensures project != null ==>
      var k := ApplicantIndex(old(project.applicants), applicantId);
      if k < 0 then
        outcome == RejectApplicantNotFound && project.Doc() == old(project.Doc())
      else
        && outcome == ApplicantRejected
        && project.Doc() == old(project.Doc()).(applicants := old(project.applicants)[k := old(project.applicants)[k].(status := Rejected)])
  {
    if project == null {
      return ApplicationNotFound;
    }
    var k := ApplicantIndex(project.applicants, applicantId);
    if k < 0 {
      return RejectApplicantNotFound;
    }
    project.applicants := project.applicants[k := project.applicants[k].(status := Rejected)];
    outcome := ApplicantRejected;
  }

  // ---------------------------------------------------------------------------
  // acceptInvite and rejectInvite

  function InviteUsers(invites: seq<Invite>): (us: seq<UserId>)
    ensures |us| == |invites| && forall i :: 0 <= i < |invites| ==> us[i] == invites[i].user
  {
    seq(|invites|, i requires 0 <= i < |invites| => invites[i].user)
  }

  /** `project.invites.find(i => i.user == u)`, as the handlers look an invite up. */
  function FirstInvite(invites: seq<Invite>, u: UserId): (k: int)
    ensures -1 <= k < |invites|
    ensures k == -1 <==> forall j :: 0 <= j < |invites| ==> invites[j].user != u
    ensures 0 <= k ==> invites[k].user == u && forall j :: 0 <= j < k ==> invites[j].user != u
  {
    var us := InviteUsers(invites);
    var k := IndexOf(us, u);
    assert forall j :: 0 <= j < |invites| && invites[j].user == u ==> us[j] == u;
    assert forall j :: 0 <= j < k ==> us[..k][j] == us[j];
    k
  }

  /** The first pending invite of `u`, or -1. */
  function FirstPendingInvite(invites: seq<Invite>, u: UserId): (k: int)
    ensures -1 <= k < |invites|
    ensures k == -1 <==> !ProjectController.PendingInvite(invites, u)
    ensures 0 <= k ==> invites[k].user == u && invites[k].status == Pending
  {
    if invites == [] then -1
    else if invites[0].user == u && invites[0].status == Pending then 0
    else
      var k := FirstPendingInvite(invites[1..], u);
      if k == -1 then
        assert forall j :: 1 <= j < |invites| ==> invites[j] == invites[1..][j - 1];
        -1
      else
        assert invites[1..][k] == invites[k + 1];
        k + 1
  }

  /** The invite a user answers: their pending one when they have one, else their
      first (so that "not found" and "already processed" keep their meaning). */
  function InviteToAnswer(invites: seq<Invite>, u: UserId): (k: int)
    ensures -1 <= k < |invites|
    ensures k == -1 <==> FirstInvite(invites, u) == -1
    ensures 0 <= k ==> invites[k].user == u
    ensures 0 <= k && invites[k].status != Pending ==> !ProjectController.PendingInvite(invites, u)
  {
    var p := FirstPendingInvite(invites, u);
    if p >= 0 then p else FirstInvite(invites, u)
  }

  /** When the first invite of a user is their pending one, or they have none
      pending, the corrected lookup picks the same invite as the handlers. */
  lemma InviteToAnswerAgrees(invites: seq<Invite>, u: UserId)
    requires var k := FirstInvite(invites, u);
      !ProjectController.PendingInvite(invites, u) || (k >= 0 && invites[k].status == Pending)
    ensures InviteToAnswer(invites, u) == FirstInvite(invites, u)
  {
    var k := FirstInvite(invites, u);
    var p := FirstPendingInvite(invites, u);
    if p >= 0 {
      assert p >= k;
      if p > k {
        assert invites[k].user == u && invites[k].status == Pending;
        FirstPendingIsFirst(invites, u, k);
      }
    }
  }

  /** No pending invite of `u` precedes the one `FirstPendingInvite` picks. */
  lemma {:induction false} FirstPendingIsFirst(invites: seq<Invite>, u: UserId, j: nat)
    requires j < |invites| && invites[j].user == u && invites[j].status == Pending
    ensures 0 <= FirstPendingInvite(invites, u) <= j
  {
    if invites[0].user == u && invites[0].status == Pending {
    } else {
      assert j > 0;
      assert invites[1..][j - 1] == invites[j];
      FirstPendingIsFirst(invites[1..], u, j - 1);
    }
  }

  datatype InviteAnswerOutcome =
    | InviteProjectMissing     // 404 "Project not found"
    | InviteNotFound           // 404
    | InviteAlreadyProcessed   // 400
    | InviteAnswered           // 200
  {
    function Code(): nat
    {
      match this
      case InviteProjectMissing => 404
      case InviteNotFound => 404
      case InviteAlreadyProcessed => 400
      case InviteAnswered => 200
    }
  }

  /** The guards of `acceptInvite` once the invite at `k` is chosen. */
  function AcceptInviteCheckAt(invites: seq<Invite>, k: int): (r: InviteAnswerOutcome)
    requires -1 <= k < |invites|
    ensures r == InviteAnswered <==> k >= 0 && invites[k].status == Pending
    ensures r == InviteNotFound <==> k == -1
  {
    if k < 0 then InviteNotFound
    else if invites[k].status != Pending then InviteAlreadyProcessed
    else InviteAnswered
  }

  /** `acceptInvite` as written: the first invite of the user decides. */
  function AcceptInviteAsWritten(d: Option<ProjectDoc>, u: UserId): (r: InviteAnswerOutcome)
    ensures d.None? ==> r == InviteProjectMissing
    ensures d.Some? ==> r == AcceptInviteCheckAt(d.value.invites, FirstInvite(d.value.invites, u))
  {
    if d.None? then InviteProjectMissing
    else AcceptInviteCheckAt(d.value.invites, FirstInvite(d.value.invites, u))
  }

  /** A user whose earlier invite was rejected can be invited again, since only
      pending invites block `inviteCollaborator`; but as written `acceptInvite`
      answers the new invite with "already processed". */
  lemma ReinvitedUserCannotAccept(d: ProjectDoc, u: UserId, now: int)
    requires u !in d.collaborators
    requires |d.invites| == 1 && d.invites[0].user == u && d.invites[0].status == Rejected
    ensures ProjectController.InviteCheck(Some(d), u, d.owner) == ProjectController.InviteSent
    ensures AcceptInviteAsWritten(Some(ProjectController.InviteState(d, u, now)), u) == InviteAlreadyProcessed
  {
    var inv := ProjectController.InviteState(d, u, now).invites;
    assert FirstInvite(inv, u) == 0 by {
      assert inv[0] == d.invites[0];
    }
  }

  /** With the corrected lookup, an invitation that `inviteCollaborator` accepts can
      always be accepted. */
  lemma InvitedUserCanAccept(d: ProjectDoc, u: UserId, caller: UserId, now: int)
    requires ProjectController.InviteCheck(Some(d), u, caller) == ProjectController.InviteSent
    ensures var inv := ProjectController.InviteState(d, u, now).invites;
      AcceptInviteCheckAt(inv, InviteToAnswer(inv, u)) == InviteAnswered
  {
    var inv := ProjectController.InviteState(d, u, now).invites;
    FirstPendingIsFirst(inv, u, |inv| - 1);
  }

  /** The project after accepting invite `k` of user `u`: the invite is "accepted"
      and `u` is appended to `collaborators`, whether or not it is already there. */
  function AcceptInviteState(d: ProjectDoc, k: nat, u: UserId): (d': ProjectDoc)
    requires k < |d.invites|
    ensures d' == d.(invites := d'.invites, collaborators := d'.collaborators)
    ensures d'.invites == d.invites[k := d.invites[k].(status := Accepted)]
    ensures d'.collaborators == d.collaborators + [u]
    ensures Count(d'.collaborators, u) == Count(d.collaborators, u) + 1
  {
    CountAppend(d.collaborators, [u], u);
    d.(invites := d.invites[k := d.invites[k].(status := Accepted)],
       collaborators := d.collaborators + [u])
  }

  /** A user invited while their application is still pending, then accepted as an
      applicant, becomes a collaborator twice on accepting the invite: the
      invitation guard saw no collaborator, and `acceptInvite` does not look. */
  lemma InviteAndApplicationDuplicate(d: ProjectDoc, u: UserId, now: int)
    requires d.collaborators == [] && d.invites == []
    requires |d.applicants| == 1 && d.applicants[0].user == u
    ensures ProjectController.InviteCheck(Some(d), u, d.owner) == ProjectController.InviteSent
    ensures var d1 := ProjectController.InviteState(d, u, now);
      var d2 := AcceptState(d1, 0, now);
      && AcceptInviteCheckAt(d2.invites, InviteToAnswer(d2.invites, u)) == InviteAnswered
      && InviteToAnswer(d2.invites, u) == 0
      && Count(AcceptInviteState(d2, 0, u).collaborators, u) == 2
  {
    var d1 := ProjectController.InviteState(d, u, now);
    var d2 := AcceptState(d1, 0, now);
    assert d2.invites == [Invite(u, Pending, now)];
    assert d2.collaborators == [u];
    assert FirstPendingInvite(d2.invites, u) == 0;
  }

  /** `acceptInvite`, answering the invite `InviteToAnswer` picks. */
  method AcceptInvite(project: Project?, u: UserId) returns (outcome: InviteAnswerOutcome)
    modifies project
    ensures project == null ==> outcome == InviteProjectMissing
    ensures project != null ==>
      var k := InviteToAnswer(old(project.invites), u);
      && outcome == AcceptInviteCheckAt(old(project.invites), k)
      && (outcome == InviteAnswered ==> project.Doc() == AcceptInviteState(old(project.Doc()), k, u))
      && (outcome != InviteAnswered ==> project.Doc() == old(project.Doc()))
  {
    if project == null {
      return InviteProjectMissing;
    }
    var k := InviteToAnswer(project.invites, u);
    if k < 0 {
      return InviteNotFound;
    }
    if project.invites[k].status != Pending {
      return InviteAlreadyProcessed;
    }
    project.invites := project.invites[k := project.invites[k].(status := Accepted)];
    project.collaborators := project.collaborators + [u];
    outcome := InviteAnswered;
  }

  datatype RejectInviteOutcome = RejectInviteCrashed | RejectInviteNotFound | InviteRejected
  {
    function Code(): nat
    {
      match this
      case RejectInviteCrashed => 500  // `project.invites` read on null
      case RejectInviteNotFound => 404
      case InviteRejected => 200
    }
  }

  /** The project after rejecting invite `k`: that invite becomes "rejected",
      whatever its status was, and nothing else changes. */
  function RejectInviteState(d: ProjectDoc, k: nat): (d': ProjectDoc)
    requires k < |d.invites|
    ensures d' == d.(invites := d'.invites)
    ensures |d'.invites| == |d.invites|
    ensures d'.invites[k].user == d.invites[k].user && d'.invites[k].status == Rejected
    ensures forall j :: 0 <= j < |d.invites| && j != k ==> d'.invites[j] == d.invites[j]
  {
    d.(invites := d.invites[k := d.invites[k].(status := Rejected)])
  }

  /** `rejectInvite` as written: the first invite of the user is the one rejected,
      whatever its status; a missing project crashes on `project.invites`. */
  function RejectInviteAsWritten(d: Option<ProjectDoc>, u: UserId): (r: (RejectInviteOutcome, Option<ProjectDoc>))
    ensures d.None? ==> r == (RejectInviteCrashed, d)
    ensures d.Some? && FirstInvite(d.value.invites, u) == -1 ==> r == (RejectInviteNotFound, d)
    ensures d.Some? && FirstInvite(d.value.invites, u) >= 0 ==>
      r == (InviteRejected, Some(RejectInviteState(d.value, FirstInvite(d.value.invites, u))))
  {
    if d.None? then (RejectInviteCrashed, d)
    else
      var k := FirstInvite(d.value.invites, u);
      if k < 0 then (RejectInviteNotFound, d)
      else (InviteRejected, Some(RejectInviteState(d.value, k)))
  }

  /** A user whose earlier invite was rejected and who is invited again cannot
      decline: as written `rejectInvite` answers 200 but rejects the old invite
      once more, so the new one stays pending. */
  lemma ReinvitedUserCannotReject(d: ProjectDoc, u: UserId, now: int)
    requires u !in d.collaborators
    requires |d.invites| == 1 && d.invites[0].user == u && d.invites[0].status == Rejected
    ensures ProjectController.InviteCheck(Some(d), u, d.owner) == ProjectController.InviteSent
    ensures var d1 := ProjectController.InviteState(d, u, now);
      && RejectInviteAsWritten(Some(d1), u) == (InviteRejected, Some(d1))
      && ProjectController.PendingInvite(d1.invites, u)
  {
    var d1 := ProjectController.InviteState(d, u, now);
    assert d1.invites[0] == d.invites[0];
    assert FirstInvite(d1.invites, u) == 0;
    assert RejectInviteState(d1, 0).invites == d1.invites;
    assert d1.invites[1].user == u && d1.invites[1].status == Pending;
  }

  /** With the corrected lookup, an invitation that `inviteCollaborator` accepts can
      always be declined: afterwards the user holds no pending invite. */
  lemma InvitedUserCanReject(d: ProjectDoc, u: UserId, caller: UserId, now: int)
    requires ProjectController.InviteCheck(Some(d), u, caller) == ProjectController.InviteSent
    ensures var d1 := ProjectController.InviteState(d, u, now);
      var k := InviteToAnswer(d1.invites, u);
      && k == |d1.invites| - 1
      && !ProjectController.PendingInvite(RejectInviteState(d1, k).invites, u)
  {
    var d1 := ProjectController.InviteState(d, u, now);
    var inv := d1.invites;
    var last := |inv| - 1;
    FirstPendingIsFirst(inv, u, last);
    var inv' := RejectInviteState(d1, last).invites;
    forall j | 0 <= j < |inv'| && inv'[j].user == u
      ensures inv'[j].status != Pending
    {
      if j < last {
        assert inv'[j] == d.invites[j];
      }
    }
  }

  /** `rejectInvite`, answering the invite `InviteToAnswer` picks: that invite
      becomes "rejected" whatever its status was; nothing else changes. */
  method RejectInvite(project: Project?, u: UserId) returns (outcome: RejectInviteOutcome)
    modifies project
    ensures project == null ==> outcome == RejectInviteCrashed
    ensures project != null ==>
      var k := InviteToAnswer(old(project.invites), u);
      if k < 0 then
        outcome == RejectInviteNotFound && project.Doc() == old(project.Doc())
      else
        && outcome == InviteRejected
        && project.Doc() == RejectInviteState(old(project.Doc()), k)
  {
    if project == null {
      return RejectInviteCrashed;
    }
    var k := InviteToAnswer(project.invites, u);
    if k < 0 {
      return RejectInviteNotFound;
    }
    project.invites := project.invites[k := project.invites[k].(status := Rejected)];
    outcome := InviteRejected;
  }
}
