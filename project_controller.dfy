/** The state-changing handlers of controllers/projectController.js: `createProject`,
    `applyToProject`, `inviteCollaborator` and `archiveProject`.

    Each handler receives the record its database lookup would return (`null` when
    the lookup finds nothing), checks its guards in the source's order, and updates
    the record in place. The guards are stated once as pure functions
    (`CreateCheck`, `ApplyCheck`, `InviteCheck`) and the new states as pure
    transitions (`ApplyState`, `InviteState`); each method is proved to follow them. */
module ProjectController {
  import opened Common
  import opened ProjectModel

  // ---------------------------------------------------------------------------
  // createProject

  /** The request body of `createProject`. Absent strings are "", an absent number
      is 0 (both falsy, as `undefined` is), absent arrays and `projectDetails` are
      `None`; an empty array is present, since `[]` is truthy. */
  datatype CreateRequest = CreateRequest(
    title: string,
    description: string,
    rolesNeeded: Option<seq<string>>,
    details: Option<Details>,
    techStack: Option<seq<string>>,
    owner: Option<UserId>,
    applicant: Option<nat>)

  datatype CreateOutcome =
    | MissingFields       // 400 "Project title, ... are required"
    | DetailsUnreadable   // 500: `projectDetails.experienceLevel` read on undefined
    | InvalidOwner        // 400 "Invalid owner ID provided"
    | InvalidApplicant    // 400 "Invalid applicant ID provided"
    | ProjectCreated      // 201
  {
    function Code(): nat
    {
      match this
      case MissingFields => 400
      case DetailsUnreadable => 500
      case InvalidOwner => 400
      case InvalidApplicant => 400
      case ProjectCreated => 201
    }
  }

  /** Every field the required-field guard tests is truthy. */
  predicate Complete(req: CreateRequest)
  {
    && req.title != "" && req.description != ""
    && req.rolesNeeded.Some? && req.techStack.Some?
    && req.details.Some?
    && req.details.value.experienceLevel != "" && req.details.value.timeline != ""
    && req.details.value.teamSize != 0
    && req.owner.Some?
  }

  /** The guards of `createProject`, in order. `authenticated` is the id of the
      caller's user record when it exists; `applicantFound` whether the `applicant`
      id names a stored application. The `||` chain stops at the first falsy field,
      so a missing `projectDetails` is only read, and throws, once title,
      description, roles and stack are present. */
  function CreateCheck(req: CreateRequest, authenticated: Option<UserId>, applicantFound: bool): (r: CreateOutcome)
    ensures r == ProjectCreated <==>
      Complete(req) && authenticated == req.owner && (req.applicant.Some? ==> applicantFound)
    ensures r == DetailsUnreadable <==>
      req.title != "" && req.description != "" && req.rolesNeeded.Some? && req.techStack.Some? && req.details.None?
    ensures !Complete(req) ==> r == MissingFields || r == DetailsUnreadable
  {
    if req.title == "" || req.description == "" || req.rolesNeeded.None? || req.techStack.None? then
      MissingFields
    else if req.details.None? then
      DetailsUnreadable
    else if req.details.value.experienceLevel == "" || req.details.value.timeline == ""
         || req.details.value.teamSize == 0 || req.owner.None? then
      MissingFields
    else if authenticated != req.owner then
      InvalidOwner
    else if req.applicant.Some? && !applicantFound then
      InvalidApplicant
    else
      ProjectCreated
  }

  /** `createProject`: on success a new record with the request's fields, owned by
      the caller, and every other field at its schema default. */
  method CreateProject(req: CreateRequest, authenticated: Option<UserId>, applicantFound: bool,
                       newId: nat, now: int)
    returns (outcome: CreateOutcome, project: Project?)
    ensures outcome == CreateCheck(req, authenticated, applicantFound)
    ensures project != null <==> outcome == ProjectCreated
    ensures project != null ==>
      && fresh(project)
      && project.Doc() == ProjectDoc(newId, req.owner.value, req.title, req.description,
                                     req.rolesNeeded.value, req.techStack.value, req.details.value,
                                     Active, TeamSearch, [], [], [], [], now)
  {
    outcome := CreateCheck(req, authenticated, applicantFound);
    project := null;
    if outcome == ProjectCreated {
      project := new Project(newId, req.owner.value, req.title, req.description,
                             req.rolesNeeded.value, req.techStack.value, req.details.value, now);
    }
  }

  // ---------------------------------------------------------------------------
  // applyToProject

  datatype ApplyOutcome = ApplyProjectNotFound | AlreadyApplied | ApplicationSubmitted
  {
    function Code(): nat
    {
      match this
      case ApplyProjectNotFound => 404
      case AlreadyApplied => 400
      case ApplicationSubmitted => 200
    }
  }

  /** At most one applicant entry per user. */
  predicate OneEntryPerUser(apps: seq<Applicant>)
  {
    forall i, j :: 0 <= i < j < |apps| ==> apps[i].user != apps[j].user
  }

  function ApplyCheck(d: Option<ProjectDoc>, user: UserId): (r: ApplyOutcome)
    ensures r == ApplicationSubmitted <==> d.Some? && !HasApplied(d.value.applicants, user)
    ensures r == ApplyProjectNotFound <==> d.None?
  {
    if d.None? then ApplyProjectNotFound
    else if HasApplied(d.value.applicants, user) then AlreadyApplied
    else ApplicationSubmitted
  }

  /** The new entry: the caller and the role; status, date and message take their
      schema defaults (pending, now, none). */
  function ApplyState(d: ProjectDoc, user: UserId, roleAppliedFor: string, id: nat, now: int): (d': ProjectDoc)
    ensures d' == d.(applicants := d'.applicants)
    ensures d'.applicants == d.applicants + [Applicant(id, user, roleAppliedFor, Pending, now, "")]
  {
    d.(applicants := d.applicants + [Applicant(id, user, roleAppliedFor, Pending, now, "")])
  }

  /** An accepted application keeps "one entry per user", and a second application
      by the same user is refused. */
  lemma ApplyKeepsOneEntry(d: ProjectDoc, user: UserId, role: string, id: nat, now: int)
    requires OneEntryPerUser(d.applicants)
    requires ApplyCheck(Some(d), user) == ApplicationSubmitted
    ensures OneEntryPerUser(ApplyState(d, user, role, id, now).applicants)
    ensures ApplyCheck(Some(ApplyState(d, user, role, id, now)), user) == AlreadyApplied
  {
    var apps := ApplyState(d, user, role, id, now).applicants;
    forall i, j | 0 <= i < j < |apps|
      ensures apps[i].user != apps[j].user
    {
      if j == |apps| - 1 {
        assert apps[i] == d.applicants[i];
        assert !HasApplied(d.applicants, user);
      }
    }
    assert apps[|apps| - 1].user == user;
    assert HasApplied(apps, user);
  }

  /** `applyToProject`, reading the caller's id from the authenticated user. The
      handler has no `try`: the model has no failure after the lookup. */
  method ApplyToProject(project: Project?, user: UserId, roleAppliedFor: string, newId: nat, now: int)
    returns (outcome: ApplyOutcome)
    modifies project
    ensures outcome == ApplyCheck(if project == null then None else Some(old(project.Doc())), user)
    ensures project != null && outcome == ApplicationSubmitted ==>
      project.Doc() == ApplyState(old(project.Doc()), user, roleAppliedFor, newId, now)
    ensures project != null && outcome != ApplicationSubmitted ==> project.Doc() == old(project.Doc())
  {
    if project == null {
      return ApplyProjectNotFound;
    }
    if HasApplied(project.applicants, user) {
      return AlreadyApplied;
    }
    project.applicants := project.applicants + [Applicant(newId, user, roleAppliedFor, Pending, now, "")];
    outcome := ApplicationSubmitted;
  }

  /** What `applyToProject` does as written, where the caller's id is read from
      `req.user_id`, a property the authentication middleware never sets. */
  datatype ApplyAsWrittenOutcome =
    | AsWrittenNotFound                      // 404
    | NoResponse                             // `undefined.toString()` throws; the handler has no `try`,
                                             // so it sends no answer of its own
    | StoredWithoutUser(roleAppliedFor: string)  // 200, the entry has no `user`

  function ApplyAsWritten(d: Option<ProjectDoc>, roleAppliedFor: string): (r: ApplyAsWrittenOutcome)
    ensures d.Some? && d.value.applicants != [] ==> r == NoResponse
    ensures d.Some? && d.value.applicants == [] ==> r == StoredWithoutUser(roleAppliedFor)
  {
    if d.None? then AsWrittenNotFound
    else if d.value.applicants != [] then NoResponse
    else StoredWithoutUser(roleAppliedFor)
  }

  /** As written, the first application to a project is answered "Application
      submitted" but records no applicant, and every later one gets no answer;
      reading the authenticated user's id instead records the caller and refuses
      only a repeat application. */
  lemma ApplyAsWrittenLosesCaller(d: ProjectDoc, user: UserId, role: string, id: nat, now: int)
    requires d.applicants == []
    ensures ApplyAsWritten(Some(d), role) == StoredWithoutUser(role)
    ensures ApplyAsWritten(Some(d.(applicants := [Applicant(id, user, role, Pending, now, "")])), role) == NoResponse
    ensures ApplyCheck(Some(d), user) == ApplicationSubmitted
    ensures HasApplied(ApplyState(d, user, role, id, now).applicants, user)
  {
    assert ApplyState(d, user, role, id, now).applicants[0].user == user;
  }

  // ---------------------------------------------------------------------------
  // inviteCollaborator

  datatype InviteOutcome =
    | InviteProjectNotFound  // 404
    | NotAuthorized          // 403
    | AlreadyCollaborator    // 400
    | AlreadyInvited         // 400
    | InviteSent             // 200
  {
    function Code(): nat
    {
      match this
      case InviteProjectNotFound => 404
      case NotAuthorized => 403
      case AlreadyCollaborator => 400
      case AlreadyInvited => 400
      case InviteSent => 200
    }
  }

  predicate PendingInvite(invites: seq<Invite>, u: UserId)
  {
    exists i :: 0 <= i < |invites| && invites[i].user == u && invites[i].status == Pending
  }

  /** The guards of `inviteCollaborator`, in order: owner, collaborator, pending
      invite. Invites already accepted or rejected do not block a new one. */
  function InviteCheck(d: Option<ProjectDoc>, user: UserId, caller: UserId): (r: InviteOutcome)
    ensures r == NotAuthorized <==> d.Some? && d.value.owner != caller
    ensures r == InviteSent <==>
      d.Some? && d.value.owner == caller && user !in d.value.collaborators && !PendingInvite(d.value.invites, user)
    ensures r == InviteProjectNotFound <==> d.None?
    ensures r == AlreadyCollaborator <==> d.Some? && d.value.owner == caller && user in d.value.collaborators
    ensures r == AlreadyInvited <==>
      d.Some? && d.value.owner == caller && user !in d.value.collaborators && PendingInvite(d.value.invites, user)
  {
    if d.None? then InviteProjectNotFound
    else if d.value.owner != caller then NotAuthorized
    else if user in d.value.collaborators then AlreadyCollaborator
    else if PendingInvite(d.value.invites, user) then AlreadyInvited
    else InviteSent
  }

  /** The appended invite `{user}`: status pending and date now by default. */
  function InviteState(d: ProjectDoc, user: UserId, now: int): (d': ProjectDoc)
    ensures d' == d.(invites := d'.invites)
    ensures d'.invites == d.invites + [Invite(user, Pending, now)]
  {
    d.(invites := d.invites + [Invite(user, Pending, now)])
  }

  /** No user holds two pending invites to the same project. */
  predicate OnePendingInviteEach(invites: seq<Invite>)
  {
    forall i, j :: 0 <= i < j < |invites| && invites[i].status == Pending && invites[j].status == Pending
      ==> invites[i].user != invites[j].user
  }

  /** The pending-invite guard keeps one pending invite per user, and makes a
      repeated invitation fail. */
  lemma InviteKeepsOnePending(d: ProjectDoc, user: UserId, caller: UserId, now: int)
    requires OnePendingInviteEach(d.invites)
    requires InviteCheck(Some(d), user, caller) == InviteSent
    ensures OnePendingInviteEach(InviteState(d, user, now).invites)
    ensures InviteCheck(Some(InviteState(d, user, now)), user, caller) == AlreadyInvited
  {
    var inv := InviteState(d, user, now).invites;
    forall i, j | 0 <= i < j < |inv| && inv[i].status == Pending && inv[j].status == Pending
      ensures inv[i].user != inv[j].user
    {
      if j == |inv| - 1 {
        assert inv[i] == d.invites[i];
      }
    }
    assert inv[|inv| - 1].user == user && inv[|inv| - 1].status == Pending;
  }

  /** `inviteCollaborator`, with the project's owner compared to the caller. */
  method InviteCollaborator(project: Project?, user: UserId, caller: UserId, now: int)
    returns (outcome: InviteOutcome)
    modifies project
    ensures outcome == InviteCheck(if project == null then None else Some(old(project.Doc())), user, caller)
    ensures project != null && outcome == InviteSent ==>
      project.Doc() == InviteState(old(project.Doc()), user, now)
    ensures project != null && outcome != InviteSent ==> project.Doc() == old(project.Doc())
  {
    if project == null {
      return InviteProjectNotFound;
    }
    if project.owner != caller {
      return NotAuthorized;
    }
    if user in project.collaborators {
      return AlreadyCollaborator;
    }
    if PendingInvite(project.invites, user) {
      return AlreadyInvited;
    }
    project.invites := project.invites + [Invite(user, Pending, now)];
    outcome := InviteSent;
  }

  // ---------------------------------------------------------------------------
  // archiveProject

  datatype ArchiveOutcome = ArchiveProjectNotFound | ProjectArchived
  {
    function Code(): nat
    {
      match this
      case ArchiveProjectNotFound => 404
      case ProjectArchived => 200
    }
  }

  /** `archiveProject`: the record found by id gets status "archived", a value the
      schema's enum admits, and nothing else changes. */
  method ArchiveProject(project: Project?) returns (outcome: ArchiveOutcome)
    modifies project
    ensures project == null <==> outcome == ArchiveProjectNotFound
    ensures project != null ==>
      && project.Doc() == old(project.Doc()).(projectStatus := Archived)
      && StatusName(project.projectStatus) in StatusEnum
  {
    if project == null {
      return ArchiveProjectNotFound;
    }
    project.projectStatus := Archived;
    StatusNameInEnum(project.projectStatus);
    outcome := ProjectArchived;
  }
}
