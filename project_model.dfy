/** The project record of models/CreateProject.js: its enums, its sub-documents
    (team members, applicants, invites) and the record itself. A stored project is a
    `Project` object whose arrays the controllers update in place; `ProjectDoc` is the
    plain snapshot that the read-only handlers (`toObject()`) work on. */
module ProjectModel {
  import opened Common
  import MatchingEngine

  /** `projectStatus`: "all", "active", "completed", "on-hold", "cancelled", "draft",
      "archived"; the default is "active". */
  datatype ProjectStatus = All | Active | Completed | OnHold | Cancelled | Draft | Archived

  /** `lifecycleStage`: "initiation", "team-search", "ongoing", "review", "completed";
      the default is "team-search". */
  datatype LifecycleStage = Initiation | TeamSearch | Ongoing | Review | Finished

  /** Status of an applicant or an invite: "pending" (the default), "accepted",
      "rejected". */
  datatype Status = Pending | Accepted | Rejected

  function StatusName(s: ProjectStatus): string
  {
    match s
    case All => "all"
    case Active => "active"
    case Completed => "completed"
    case OnHold => "on-hold"
    case Cancelled => "cancelled"
    case Draft => "draft"
    case Archived => "archived"
  }

  /** The values the schema's `projectStatus` enum admits. */
  const StatusEnum: seq<string> := ["all", "active", "completed", "on-hold", "cancelled", "draft", "archived"]

  /** Every status the model can hold is one the schema admits. */
  lemma StatusNameInEnum(s: ProjectStatus)
    ensures StatusName(s) in StatusEnum
  {
  }

  datatype TeamMember = TeamMember(user: UserId, role: string, joinedAt: int)

  /** An entry of `applicants`; `id` is the sub-document's own `_id`. */
  datatype Applicant = Applicant(
    id: nat,
    user: UserId,
    roleAppliedFor: string,
    status: Status,
    appliedAt: int,
    message: string)

  datatype Invite = Invite(user: UserId, status: Status, invitedAt: int)

  /** `projectDetails`. */
  datatype Details = Details(experienceLevel: string, timeline: string, teamSize: int)

  /** A plain copy of a stored project. */
  datatype ProjectDoc = ProjectDoc(
    id: nat,
    owner: UserId,
    title: string,
    description: string,
    rolesNeeded: seq<string>,
    techStack: seq<string>,
    details: Details,
    projectStatus: ProjectStatus,
    lifecycleStage: LifecycleStage,
    team: seq<TeamMember>,
    applicants: seq<Applicant>,
    collaborators: seq<UserId>,
    invites: seq<Invite>,
    createdAt: int)

  /** What the match scorer reads from a project. */
  function NeedsOf(d: ProjectDoc): (n: MatchingEngine.Needs)
    ensures n.rolesNeeded == d.rolesNeeded && n.techStack == d.techStack
    ensures n.experienceLevel == d.details.experienceLevel && n.timeline == d.details.timeline
  {
    MatchingEngine.Needs(d.rolesNeeded, d.techStack, d.details.experienceLevel, d.details.timeline)
  }

  /** Whether `u` has an entry in `applicants`. */
  predicate HasApplied(apps: seq<Applicant>, u: UserId)
  {
    exists i :: 0 <= i < |apps| && apps[i].user == u
  }

  predicate InTeam(team: seq<TeamMember>, u: UserId)
  {
    exists i :: 0 <= i < |team| && team[i].user == u
  }

  /** A stored project. */
  class Project {
    const id: nat
    var owner: UserId
    var title: string
    var description: string
    var rolesNeeded: seq<string>
    var techStack: seq<string>
    var details: Details
    var projectStatus: ProjectStatus
    var lifecycleStage: LifecycleStage
    var team: seq<TeamMember>
    var applicants: seq<Applicant>
    var collaborators: seq<UserId>
    var invites: seq<Invite>
    var createdAt: int

    /** `new Project({...})`: the given fields, every other field at its schema
        default. */
    constructor (id: nat, owner: UserId, title: string, description: string,
                 rolesNeeded: seq<string>, techStack: seq<string>, details: Details, now: int)
      ensures Doc() == ProjectDoc(id, owner, title, description, rolesNeeded, techStack, details,
                                  Active, TeamSearch, [], [], [], [], now)
    {
      this.id := id;
      this.owner := owner;
      this.title := title;
      this.description := description;
      this.rolesNeeded := rolesNeeded;
      this.techStack := techStack;
      this.details := details;
      projectStatus := Active;
      lifecycleStage := TeamSearch;
      team := [];
      applicants := [];
      collaborators := [];
      invites := [];
      createdAt := now;
    }

    /** `project.toObject()`. */
    function Doc(): ProjectDoc
      reads this
    {
      ProjectDoc(id, owner, title, description, rolesNeeded, techStack, details,
                 projectStatus, lifecycleStage, team, applicants, collaborators, invites, createdAt)
    }
  }
}
