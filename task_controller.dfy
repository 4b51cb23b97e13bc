/** The task board of controllers/taskController.js: who may create, update and
    delete a task, how `updateTaskStatus` changes the status and the notes of a
    stored task in place, and to whom each change is announced. The task and project
    collections are in-memory values passed in: `projects` maps a project id to its
    owner, and a missing key is a project `findById` (or `populate`) does not find. */
module TaskController {
  import opened Common

  /** An entry of `task.notes`. */
  datatype Note = Note(user: UserId, text: string)

  /** A plain copy of a stored task. */
  datatype TaskDoc = TaskDoc(
    id: nat,
    project: nat,
    title: string,
    description: string,
    assignee: Option<UserId>,
    deadline: Option<int>,
    priority: string,
    status: string,
    notes: seq<Note>)

  /** A stored task; `updateTaskStatus` assigns its status and pushes onto its notes. */
  class Task {
    const id: nat
    var project: nat
    var title: string
    var description: string
    var assignee: Option<UserId>
    var deadline: Option<int>
    var priority: string
    var status: string
    var notes: seq<Note>

    constructor (d: TaskDoc)
      ensures Doc() == d
    {
      id := d.id;
      project := d.project;
      title := d.title;
      description := d.description;
      assignee := d.assignee;
      deadline := d.deadline;
      priority := d.priority;
      status := d.status;
      notes := d.notes;
    }

    function Doc(): TaskDoc
      reads this
    {
      TaskDoc(id, project, title, description, assignee, deadline, priority, status, notes)
    }
  }

  datatype NotificationKind = TaskAssigned | TaskUpdated

  /** A notification record as `Notification.create` receives it. */
  datatype Notification = Notification(
    recipient: UserId,
    sender: UserId,
    kind: NotificationKind,
    project: nat,
    text: string)

  /** A request body field is truthy: present and not the empty string. */
  predicate Provided(v: Option<string>)
  {
    v.Some? && v.value != ""
  }

  /** A body field as a template literal shows it; an absent field reads "undefined". */
  function Shown(v: Option<string>): (s: string)
    ensures v.Some? ==> s == v.value
    ensures v.None? ==> s == "undefined"
  {
    if v.Some? then v.value else "undefined"
  }

  /** The owner of a stored project, if the project exists. */
  function OwnerOf(projects: map<nat, UserId>, id: nat): (o: Option<UserId>)
    ensures o.Some? <==> id in projects
    ensures o.Some? ==> o.value == projects[id]
  {
    if id in projects then Some(projects[id]) else None
  }

  // ----- createTask -----

  datatype CreateOutcome = ProjectNotFound | NotProjectOwner | TaskCreated
  {
    function Code(): nat
    {
      match this
      case ProjectNotFound => 404
      case NotProjectOwner => 403
      case TaskCreated => 201
    }
  }

  /** The guards of `createTask`: the project must exist and the caller must own it. */
  function CreateCheck(projects: map<nat, UserId>, projectId: nat, caller: UserId): (o: CreateOutcome)
    ensures o == ProjectNotFound <==> projectId !in projects
    ensures o == NotProjectOwner <==> projectId in projects && projects[projectId] != caller
    ensures o == TaskCreated <==> projectId in projects && projects[projectId] == caller
  {
    if projectId !in projects then ProjectNotFound
    else if projects[projectId] != caller then NotProjectOwner
    else TaskCreated
  }

  /** The "task_assigned" notification of a new task, sent only when the task has an
      assignee. */
  function AssignedNotice(caller: UserId, projectId: nat, title: string, assignee: Option<UserId>)
    : (n: Option<Notification>)
    ensures n.Some? <==> assignee.Some?
    ensures n.Some? ==> n.value.recipient == assignee.value && n.value.sender == caller
                        && n.value.kind == TaskAssigned && n.value.project == projectId
  {
    if assignee.Some? then
      Some(Notification(assignee.value, caller, TaskAssigned, projectId,
                        "You have been assigned a new task: " + title))
    else None
  }

  /** `createTask`. The new task has no notes and the status `defaultStatus` that the
      task schema supplies. */
  method CreateTask(projects: map<nat, UserId>, caller: UserId, newId: nat, projectId: nat,
                    title: string, description: string, assignee: Option<UserId>,
                    deadline: Option<int>, priority: string, defaultStatus: string)
    returns (outcome: CreateOutcome, task: Task?, notice: Option<Notification>)
    ensures outcome == CreateCheck(projects, projectId, caller)
    ensures task != null <==> outcome == TaskCreated
    ensures task != null ==> fresh(task) && task.Doc() == TaskDoc(newId, projectId, title, description,
                                                                  assignee, deadline, priority,
                                                                  defaultStatus, [])
    ensures notice == (if outcome == TaskCreated then AssignedNotice(caller, projectId, title, assignee)
                       else None)
  {
    if projectId !in projects {
      return ProjectNotFound, null, None;
    }
    if projects[projectId] != caller {
      return NotProjectOwner, null, None;
    }
    task := new Task(TaskDoc(newId, projectId, title, description, assignee, deadline, priority,
                             defaultStatus, []));
    notice := None;
    if assignee.Some? {
      notice := Some(Notification(assignee.value, caller, TaskAssigned, projectId,
                                  "You have been assigned a new task: " + title));
    }
    outcome := TaskCreated;
  }

  // ----- updateTaskStatus -----

  datatype UpdateOutcome = TaskNotFound | ProjectGone | NotAuthorised | TaskChanged
  {
    function Code(): nat
    {
      match this
      case TaskNotFound => 404
      case ProjectGone => 500
      case NotAuthorised => 403
      case TaskChanged => 200
    }
  }

  /** The caller is the owner of the task's project or the task's assignee. */
  predicate MayUpdate(t: TaskDoc, projects: map<nat, UserId>, u: UserId)
    ensures MayUpdate(t, projects, u) ==> t.project in projects
    ensures t.project in projects && u == projects[t.project] ==> MayUpdate(t, projects, u)
    ensures t.project in projects && t.assignee == Some(u) ==> MayUpdate(t, projects, u)
  {
    t.project in projects && (projects[t.project] == u || t.assignee == Some(u))
  }

  /** The guards of `updateTaskStatus`. A task whose project is gone makes the
      owner comparison throw, which the handler answers with 500. */
  function UpdateCheck(task: Option<TaskDoc>, projects: map<nat, UserId>, caller: UserId)
    : (o: UpdateOutcome)
    ensures o == TaskNotFound <==> task.None?
    ensures o == ProjectGone <==> task.Some? && task.value.project !in projects
    ensures o == TaskChanged <==> task.Some? && MayUpdate(task.value, projects, caller)
  {
    if task.None? then TaskNotFound
    else if task.value.project !in projects then ProjectGone
    else if projects[task.value.project] != caller && task.value.assignee != Some(caller) then NotAuthorised
    else TaskChanged
  }

  /** The task after an authorised update: the status is replaced only by a provided
      status, a provided note is appended after the existing ones, and nothing else
      changes. */
  function Update(t: TaskDoc, caller: UserId, status: Option<string>, note: Option<string>)
    : (r: TaskDoc)
    ensures Provided(status) ==> r.status == status.value
    ensures !Provided(status) ==> r.status == t.status
    ensures |r.notes| == |t.notes| + (if Provided(note) then 1 else 0)
    ensures r.notes[..|t.notes|] == t.notes
    ensures Provided(note) ==> r.notes[|t.notes|] == Note(caller, note.value)
    ensures r.(status := t.status, notes := t.notes) == t
  {
    t.(status := if Provided(status) then status.value else t.status,
       notes := if Provided(note) then t.notes + [Note(caller, note.value)] else t.notes)
  }

  /** Who hears about an update: the assignee when the owner made it, the owner
      otherwise. */
  function Recipient(caller: UserId, owner: UserId, assignee: Option<UserId>): (r: Option<UserId>)
    ensures caller == owner ==> r == assignee
    ensures caller != owner ==> r == Some(owner)
  {
    if caller == owner then assignee else Some(owner)
  }

  /** The other party hears about an update: the only update announced to its own
      author is one by an owner who assigned the task to themselves, and an update by
      an assignee who does not own the project always reaches the owner. */
  lemma RecipientIsOtherParty(caller: UserId, owner: UserId, assignee: Option<UserId>)
    ensures Recipient(caller, owner, assignee) == Some(caller) <==> caller == owner && assignee == Some(owner)
    ensures assignee == Some(caller) && caller != owner ==> Recipient(caller, owner, assignee) == Some(owner)
    ensures Recipient(caller, owner, assignee).None? <==> caller == owner && assignee.None?
  {
  }

  /** The "task_updated" notification, sent only when there is a recipient. */
  function UpdatedNotice(t: TaskDoc, owner: UserId, caller: UserId, status: Option<string>)
    : (n: Option<Notification>)
    ensures n.Some? <==> Recipient(caller, owner, t.assignee).Some?
    ensures n.Some? ==> n.value.recipient == Recipient(caller, owner, t.assignee).value
                        && n.value.sender == caller && n.value.kind == TaskUpdated
                        && n.value.project == t.project
  {
    match Recipient(caller, owner, t.assignee)
    case None => None
    case Some(r) =>
      Some(Notification(r, caller, TaskUpdated, t.project,
                        "Task \"" + t.title + "\" has been updated to " + Shown(status)))
  }

  /** `updateTaskStatus` on the stored task `task` (null when `findById` finds none). */
  method UpdateTaskStatus(task: Task?, projects: map<nat, UserId>, caller: UserId,
                          status: Option<string>, note: Option<string>)
    returns (outcome: UpdateOutcome, notice: Option<Notification>)
    modifies task
    ensures outcome == UpdateCheck(old(if task == null then None else Some(task.Doc())), projects, caller)
    ensures task != null && outcome == TaskChanged ==>
              task.Doc() == Update(old(task.Doc()), caller, status, note)
              && notice == UpdatedNotice(task.Doc(), projects[task.project], caller, status)
    ensures task != null && outcome != TaskChanged ==> task.Doc() == old(task.Doc())
    ensures outcome != TaskChanged ==> notice.None?
  {
    if task == null {
      return TaskNotFound, None;
    }
    if task.project !in projects {
      return ProjectGone, None;
    }
    var owner := projects[task.project];
    var isOwner := owner == caller;
    var isAssignee := task.assignee == Some(caller);
    if !isOwner && !isAssignee {
      return NotAuthorised, None;
    }
    if Provided(status) {
      task.status := status.value;
    }
    if Provided(note) {
      task.notes := task.notes + [Note(caller, note.value)];
    }
    var recipient := if caller == owner then task.assignee else Some(owner);
    notice := None;
    if recipient.Some? {
      notice := Some(Notification(recipient.value, caller, TaskUpdated, task.project,
                                  "Task \"" + task.title + "\" has been updated to " + Shown(status)));
    }
    outcome := TaskChanged;
  }

  /** One `updateTaskStatus` request against a stored task. */
  datatype UpdateRequest = UpdateRequest(caller: UserId, status: Option<string>, note: Option<string>)

  /** The task after one request: changed if the request is authorised, as it was
      otherwise. */
  function Step(t: TaskDoc, projects: map<nat, UserId>, q: UpdateRequest): (r: TaskDoc)
    ensures r.project == t.project && r.assignee == t.assignee && r.title == t.title
  {
    if UpdateCheck(Some(t), projects, q.caller) == TaskChanged then Update(t, q.caller, q.status, q.note)
    else t
  }

  /** The task after a series of requests, in order. */
  function Replay(t: TaskDoc, projects: map<nat, UserId>, qs: seq<UpdateRequest>): (r: TaskDoc)
    ensures r.project == t.project && r.assignee == t.assignee && r.title == t.title
    decreases |qs|
  {
    if qs == [] then t else Replay(Step(t, projects, qs[0]), projects, qs[1..])
  }

  /** Notes are append-only: whatever requests arrive, the notes a task had stay in
      place at the front, and every note added since was written by the project's
      owner or the task's assignee. */
  lemma {:induction false} NotesAppendOnly(t: TaskDoc, projects: map<nat, UserId>, qs: seq<UpdateRequest>)
    ensures |t.notes| <= |Replay(t, projects, qs).notes|
    ensures Replay(t, projects, qs).notes[..|t.notes|] == t.notes
    ensures Replay(t, projects, qs).project == t.project && Replay(t, projects, qs).assignee == t.assignee
    ensures forall i :: |t.notes| <= i < |Replay(t, projects, qs).notes| ==>
              MayUpdate(t, projects, Replay(t, projects, qs).notes[i].user)
    decreases |qs|
  {
    if qs != [] {
      var s := Step(t, projects, qs[0]);
      var r := Replay(s, projects, qs[1..]);
      NotesAppendOnly(s, projects, qs[1..]);
      assert r == Replay(t, projects, qs);
      assert s.notes[..|t.notes|] == t.notes;
      forall i | |t.notes| <= i < |r.notes|
        ensures MayUpdate(t, projects, r.notes[i].user)
      {
        if i < |s.notes| {
          assert r.notes[i] == r.notes[..|s.notes|][i] == s.notes[i];
          assert s.notes[i] == Note(qs[0].caller, qs[0].note.value);
        }
      }
      assert r.notes[..|t.notes|] == r.notes[..|s.notes|][..|t.notes|];
    }
  }

  /** Requests from anyone who is neither the owner nor the assignee leave the task
      exactly as it was. */
  lemma {:induction false} OutsidersChangeNothing(t: TaskDoc, projects: map<nat, UserId>,
                                                  qs: seq<UpdateRequest>)
    requires forall k :: 0 <= k < |qs| ==> !MayUpdate(t, projects, qs[k].caller)
    ensures Replay(t, projects, qs) == t
    decreases |qs|
  {
    if qs != [] {
      assert Step(t, projects, qs[0]) == t;
      OutsidersChangeNothing(t, projects, qs[1..]);
    }
  }

  // ----- deleteTask -----

  datatype DeleteOutcome = DeleteNotFound | DeleteProjectGone | NotOwner | TaskDeleted
  {
    function Code(): nat
    {
      match this
      case DeleteNotFound => 404
      case DeleteProjectGone => 500
      case NotOwner => 403
      case TaskDeleted => 200
    }
  }

  /** `deleteTask` over the task collection: only the owner of the task's project
      removes it, and nothing else in the collection changes. */
  function DeleteTask(tasks: map<nat, TaskDoc>, projects: map<nat, UserId>, taskId: nat, caller: UserId)
    : (r: (DeleteOutcome, map<nat, TaskDoc>))
    ensures r.0 == DeleteNotFound <==> taskId !in tasks
    ensures r.0 == DeleteProjectGone <==> taskId in tasks && tasks[taskId].project !in projects
    ensures r.0 == TaskDeleted <==> taskId in tasks && tasks[taskId].project in projects
                                    && projects[tasks[taskId].project] == caller
    ensures r.0 == TaskDeleted ==> taskId !in r.1 && r.1.Keys == tasks.Keys - {taskId}
                                   && forall k :: k in r.1 ==> r.1[k] == tasks[k]
    ensures r.0 != TaskDeleted ==> r.1 == tasks
  {
    if taskId !in tasks then (DeleteNotFound, tasks)
    else if tasks[taskId].project !in projects then (DeleteProjectGone, tasks)
    else if projects[tasks[taskId].project] != caller then (NotOwner, tasks)
    else (TaskDeleted, tasks - {taskId})
  }

  /** Deleting is reserved to the owner: whoever may delete a task may also update it,
      while an assignee who does not own the project may update it but never delete it. */
  lemma DeleteNarrowerThanUpdate(tasks: map<nat, TaskDoc>, projects: map<nat, UserId>, taskId: nat,
                                 caller: UserId)
    requires taskId in tasks
    ensures DeleteTask(tasks, projects, taskId, caller).0 == TaskDeleted ==>
              UpdateCheck(Some(tasks[taskId]), projects, caller) == TaskChanged
    ensures tasks[taskId].project in projects && projects[tasks[taskId].project] != caller
            && tasks[taskId].assignee == Some(caller) ==>
              UpdateCheck(Some(tasks[taskId]), projects, caller) == TaskChanged
              && DeleteTask(tasks, projects, taskId, caller).0 == NotOwner
  {
  }
}
