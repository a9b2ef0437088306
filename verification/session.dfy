/** The store's action interface, replayed: an action is one call of a store
    operation with its arguments (including the id the generator produced and
    the clock reading). A call made while its project is selected but the
    mirror is null either throws (reading a field of `currentProject!`) or
    stores a partial record as the mirror; either way the run gets stuck. */
module Session {
  import opened Types
  import opened Patches
  import Store

  datatype Action =
    | AddProject(draft: ProjectDraft, newId: string, createdNow: string, updatedNow: string)
    | SetCurrentProject(selected: Option<string>)
    | UpdateProject(pid: string, projectPatch: ProjectPatch, now: string, mirrorNow: string)
    | DeleteProject(pid: string)
    | AddDocument(pid: string, documentDraft: DocumentDraft, newId: string, now: string, mirrorNow: string)
    | UpdateDocument(pid: string, did: string, documentPatch: DocumentPatch, now: string, mirrorNow: string)
    | DeleteDocument(pid: string, did: string, now: string, mirrorNow: string)
    | AddContact(pid: string, contactDraft: ContactDraft, newId: string, now: string, mirrorNow: string)
    | UpdateContact(pid: string, cid: string, contactPatch: ContactPatch, now: string, mirrorNow: string)
    | DeleteContact(pid: string, cid: string, now: string, mirrorNow: string)
    | AddTask(pid: string, taskDraft: TaskDraft, newId: string, now: string, mirrorNow: string)
    | UpdateTask(pid: string, tid: string, taskPatch: TaskPatch, now: string, mirrorNow: string)
    | DeleteTask(pid: string, tid: string, now: string, mirrorNow: string)
    | CompleteTask(pid: string, tid: string, now: string, mirrorNow: string)
    | UpdateFinancing(pid: string, financingPatch: FinancingPatch, now: string, mirrorNow: string)
    | UpdateStage(pid: string, stage: Stage, now: string, mirrorNow: string)
  {
    /** The operations that rewrite one project by id (and read the mirror when it is selected). */
    predicate TargetsProject()
    {
      !(AddProject? || SetCurrentProject? || DeleteProject?)
    }
  }

  /** One call; `None` when the call meets a null mirror for its selected project. */
  function Step(s: Store.State, a: Action): Option<Store.State>
  {
    if a.TargetsProject() && !Store.MirrorReadable(s, a.pid) then None
    else
      Some(match a
        case AddProject(d, id, c, u) => Store.AddProject(s, d, id, c, u)
        case SetCurrentProject(sel) => Store.SetCurrentProject(s, sel)
        case UpdateProject(pid, u, now, mn) => Store.UpdateProject(s, pid, u, now, mn)
        case DeleteProject(pid) => Store.DeleteProject(s, pid)
        case AddDocument(pid, d, id, now, mn) => Store.AddDocument(s, pid, d, id, now, mn)
        case UpdateDocument(pid, did, u, now, mn) => Store.UpdateDocument(s, pid, did, u, now, mn)
        case DeleteDocument(pid, did, now, mn) => Store.DeleteDocument(s, pid, did, now, mn)
        case AddContact(pid, c, id, now, mn) => Store.AddContact(s, pid, c, id, now, mn)
        case UpdateContact(pid, cid, u, now, mn) => Store.UpdateContact(s, pid, cid, u, now, mn)
        case DeleteContact(pid, cid, now, mn) => Store.DeleteContact(s, pid, cid, now, mn)
        case AddTask(pid, t, id, now, mn) => Store.AddTask(s, pid, t, id, now, mn)
        case UpdateTask(pid, tid, u, now, mn) => Store.UpdateTask(s, pid, tid, u, now, mn)
        case DeleteTask(pid, tid, now, mn) => Store.DeleteTask(s, pid, tid, now, mn)
        case CompleteTask(pid, tid, now, mn) => Store.CompleteTask(s, pid, tid, now, mn)
        case UpdateFinancing(pid, u, now, mn) => Store.UpdateFinancing(s, pid, u, now, mn)
        case UpdateStage(pid, st, now, mn) => Store.UpdateStage(s, pid, st, now, mn))
  }

  /** The calls one after another, stopping at the first that gets stuck. */
  function Run(s: Store.State, actions: seq<Action>): Option<Store.State>
    decreases |actions|
  {
    if |actions| == 0 then Some(s)
    else match Step(s, actions[0])
      case None => None
      case Some(s') => Run(s', actions[1..])
  }

  /** What the mirror invariant needs of a call: a generated project id is
      not already in use, a project patch does not move the project to
      another id, and the clock reading stamped on the mirror is the one
      stamped on the project list. */
  predicate Honest(s: Store.State, a: Action)
  {
    && (a.AddProject? ==> !Store.HasProject(s.projects, a.newId))
    && (a.UpdateProject? ==> a.projectPatch.id.None? || a.projectPatch.id == Some(a.pid))
    && (a.TargetsProject() ==> a.mirrorNow == a.now)
  }

  /** Every call of the run is honest in the state it is made in. */
  predicate AllHonest(s: Store.State, actions: seq<Action>)
    decreases |actions|
  {
    |actions| == 0 ||
    (Honest(s, actions[0]) &&
     match Step(s, actions[0])
     case None => true
     case Some(s') => AllHonest(s', actions[1..]))
  }

  /** Under the mirror invariant a call gets stuck exactly when it targets the
      selected id while no project carries that id (a selection that
      `setCurrentProject` can make). */
  lemma StuckExactlyOnDanglingSelection(s: Store.State, a: Action)
    requires Store.Mirrored(s)
    ensures Step(s, a).None? <==>
      a.TargetsProject() && s.currentProjectId == Some(a.pid) && !Store.HasProject(s.projects, a.pid)
  {
    if a.TargetsProject() && s.currentProjectId == Some(a.pid) && Store.HasProject(s.projects, a.pid) {
      var i :| 0 <= i < |s.projects| && s.projects[i].id == a.pid;
      assert Store.ProjectIs(a.pid)(s.projects[i]);
    }
  }

  lemma StepKeepsMirror(s: Store.State, a: Action)
    requires Store.Mirrored(s) && Honest(s, a)
    ensures Step(s, a).Some? ==> Store.Mirrored(Step(s, a).value)
  {
    match a
    case AddProject(d, id, c, u) =>
    case SetCurrentProject(sel) =>
    case UpdateProject(pid, u, now, mn) =>
    case DeleteProject(pid) =>
    case AddDocument(pid, d, id, now, mn) =>
    case UpdateDocument(pid, did, u, now, mn) =>
    case DeleteDocument(pid, did, now, mn) =>
    case AddContact(pid, c, id, now, mn) =>
    case UpdateContact(pid, cid, u, now, mn) =>
    case DeleteContact(pid, cid, now, mn) =>
    case AddTask(pid, t, id, now, mn) =>
    case UpdateTask(pid, tid, u, now, mn) =>
    case DeleteTask(pid, tid, now, mn) =>
    case CompleteTask(pid, tid, now, mn) =>
    case UpdateFinancing(pid, u, now, mn) =>
    case UpdateStage(pid, st, now, mn) =>
  }

  /** Starting from a state whose mirror is in step, any run of honest calls
      that does not get stuck ends in a state whose mirror is in step. */
  lemma {:induction false} RunKeepsMirror(s: Store.State, actions: seq<Action>)
    requires Store.Mirrored(s)
    requires AllHonest(s, actions)
    ensures Run(s, actions).Some? ==> Store.Mirrored(Run(s, actions).value)
    decreases |actions|
  {
    if |actions| > 0 {
      StepKeepsMirror(s, actions[0]);
      match Step(s, actions[0])
      case None =>
      case Some(s') => RunKeepsMirror(s', actions[1..]);
    }
  }

  /** The empty store is in step, so every honest run from it is. */
  lemma RunFromInitialKeepsMirror(actions: seq<Action>)
    requires AllHonest(Store.Initial, actions)
    ensures Run(Store.Initial, actions).Some? ==> Store.Mirrored(Run(Store.Initial, actions).value)
  {
    RunKeepsMirror(Store.Initial, actions);
  }
}
