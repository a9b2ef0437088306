/** The project store: its state and every operation on it, each a pure
    rewrite of the state. The clock and the id generator become parameters:
    `newId` is the id an operation assigns, and each clock reading the
    operation takes is a parameter of its own. A per-project operation reads
    the clock once for the project list (`now`) and once more for the mirror
    (`mirrorNow`). */
module Store {
  import opened Types
  import opened Seqs
  import opened Patches

  /** `currentProject` is a denormalised copy of the selected project. */
  datatype State = State(
    projects: seq<Project>,
    currentProjectId: Option<string>,
    currentProject: Option<Project>)

  const Initial := State([], None, None)

  function ProjectIs(id: string): Project -> bool { (p: Project) => p.id == id }
  function ProjectIsNot(id: string): Project -> bool { (p: Project) => p.id != id }
  function DocumentIs(id: string): Document -> bool { (d: Document) => d.id == id }
  function DocumentIsNot(id: string): Document -> bool { (d: Document) => d.id != id }
  function ContactIs(id: string): Contact -> bool { (c: Contact) => c.id == id }
  function ContactIsNot(id: string): Contact -> bool { (c: Contact) => c.id != id }
  function TaskIs(id: string): Task -> bool { (t: Task) => t.id == id }
  function TaskIsNot(id: string): Task -> bool { (t: Task) => t.id != id }

  /** `projects.find(p => p.id === id)`. */
  function Lookup(ps: seq<Project>, id: string): Option<Project>
  {
    Find(ps, ProjectIs(id))
  }

  predicate HasProject(ps: seq<Project>, id: string)
  {
    exists i :: 0 <= i < |ps| && ps[i].id == id
  }

  /** The dual-write invariant: the mirror is exactly what a lookup of the
      selected id finds, and there is no mirror without a selection. */
  predicate Mirrored(s: State)
  {
    match s.currentProjectId
    case None => s.currentProject.None?
    case Some(id) => s.currentProject == Lookup(s.projects, id)
  }

  /** The child operations read `state.currentProject!` whenever project `pid`
      is the selected one; that read fails if the mirror is null. */
  predicate MirrorReadable(s: State, pid: string)
  {
    s.currentProjectId == Some(pid) ==> s.currentProject.Some?
  }

  /** Nothing outside the projects with id `pid` changes, nor the selection. */
  predicate OnlyProjectChanged(s: State, r: State, pid: string)
  {
    && |r.projects| == |s.projects|
    && (forall i :: 0 <= i < |s.projects| && s.projects[i].id != pid ==> r.projects[i] == s.projects[i])
    && (!HasProject(s.projects, pid) ==> r.projects == s.projects)
    && r.currentProjectId == s.currentProjectId
    && (s.currentProjectId != Some(pid) ==> r.currentProject == s.currentProject)
    && (s.currentProject.Some? ==> r.currentProject.Some?)
  }

  /** The shape shared by every per-project operation: rewrite each project
      with id `pid` by `f`, and rewrite the mirror by `g` when `pid` is the
      selected id. In the program `f` and `g` are two copies of one object
      literal that differ only in their clock reading. */
  function ApplyToProject(s: State, pid: string, f: Project -> Project, g: Project -> Project): (r: State)
    requires MirrorReadable(s, pid)
    ensures OnlyProjectChanged(s, r, pid)
    ensures forall i :: 0 <= i < |s.projects| && s.projects[i].id == pid ==> r.projects[i] == f(s.projects[i])
    ensures s.currentProjectId == Some(pid) ==> r.currentProject == Some(g(s.currentProject.value))
  {
    State(
      MapWhere(s.projects, ProjectIs(pid), f),
      s.currentProjectId,
      if s.currentProjectId == Some(pid) then Some(g(s.currentProject.value)) else s.currentProject)
  }

  /** For a rewrite that keeps the id of the target project, a mirror in step
      stays in step exactly when, should the target be selected, the mirror's
      rewrite of it agrees with the list's. */
  lemma ApplyToProjectKeepsMirror(s: State, pid: string, f: Project -> Project, g: Project -> Project)
    requires MirrorReadable(s, pid)
    ensures Mirrored(s) && (forall p: Project :: p.id == pid ==> f(p).id == pid) ==>
      (Mirrored(ApplyToProject(s, pid, f, g)) <==>
       (s.currentProjectId == Some(pid) ==> g(s.currentProject.value) == f(s.currentProject.value)))
  {
    if Mirrored(s) && (forall p: Project :: p.id == pid ==> f(p).id == pid) && s.currentProjectId.Some? {
      var cur := s.currentProjectId.value;
      FindAfterMapWhere(s.projects, ProjectIs(pid), f, ProjectIs(cur));
    }
  }

  /** A project appended under an id no earlier project has is what a lookup of that id finds. */
  lemma LookupAppended(ps: seq<Project>, p: Project)
    ensures !HasProject(ps, p.id) ==> Lookup(ps + [p], p.id) == Some(p)
  {
    if !HasProject(ps, p.id) {
      FindAppended(ps, p, ProjectIs(p.id));
    }
  }

  /** Deleting one id does not change what a lookup of any other id finds. */
  lemma LookupAfterDelete(ps: seq<Project>, pid: string, id: string)
    ensures id != pid ==> Lookup(Filter(ps, ProjectIsNot(pid)), id) == Lookup(ps, id)
  {
    if id != pid {
      FindAfterFilter(ps, ProjectIsNot(pid), ProjectIs(id));
    }
  }

  function NewProject(draft: ProjectDraft, id: string, createdNow: string, updatedNow: string): Project
  {
    Project(
      id, draft.name, draft.propertyType, draft.address, draft.price, draft.size, draft.rooms,
      draft.stage, [], [], [], NoFinancing, createdNow, updatedNow)
  }

  /** `addProject`: append a new, empty project and select it. The two
      stamps are two clock readings. */
  function AddProject(s: State, draft: ProjectDraft, newId: string, createdNow: string, updatedNow: string): (r: State)
    ensures |r.projects| == |s.projects| + 1
    ensures r.projects[..|s.projects|] == s.projects
    ensures var p := r.projects[|s.projects|];
      && p.id == newId
      && p.name == draft.name && p.propertyType == draft.propertyType
      && p.address == draft.address && p.price == draft.price
      && p.size == draft.size && p.rooms == draft.rooms && p.stage == draft.stage
      && p.documents == [] && p.contacts == [] && p.tasks == []
      && p.financing == NoFinancing
      && p.createdAt == createdNow && p.updatedAt == updatedNow
      && r.currentProjectId == Some(newId)
      && r.currentProject == Some(p)
    ensures !HasProject(s.projects, newId) ==> Mirrored(r)
  {
    var p := NewProject(draft, newId, createdNow, updatedNow);
    LookupAppended(s.projects, p);
    State(s.projects + [p], Some(newId), Some(p))
  }

  /** `setCurrentProject`: a null or empty id clears the selection; any other
      id is selected, with the mirror set to the first project carrying it
      (or null when none does). */
  function SetCurrentProject(s: State, projectId: Option<string>): (r: State)
    ensures r.projects == s.projects
    ensures projectId.None? || projectId == Some("") ==> r.currentProjectId.None? && r.currentProject.None?
    ensures projectId.Some? && projectId != Some("") ==> r.currentProjectId == projectId
    ensures Mirrored(r)
  {
    if projectId.None? || projectId.value == "" then State(s.projects, None, None)
    else State(s.projects, projectId, Lookup(s.projects, projectId.value))
  }

  /** `updateProject`: spread the patch over every project with the id and
      stamp it; when the id is selected, spread the same patch over the
      mirror and stamp it with the second reading. */
  function UpdateProject(s: State, pid: string, u: ProjectPatch, now: string, mirrorNow: string): (r: State)
    requires MirrorReadable(s, pid)
    ensures OnlyProjectChanged(s, r, pid)
    ensures forall i :: 0 <= i < |s.projects| && s.projects[i].id == pid ==>
      r.projects[i] == PatchProject(s.projects[i], u).(updatedAt := now)
    ensures s.currentProjectId == Some(pid) ==>
      r.currentProject == Some(PatchProject(s.currentProject.value, u).(updatedAt := mirrorNow))
    ensures Mirrored(s) && (u.id.None? || u.id == Some(pid)) ==>
      (Mirrored(r) <==> (s.currentProjectId == Some(pid) ==> mirrorNow == now))
  {
    var at := (t: string) => (p: Project) => PatchProject(p, u).(updatedAt := t);
    ApplyToProjectKeepsMirror(s, pid, at(now), at(mirrorNow));
    ApplyToProject(s, pid, at(now), at(mirrorNow))
  }

  /** A patch that moves the selected project to another id takes the mirror
      out of step, whatever the clock says: the mirror then carries the new
      id while the selection keeps the old one. */
  lemma IdChangingUpdateBreaksMirror(s: State, pid: string, u: ProjectPatch, now: string, mirrorNow: string)
    requires MirrorReadable(s, pid)
    requires s.currentProjectId == Some(pid)
    requires u.id.Some? && u.id != Some(pid)
    ensures !Mirrored(UpdateProject(s, pid, u, now, mirrorNow))
  {
  }

  /** `deleteProject`: drop every project with the id; clear the selection
      exactly when the id was the selected one. */
  function DeleteProject(s: State, pid: string): (r: State)
    ensures forall k :: 0 <= k < |r.projects| ==> r.projects[k] in s.projects && r.projects[k].id != pid
    ensures forall i :: 0 <= i < |s.projects| && s.projects[i].id != pid ==> s.projects[i] in r.projects
    ensures r.projects == Filter(s.projects, ProjectIsNot(pid))
    ensures s.currentProjectId == Some(pid) ==> r.currentProjectId.None? && r.currentProject.None?
    ensures s.currentProjectId != Some(pid) ==>
      r.currentProjectId == s.currentProjectId && r.currentProject == s.currentProject
    ensures Mirrored(s) ==> Mirrored(r)
  {
    var ps := Filter(s.projects, ProjectIsNot(pid));
    LookupAfterDelete(s.projects, pid, if s.currentProjectId.Some? then s.currentProjectId.value else pid);
    if s.currentProjectId == Some(pid) then State(ps, None, None)
    else State(ps, s.currentProjectId, s.currentProject)
  }

  // Documents

  function NewDocument(draft: DocumentDraft, id: string): Document
  {
    Document(id, draft.name, draft.category, draft.date, draft.file, draft.fileUrl, draft.notes)
  }

  /** `q2` is `q` with `d` appended to its documents, stamped `at`, and nothing else changed. */
  predicate DocumentAppended(q: Project, q2: Project, d: Document, at: string)
  {
    && q2.documents == q.documents + [d]
    && q2.updatedAt == at
    && q2.(documents := q.documents, updatedAt := q.updatedAt) == q
  }

  function WithDocumentAppended(q: Project, d: Document, at: string): (q2: Project)
    ensures DocumentAppended(q, q2, d, at)
  {
    q.(documents := q.documents + [d], updatedAt := at)
  }

  /** `q2` is `q` with the patch spread over exactly the documents with id
      `did`, stamped `at` even when no document has that id. */
  predicate DocumentsPatched(q: Project, q2: Project, did: string, u: DocumentPatch, at: string)
  {
    && |q2.documents| == |q.documents|
    && (forall j :: 0 <= j < |q.documents| && q.documents[j].id == did ==>
          q2.documents[j] == PatchDocument(q.documents[j], u))
    && (forall j :: 0 <= j < |q.documents| && q.documents[j].id != did ==> q2.documents[j] == q.documents[j])
    && ((forall j :: 0 <= j < |q.documents| ==> q.documents[j].id != did) ==> q2.documents == q.documents)
    && q2.updatedAt == at
    && q2.(documents := q.documents, updatedAt := q.updatedAt) == q
  }

  function WithDocumentsPatched(q: Project, did: string, u: DocumentPatch, at: string): (q2: Project)
    ensures DocumentsPatched(q, q2, did, u, at)
  {
    q.(documents := MapWhere(q.documents, DocumentIs(did), (d: Document) => PatchDocument(d, u)), updatedAt := at)
  }

  /** `q2` is `q` without the documents with id `did`, the rest in order,
      stamped `at` even when no document has that id. */
  predicate DocumentsDeleted(q: Project, q2: Project, did: string, at: string)
  {
    && q2.documents == Filter(q.documents, DocumentIsNot(did))
    && (forall k :: 0 <= k < |q2.documents| ==> q2.documents[k] in q.documents && q2.documents[k].id != did)
    && (forall j :: 0 <= j < |q.documents| && q.documents[j].id != did ==> q.documents[j] in q2.documents)
    && ((forall j :: 0 <= j < |q.documents| ==> q.documents[j].id != did) ==> q2.documents == q.documents)
    && q2.updatedAt == at
    && q2.(documents := q.documents, updatedAt := q.updatedAt) == q
  }

  function WithDocumentsDeleted(q: Project, did: string, at: string): (q2: Project)
    ensures DocumentsDeleted(q, q2, did, at)
  {
    q.(documents := Filter(q.documents, DocumentIsNot(did)), updatedAt := at)
  }

  /** `addDocument`: append a document with the fresh id and stamp the project. */
  function AddDocument(s: State, pid: string, draft: DocumentDraft, newId: string, now: string, mirrorNow: string): (r: State)
    requires MirrorReadable(s, pid)
    ensures OnlyProjectChanged(s, r, pid)
    ensures forall i :: 0 <= i < |s.projects| && s.projects[i].id == pid ==>
      DocumentAppended(s.projects[i], r.projects[i], NewDocument(draft, newId), now)
    ensures s.currentProjectId == Some(pid) ==>
      DocumentAppended(s.currentProject.value, r.currentProject.value, NewDocument(draft, newId), mirrorNow)
    ensures Mirrored(s) ==> (Mirrored(r) <==> (s.currentProjectId == Some(pid) ==> mirrorNow == now))
  {
    var d := NewDocument(draft, newId);
    var at := (t: string) => (p: Project) => WithDocumentAppended(p, d, t);
    ApplyToProjectKeepsMirror(s, pid, at(now), at(mirrorNow));
    ApplyToProject(s, pid, at(now), at(mirrorNow))
  }

  /** `updateDocument`: spread the patch over the documents with the id and
      stamp the project, even when no document has that id. */
  function UpdateDocument(s: State, pid: string, did: string, u: DocumentPatch, now: string, mirrorNow: string): (r: State)
    requires MirrorReadable(s, pid)
    ensures OnlyProjectChanged(s, r, pid)
    ensures forall i :: 0 <= i < |s.projects| && s.projects[i].id == pid ==>
      DocumentsPatched(s.projects[i], r.projects[i], did, u, now)
    ensures s.currentProjectId == Some(pid) ==>
      DocumentsPatched(s.currentProject.value, r.currentProject.value, did, u, mirrorNow)
    ensures Mirrored(s) ==> (Mirrored(r) <==> (s.currentProjectId == Some(pid) ==> mirrorNow == now))
  {
    var at := (t: string) => (p: Project) => WithDocumentsPatched(p, did, u, t);
    ApplyToProjectKeepsMirror(s, pid, at(now), at(mirrorNow));
    ApplyToProject(s, pid, at(now), at(mirrorNow))
  }

  /** `deleteDocument`: drop the documents with the id and stamp the project,
      even when no document has that id. */
  function DeleteDocument(s: State, pid: string, did: string, now: string, mirrorNow: string): (r: State)
    requires MirrorReadable(s, pid)
    ensures OnlyProjectChanged(s, r, pid)
    ensures forall i :: 0 <= i < |s.projects| && s.projects[i].id == pid ==>
      DocumentsDeleted(s.projects[i], r.projects[i], did, now)
    ensures s.currentProjectId == Some(pid) ==>
      DocumentsDeleted(s.currentProject.value, r.currentProject.value, did, mirrorNow)
    ensures Mirrored(s) ==> (Mirrored(r) <==> (s.currentProjectId == Some(pid) ==> mirrorNow == now))
  {
    var at := (t: string) => (p: Project) => WithDocumentsDeleted(p, did, t);
    ApplyToProjectKeepsMirror(s, pid, at(now), at(mirrorNow));
    ApplyToProject(s, pid, at(now), at(mirrorNow))
  }

  // Contacts

  function NewContact(draft: ContactDraft, id: string): Contact
  {
    Contact(id, draft.name, draft.role, draft.phone, draft.email, draft.notes)
  }

  /** `q2` is `q` with `c` appended to its contacts, stamped `at`, and nothing else changed. */
  predicate ContactAppended(q: Project, q2: Project, c: Contact, at: string)
  {
    && q2.contacts == q.contacts + [c]
    && q2.updatedAt == at
    && q2.(contacts := q.contacts, updatedAt := q.updatedAt) == q
  }

  function WithContactAppended(q: Project, c: Contact, at: string): (q2: Project)
    ensures ContactAppended(q, q2, c, at)
  {
    q.(contacts := q.contacts + [c], updatedAt := at)
  }

  /** `q2` is `q` with the patch spread over exactly the contacts with id
      `cid`, stamped `at` even when no contact has that id. */
  predicate ContactsPatched(q: Project, q2: Project, cid: string, u: ContactPatch, at: string)
  {
    && |q2.contacts| == |q.contacts|
    && (forall j :: 0 <= j < |q.contacts| && q.contacts[j].id == cid ==>
          q2.contacts[j] == PatchContact(q.contacts[j], u))
    && (forall j :: 0 <= j < |q.contacts| && q.contacts[j].id != cid ==> q2.contacts[j] == q.contacts[j])
    && ((forall j :: 0 <= j < |q.contacts| ==> q.contacts[j].id != cid) ==> q2.contacts == q.contacts)
    && q2.updatedAt == at
    && q2.(contacts := q.contacts, updatedAt := q.updatedAt) == q
  }

  function WithContactsPatched(q: Project, cid: string, u: ContactPatch, at: string): (q2: Project)
    ensures ContactsPatched(q, q2, cid, u, at)
  {
    q.(contacts := MapWhere(q.contacts, ContactIs(cid), (c: Contact) => PatchContact(c, u)), updatedAt := at)
  }

  /** `q2` is `q` without the contacts with id `cid`, the rest in order,
      stamped `at` even when no contact has that id. */
  predicate ContactsDeleted(q: Project, q2: Project, cid: string, at: string)
  {
    && q2.contacts == Filter(q.contacts, ContactIsNot(cid))
    && (forall k :: 0 <= k < |q2.contacts| ==> q2.contacts[k] in q.contacts && q2.contacts[k].id != cid)
    && (forall j :: 0 <= j < |q.contacts| && q.contacts[j].id != cid ==> q.contacts[j] in q2.contacts)
    && ((forall j :: 0 <= j < |q.contacts| ==> q.contacts[j].id != cid) ==> q2.contacts == q.contacts)
    && q2.updatedAt == at
    && q2.(contacts := q.contacts, updatedAt := q.updatedAt) == q
  }

  function WithContactsDeleted(q: Project, cid: string, at: string): (q2: Project)
    ensures ContactsDeleted(q, q2, cid, at)
  {
    q.(contacts := Filter(q.contacts, ContactIsNot(cid)), updatedAt := at)
  }

  /** `addContact`: append a contact with the fresh id and stamp the project. */
  function AddContact(s: State, pid: string, draft: ContactDraft, newId: string, now: string, mirrorNow: string): (r: State)
    requires MirrorReadable(s, pid)
    ensures OnlyProjectChanged(s, r, pid)
    ensures forall i :: 0 <= i < |s.projects| && s.projects[i].id == pid ==>
      ContactAppended(s.projects[i], r.projects[i], NewContact(draft, newId), now)
    ensures s.currentProjectId == Some(pid) ==>
      ContactAppended(s.currentProject.value, r.currentProject.value, NewContact(draft, newId), mirrorNow)
    ensures Mirrored(s) ==> (Mirrored(r) <==> (s.currentProjectId == Some(pid) ==> mirrorNow == now))
  {
    var c := NewContact(draft, newId);
    var at := (t: string) => (p: Project) => WithContactAppended(p, c, t);
    ApplyToProjectKeepsMirror(s, pid, at(now), at(mirrorNow));
    ApplyToProject(s, pid, at(now), at(mirrorNow))
  }

  /** `updateContact`: spread the patch over the contacts with the id and
      stamp the project, even when no contact has that id. */
  function UpdateContact(s: State, pid: string, cid: string, u: ContactPatch, now: string, mirrorNow: string): (r: State)
    requires MirrorReadable(s, pid)
    ensures OnlyProjectChanged(s, r, pid)
    ensures forall i :: 0 <= i < |s.projects| && s.projects[i].id == pid ==>
      ContactsPatched(s.projects[i], r.projects[i], cid, u, now)
    ensures s.currentProjectId == Some(pid) ==>
      ContactsPatched(s.currentProject.value, r.currentProject.value, cid, u, mirrorNow)
    ensures Mirrored(s) ==> (Mirrored(r) <==> (s.currentProjectId == Some(pid) ==> mirrorNow == now))
  {
    var at := (t: string) => (p: Project) => WithContactsPatched(p, cid, u, t);
    ApplyToProjectKeepsMirror(s, pid, at(now), at(mirrorNow));
    ApplyToProject(s, pid, at(now), at(mirrorNow))
  }

  /** `deleteContact`: drop the contacts with the id and stamp the project,
      even when no contact has that id. */
  function DeleteContact(s: State, pid: string, cid: string, now: string, mirrorNow: string): (r: State)
    requires MirrorReadable(s, pid)
    ensures OnlyProjectChanged(s, r, pid)
    ensures forall i :: 0 <= i < |s.projects| && s.projects[i].id == pid ==>
      ContactsDeleted(s.projects[i], r.projects[i], cid, now)
    ensures s.currentProjectId == Some(pid) ==>
      ContactsDeleted(s.currentProject.value, r.currentProject.value, cid, mirrorNow)
    ensures Mirrored(s) ==> (Mirrored(r) <==> (s.currentProjectId == Some(pid) ==> mirrorNow == now))
  {
    var at := (t: string) => (p: Project) => WithContactsDeleted(p, cid, t);
    ApplyToProjectKeepsMirror(s, pid, at(now), at(mirrorNow));
    ApplyToProject(s, pid, at(now), at(mirrorNow))
  }

  // Tasks

  /** A new task always starts uncompleted, whatever the draft says. */
  function NewTask(draft: TaskDraft, id: string): Task
  {
    Task(id, draft.title, draft.description, draft.dueDate, false, draft.stage, draft.priority)
  }

  /** `q2` is `q` with one uncompleted task carrying `id` and the draft's
      fields appended, stamped `at`, and nothing else changed. */
  predicate TaskAppended(q: Project, q2: Project, draft: TaskDraft, id: string, at: string)
  {
    && |q2.tasks| == |q.tasks| + 1
    && q2.tasks[..|q.tasks|] == q.tasks
    && var t := q2.tasks[|q.tasks|];
    && t.id == id && !t.completed
    && t.title == draft.title && t.description == draft.description && t.dueDate == draft.dueDate
    && t.stage == draft.stage && t.priority == draft.priority
    && q2.updatedAt == at
    && q2.(tasks := q.tasks, updatedAt := q.updatedAt) == q
  }

  function WithTaskAppended(q: Project, draft: TaskDraft, id: string, at: string): (q2: Project)
    ensures TaskAppended(q, q2, draft, id, at)
  {
    q.(tasks := q.tasks + [NewTask(draft, id)], updatedAt := at)
  }

  /** `q2` is `q` with the patch spread over exactly the tasks with id `tid`,
      stamped `at` even when no task has that id. */
  predicate TasksPatched(q: Project, q2: Project, tid: string, u: TaskPatch, at: string)
  {
    && |q2.tasks| == |q.tasks|
    && (forall j :: 0 <= j < |q.tasks| && q.tasks[j].id == tid ==> q2.tasks[j] == PatchTask(q.tasks[j], u))
    && (forall j :: 0 <= j < |q.tasks| && q.tasks[j].id != tid ==> q2.tasks[j] == q.tasks[j])
    && ((forall j :: 0 <= j < |q.tasks| ==> q.tasks[j].id != tid) ==> q2.tasks == q.tasks)
    && q2.updatedAt == at
    && q2.(tasks := q.tasks, updatedAt := q.updatedAt) == q
  }

  function WithTasksPatched(q: Project, tid: string, u: TaskPatch, at: string): (q2: Project)
    ensures TasksPatched(q, q2, tid, u, at)
  {
    q.(tasks := MapWhere(q.tasks, TaskIs(tid), (t: Task) => PatchTask(t, u)), updatedAt := at)
  }

  /** `q2` is `q` without the tasks with id `tid`, the rest in order,
      stamped `at` even when no task has that id. */
  predicate TasksDeleted(q: Project, q2: Project, tid: string, at: string)
  {
    && q2.tasks == Filter(q.tasks, TaskIsNot(tid))
    && (forall k :: 0 <= k < |q2.tasks| ==> q2.tasks[k] in q.tasks && q2.tasks[k].id != tid)
    && (forall j :: 0 <= j < |q.tasks| && q.tasks[j].id != tid ==> q.tasks[j] in q2.tasks)
    && ((forall j :: 0 <= j < |q.tasks| ==> q.tasks[j].id != tid) ==> q2.tasks == q.tasks)
    && q2.updatedAt == at
    && q2.(tasks := q.tasks, updatedAt := q.updatedAt) == q
  }

  function WithTasksDeleted(q: Project, tid: string, at: string): (q2: Project)
    ensures TasksDeleted(q, q2, tid, at)
  {
    q.(tasks := Filter(q.tasks, TaskIsNot(tid)), updatedAt := at)
  }

  /** `q2` is `q` with exactly the tasks with id `tid` marked completed and
      otherwise unchanged, stamped `at` even when no task has that id. */
  predicate TasksCompleted(q: Project, q2: Project, tid: string, at: string)
  {
    && |q2.tasks| == |q.tasks|
    && (forall j :: 0 <= j < |q.tasks| && q.tasks[j].id == tid ==>
          q2.tasks[j].completed && q2.tasks[j].(completed := q.tasks[j].completed) == q.tasks[j])
    && (forall j :: 0 <= j < |q.tasks| && q.tasks[j].id != tid ==> q2.tasks[j] == q.tasks[j])
    && ((forall j :: 0 <= j < |q.tasks| ==> q.tasks[j].id != tid) ==> q2.tasks == q.tasks)
    && q2.updatedAt == at
    && q2.(tasks := q.tasks, updatedAt := q.updatedAt) == q
  }

  function WithTasksCompleted(q: Project, tid: string, at: string): (q2: Project)
    ensures TasksCompleted(q, q2, tid, at)
  {
    q.(tasks := MapWhere(q.tasks, TaskIs(tid), (t: Task) => t.(completed := true)), updatedAt := at)
  }

  /** `addTask`: append an uncompleted task with the fresh id and stamp the project. */
  function AddTask(s: State, pid: string, draft: TaskDraft, newId: string, now: string, mirrorNow: string): (r: State)
    requires MirrorReadable(s, pid)
    ensures OnlyProjectChanged(s, r, pid)
    ensures forall i :: 0 <= i < |s.projects| && s.projects[i].id == pid ==>
      TaskAppended(s.projects[i], r.projects[i], draft, newId, now)
    ensures s.currentProjectId == Some(pid) ==>
      TaskAppended(s.currentProject.value, r.currentProject.value, draft, newId, mirrorNow)
    ensures Mirrored(s) ==> (Mirrored(r) <==> (s.currentProjectId == Some(pid) ==> mirrorNow == now))
  {
    var at := (t: string) => (p: Project) => WithTaskAppended(p, draft, newId, t);
    ApplyToProjectKeepsMirror(s, pid, at(now), at(mirrorNow));
    ApplyToProject(s, pid, at(now), at(mirrorNow))
  }

  /** `updateTask`: spread the patch over the tasks with the id and stamp the
      project, even when no task has that id. */
  function UpdateTask(s: State, pid: string, tid: string, u: TaskPatch, now: string, mirrorNow: string): (r: State)
    requires MirrorReadable(s, pid)
    ensures OnlyProjectChanged(s, r, pid)
    ensures forall i :: 0 <= i < |s.projects| && s.projects[i].id == pid ==>
      TasksPatched(s.projects[i], r.projects[i], tid, u, now)
    ensures s.currentProjectId == Some(pid) ==>
      TasksPatched(s.currentProject.value, r.currentProject.value, tid, u, mirrorNow)
    ensures Mirrored(s) ==> (Mirrored(r) <==> (s.currentProjectId == Some(pid) ==> mirrorNow == now))
  {
    var at := (t': string) => (p: Project) => WithTasksPatched(p, tid, u, t');
    ApplyToProjectKeepsMirror(s, pid, at(now), at(mirrorNow));
    ApplyToProject(s, pid, at(now), at(mirrorNow))
  }

  /** `deleteTask`: drop the tasks with the id and stamp the project, even
      when no task has that id. */
  function DeleteTask(s: State, pid: string, tid: string, now: string, mirrorNow: string): (r: State)
    requires MirrorReadable(s, pid)
    ensures OnlyProjectChanged(s, r, pid)
    ensures forall i :: 0 <= i < |s.projects| && s.projects[i].id == pid ==>
      TasksDeleted(s.projects[i], r.projects[i], tid, now)
    ensures s.currentProjectId == Some(pid) ==>
      TasksDeleted(s.currentProject.value, r.currentProject.value, tid, mirrorNow)
    ensures Mirrored(s) ==> (Mirrored(r) <==> (s.currentProjectId == Some(pid) ==> mirrorNow == now))
  {
    var at := (t': string) => (p: Project) => WithTasksDeleted(p, tid, t');
    ApplyToProjectKeepsMirror(s, pid, at(now), at(mirrorNow));
    ApplyToProject(s, pid, at(now), at(mirrorNow))
  }

  /** `completeTask`: mark the tasks with the id completed (not a toggle) and
      stamp the project, even when no task has that id. */
  function CompleteTask(s: State, pid: string, tid: string, now: string, mirrorNow: string): (r: State)
    requires MirrorReadable(s, pid)
    ensures OnlyProjectChanged(s, r, pid)
    ensures forall i :: 0 <= i < |s.projects| && s.projects[i].id == pid ==>
      TasksCompleted(s.projects[i], r.projects[i], tid, now)
    ensures s.currentProjectId == Some(pid) ==>
      TasksCompleted(s.currentProject.value, r.currentProject.value, tid, mirrorNow)
    ensures Mirrored(s) ==> (Mirrored(r) <==> (s.currentProjectId == Some(pid) ==> mirrorNow == now))
  {
    var at := (t': string) => (p: Project) => WithTasksCompleted(p, tid, t');
    ApplyToProjectKeepsMirror(s, pid, at(now), at(mirrorNow));
    ApplyToProject(s, pid, at(now), at(mirrorNow))
  }

  // Financing and stage

  /** `q2` is `q` with the patch spread over its financing record, stamped `at`, and nothing else changed. */
  predicate FinancingPatched(q: Project, q2: Project, u: FinancingPatch, at: string)
  {
    && q2.financing == PatchFinancing(q.financing, u)
    && q2.updatedAt == at
    && q2.(financing := q.financing, updatedAt := q.updatedAt) == q
  }

  function WithFinancingPatched(q: Project, u: FinancingPatch, at: string): (q2: Project)
    ensures FinancingPatched(q, q2, u, at)
  {
    q.(financing := PatchFinancing(q.financing, u), updatedAt := at)
  }

  /** `q2` is `q` at stage `stage`, stamped `at`, and nothing else changed. */
  predicate StageSet(q: Project, q2: Project, stage: Stage, at: string)
  {
    && q2.stage == stage
    && q2.updatedAt == at
    && q2.(stage := q.stage, updatedAt := q.updatedAt) == q
  }

  function WithStageSet(q: Project, stage: Stage, at: string): (q2: Project)
    ensures StageSet(q, q2, stage, at)
  {
    q.(stage := stage, updatedAt := at)
  }

  /** `updateFinancing`: spread the patch over the project's financing record and stamp the project. */
  function UpdateFinancing(s: State, pid: string, u: FinancingPatch, now: string, mirrorNow: string): (r: State)
    requires MirrorReadable(s, pid)
    ensures OnlyProjectChanged(s, r, pid)
    ensures forall i :: 0 <= i < |s.projects| && s.projects[i].id == pid ==>
      FinancingPatched(s.projects[i], r.projects[i], u, now)
    ensures s.currentProjectId == Some(pid) ==>
      FinancingPatched(s.currentProject.value, r.currentProject.value, u, mirrorNow)
    ensures Mirrored(s) ==> (Mirrored(r) <==> (s.currentProjectId == Some(pid) ==> mirrorNow == now))
  {
    var at := (t: string) => (p: Project) => WithFinancingPatched(p, u, t);
    ApplyToProjectKeepsMirror(s, pid, at(now), at(mirrorNow));
    ApplyToProject(s, pid, at(now), at(mirrorNow))
  }

  /** `updateStage`: overwrite the stage, from any stage to any stage, and stamp the project. */
  function UpdateStage(s: State, pid: string, stage: Stage, now: string, mirrorNow: string): (r: State)
    requires MirrorReadable(s, pid)
    ensures OnlyProjectChanged(s, r, pid)
    ensures forall i :: 0 <= i < |s.projects| && s.projects[i].id == pid ==>
      StageSet(s.projects[i], r.projects[i], stage, now)
    ensures s.currentProjectId == Some(pid) ==>
      StageSet(s.currentProject.value, r.currentProject.value, stage, mirrorNow)
    ensures Mirrored(s) ==> (Mirrored(r) <==> (s.currentProjectId == Some(pid) ==> mirrorNow == now))
  {
    var at := (t: string) => (p: Project) => WithStageSet(p, stage, t);
    ApplyToProjectKeepsMirror(s, pid, at(now), at(mirrorNow));
    ApplyToProject(s, pid, at(now), at(mirrorNow))
  }

  // Properties relating several calls

  /** With the mirror in step, an operation aimed at a project id nobody has
      leaves the whole state as it was. */
  lemma UnknownProjectIsNoOp(s: State, r: State, pid: string)
    requires Mirrored(s) && MirrorReadable(s, pid)
    requires !HasProject(s.projects, pid)
    requires OnlyProjectChanged(s, r, pid)
    ensures r == s
  {
  }

  /** Marking tasks completed twice is marking them once. */
  lemma CompletedTwice(ts: seq<Task>, tid: string)
    ensures var mark := (t: Task) => t.(completed := true);
      MapWhere(MapWhere(ts, TaskIs(tid), mark), TaskIs(tid), mark) == MapWhere(ts, TaskIs(tid), mark)
  {
  }

  /** `completeTask` is idempotent: repeating it with the same arguments changes nothing more. */
  lemma CompleteTaskIdempotent(s: State, pid: string, tid: string, now: string, mirrorNow: string)
    requires MirrorReadable(s, pid)
    ensures CompleteTask(CompleteTask(s, pid, tid, now, mirrorNow), pid, tid, now, mirrorNow) ==
            CompleteTask(s, pid, tid, now, mirrorNow)
  {
    var r := CompleteTask(s, pid, tid, now, mirrorNow);
    var r2 := CompleteTask(r, pid, tid, now, mirrorNow);
    forall i | 0 <= i < |s.projects| && s.projects[i].id == pid
      ensures r2.projects[i] == r.projects[i]
    {
      CompletedTwice(s.projects[i].tasks, tid);
    }
    assert r2.projects == r.projects;
    if s.currentProjectId == Some(pid) {
      CompletedTwice(s.currentProject.value.tasks, tid);
    }
  }

  /** Deleting the document just added under an id new to its project gives
      back the project's documents as they were. */
  lemma DeleteDocumentUndoesAdd(s: State, pid: string, draft: DocumentDraft, newId: string, now: string, mirrorNow: string)
    requires MirrorReadable(s, pid)
    ensures var r := DeleteDocument(AddDocument(s, pid, draft, newId, now, mirrorNow), pid, newId, now, mirrorNow);
      forall i ::
        (&& 0 <= i < |s.projects| && s.projects[i].id == pid
         && (forall j :: 0 <= j < |s.projects[i].documents| ==> s.projects[i].documents[j].id != newId))
        ==> r.projects[i].documents == s.projects[i].documents
  {
    forall i | 0 <= i < |s.projects| && s.projects[i].id == pid
      ensures Filter(s.projects[i].documents + [NewDocument(draft, newId)], DocumentIsNot(newId)) ==
              Filter(s.projects[i].documents, DocumentIsNot(newId))
    {
      FilterDropsAppended(s.projects[i].documents, NewDocument(draft, newId), DocumentIsNot(newId));
    }
  }

  /** Deleting the contact just added under an id new to its project gives
      back the project's contacts as they were. */
  lemma DeleteContactUndoesAdd(s: State, pid: string, draft: ContactDraft, newId: string, now: string, mirrorNow: string)
    requires MirrorReadable(s, pid)
    ensures var r := DeleteContact(AddContact(s, pid, draft, newId, now, mirrorNow), pid, newId, now, mirrorNow);
      forall i ::
        (&& 0 <= i < |s.projects| && s.projects[i].id == pid
         && (forall j :: 0 <= j < |s.projects[i].contacts| ==> s.projects[i].contacts[j].id != newId))
        ==> r.projects[i].contacts == s.projects[i].contacts
  {
    forall i | 0 <= i < |s.projects| && s.projects[i].id == pid
      ensures Filter(s.projects[i].contacts + [NewContact(draft, newId)], ContactIsNot(newId)) ==
              Filter(s.projects[i].contacts, ContactIsNot(newId))
    {
      FilterDropsAppended(s.projects[i].contacts, NewContact(draft, newId), ContactIsNot(newId));
    }
  }

  /** Deleting the task just added under an id new to its project gives back
      the project's tasks as they were. */
  lemma DeleteTaskUndoesAdd(s: State, pid: string, draft: TaskDraft, newId: string, now: string, mirrorNow: string)
    requires MirrorReadable(s, pid)
    ensures var r := DeleteTask(AddTask(s, pid, draft, newId, now, mirrorNow), pid, newId, now, mirrorNow);
      forall i ::
        (&& 0 <= i < |s.projects| && s.projects[i].id == pid
         && (forall j :: 0 <= j < |s.projects[i].tasks| ==> s.projects[i].tasks[j].id != newId))
        ==> r.projects[i].tasks == s.projects[i].tasks
  {
    forall i | 0 <= i < |s.projects| && s.projects[i].id == pid
      ensures Filter(s.projects[i].tasks + [NewTask(draft, newId)], TaskIsNot(newId)) ==
              Filter(s.projects[i].tasks, TaskIsNot(newId))
    {
      FilterDropsAppended(s.projects[i].tasks, NewTask(draft, newId), TaskIsNot(newId));
    }
  }
}
