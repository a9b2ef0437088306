/** `Partial<T>` updates and the object spread `{ ...x, ...updates }` that
    applies them. A patch field is `None` when the key is absent. For a field
    that the record itself holds as optional, the patch field is an
    `Option<Option<_>>`: `Some(None)` is a key present with value `undefined`,
    which the spread copies over the old value. */
module Patches {
  import opened Types

  /** One key of an object spread: an absent key keeps the old value, a present one overwrites it. */
  function Merge<T>(prior: T, update: Option<T>): (r: T)
    ensures update.None? ==> r == prior
    ensures update.Some? ==> r == update.value
  {
    match update
    case None => prior
    case Some(v) => v
  }

  /** The key of `{ ...u1, ...u2 }`: the later patch wins where it has the key. */
  function Later<T>(u1: Option<T>, u2: Option<T>): (r: Option<T>)
    ensures r.None? <==> u1.None? && u2.None?
  {
    if u2.Some? then u2 else u1
  }

  /** Spreading two patches one after the other is spreading their combination. */
  lemma MergeTwice<T>(prior: T, u1: Option<T>, u2: Option<T>)
    ensures Merge(Merge(prior, u1), u2) == Merge(prior, Later(u1, u2))
  {
  }

  datatype DocumentPatch = DocumentPatch(
    id: Option<string>,
    name: Option<string>,
    category: Option<string>,
    date: Option<string>,
    file: Option<Option<FileRef>>,
    fileUrl: Option<Option<string>>,
    notes: Option<Option<string>>)

  datatype ContactPatch = ContactPatch(
    id: Option<string>,
    name: Option<string>,
    role: Option<string>,
    phone: Option<Option<string>>,
    email: Option<Option<string>>,
    notes: Option<Option<string>>)

  datatype TaskPatch = TaskPatch(
    id: Option<string>,
    title: Option<string>,
    description: Option<Option<string>>,
    dueDate: Option<Option<string>>,
    completed: Option<bool>,
    stage: Option<Stage>,
    priority: Option<Priority>)

  datatype FinancingPatch = FinancingPatch(
    loanAmount: Option<Option<real>>,
    downPayment: Option<Option<real>>,
    interestRate: Option<Option<real>>,
    loanTerm: Option<Option<real>>,
    monthlyPayment: Option<Option<real>>,
    approvalStatus: Option<Option<ApprovalStatus>>)

  datatype ProjectPatch = ProjectPatch(
    id: Option<string>,
    name: Option<string>,
    propertyType: Option<PropertyType>,
    address: Option<Option<string>>,
    price: Option<Option<real>>,
    size: Option<Option<real>>,
    rooms: Option<Option<real>>,
    stage: Option<Stage>,
    documents: Option<seq<Document>>,
    contacts: Option<seq<Contact>>,
    tasks: Option<seq<Task>>,
    financing: Option<FinancingDetails>,
    createdAt: Option<string>,
    updatedAt: Option<string>)

  /** `{ ...d, ...u }` for a document. */
  function PatchDocument(d: Document, u: DocumentPatch): (r: Document)
    ensures u.id.None? ==> r.id == d.id
    ensures u.id.Some? ==> r.id == u.id.value
    ensures u.name.None? ==> r.name == d.name
    ensures u.name.Some? ==> r.name == u.name.value
    ensures u.category.None? ==> r.category == d.category
    ensures u.category.Some? ==> r.category == u.category.value
    ensures u.date.None? ==> r.date == d.date
    ensures u.date.Some? ==> r.date == u.date.value
    ensures u.file.None? ==> r.file == d.file
    ensures u.file.Some? ==> r.file == u.file.value
    ensures u.fileUrl.None? ==> r.fileUrl == d.fileUrl
    ensures u.fileUrl.Some? ==> r.fileUrl == u.fileUrl.value
    ensures u.notes.None? ==> r.notes == d.notes
    ensures u.notes.Some? ==> r.notes == u.notes.value
  {
    Document(
      Merge(d.id, u.id), Merge(d.name, u.name), Merge(d.category, u.category), Merge(d.date, u.date),
      Merge(d.file, u.file), Merge(d.fileUrl, u.fileUrl), Merge(d.notes, u.notes))
  }

  /** `{ ...c, ...u }` for a contact. */
  function PatchContact(c: Contact, u: ContactPatch): (r: Contact)
    ensures u.id.None? ==> r.id == c.id
    ensures u.id.Some? ==> r.id == u.id.value
    ensures u.name.None? ==> r.name == c.name
    ensures u.name.Some? ==> r.name == u.name.value
    ensures u.role.None? ==> r.role == c.role
    ensures u.role.Some? ==> r.role == u.role.value
    ensures u.phone.None? ==> r.phone == c.phone
    ensures u.phone.Some? ==> r.phone == u.phone.value
    ensures u.email.None? ==> r.email == c.email
    ensures u.email.Some? ==> r.email == u.email.value
    ensures u.notes.None? ==> r.notes == c.notes
    ensures u.notes.Some? ==> r.notes == u.notes.value
  {
    Contact(
      Merge(c.id, u.id), Merge(c.name, u.name), Merge(c.role, u.role),
      Merge(c.phone, u.phone), Merge(c.email, u.email), Merge(c.notes, u.notes))
  }

  /** `{ ...t, ...u }` for a task. */
  function PatchTask(t: Task, u: TaskPatch): (r: Task)
    ensures u.id.None? ==> r.id == t.id
    ensures u.id.Some? ==> r.id == u.id.value
    ensures u.title.None? ==> r.title == t.title
    ensures u.title.Some? ==> r.title == u.title.value
    ensures u.description.None? ==> r.description == t.description
    ensures u.description.Some? ==> r.description == u.description.value
    ensures u.dueDate.None? ==> r.dueDate == t.dueDate
    ensures u.dueDate.Some? ==> r.dueDate == u.dueDate.value
    ensures u.completed.None? ==> r.completed == t.completed
    ensures u.completed.Some? ==> r.completed == u.completed.value
    ensures u.stage.None? ==> r.stage == t.stage
    ensures u.stage.Some? ==> r.stage == u.stage.value
    ensures u.priority.None? ==> r.priority == t.priority
    ensures u.priority.Some? ==> r.priority == u.priority.value
  {
    Task(
      Merge(t.id, u.id), Merge(t.title, u.title), Merge(t.description, u.description),
      Merge(t.dueDate, u.dueDate), Merge(t.completed, u.completed), Merge(t.stage, u.stage),
      Merge(t.priority, u.priority))
  }

  /** `{ ...f, ...u }` for the financing record. */
  function PatchFinancing(f: FinancingDetails, u: FinancingPatch): (r: FinancingDetails)
    ensures u.loanAmount.None? ==> r.loanAmount == f.loanAmount
    ensures u.loanAmount.Some? ==> r.loanAmount == u.loanAmount.value
    ensures u.downPayment.None? ==> r.downPayment == f.downPayment
    ensures u.downPayment.Some? ==> r.downPayment == u.downPayment.value
    ensures u.interestRate.None? ==> r.interestRate == f.interestRate
    ensures u.interestRate.Some? ==> r.interestRate == u.interestRate.value
    ensures u.loanTerm.None? ==> r.loanTerm == f.loanTerm
    ensures u.loanTerm.Some? ==> r.loanTerm == u.loanTerm.value
    ensures u.monthlyPayment.None? ==> r.monthlyPayment == f.monthlyPayment
    ensures u.monthlyPayment.Some? ==> r.monthlyPayment == u.monthlyPayment.value
    ensures u.approvalStatus.None? ==> r.approvalStatus == f.approvalStatus
    ensures u.approvalStatus.Some? ==> r.approvalStatus == u.approvalStatus.value
  {
    FinancingDetails(
      Merge(f.loanAmount, u.loanAmount), Merge(f.downPayment, u.downPayment),
      Merge(f.interestRate, u.interestRate), Merge(f.loanTerm, u.loanTerm),
      Merge(f.monthlyPayment, u.monthlyPayment), Merge(f.approvalStatus, u.approvalStatus))
  }

  /** `{ ...u1, ...u2 }` for financing patches. */
  function ThenFinancing(u1: FinancingPatch, u2: FinancingPatch): FinancingPatch
  {
    FinancingPatch(
      Later(u1.loanAmount, u2.loanAmount), Later(u1.downPayment, u2.downPayment),
      Later(u1.interestRate, u2.interestRate), Later(u1.loanTerm, u2.loanTerm),
      Later(u1.monthlyPayment, u2.monthlyPayment), Later(u1.approvalStatus, u2.approvalStatus))
  }

  /** Two financing updates in a row are one update with the combined patch;
      in particular, repeating an update changes nothing more. */
  lemma PatchFinancingTwice(f: FinancingDetails, u1: FinancingPatch, u2: FinancingPatch)
    ensures PatchFinancing(PatchFinancing(f, u1), u2) == PatchFinancing(f, ThenFinancing(u1, u2))
    ensures PatchFinancing(PatchFinancing(f, u1), u1) == PatchFinancing(f, u1)
  {
  }

  /** `{ ...p, ...u }` for a project (before `updatedAt` is overwritten). */
  function PatchProject(p: Project, u: ProjectPatch): (r: Project)
    ensures u.id.None? ==> r.id == p.id
    ensures u.id.Some? ==> r.id == u.id.value
    ensures u.name.None? ==> r.name == p.name
    ensures u.name.Some? ==> r.name == u.name.value
    ensures u.propertyType.None? ==> r.propertyType == p.propertyType
    ensures u.propertyType.Some? ==> r.propertyType == u.propertyType.value
    ensures u.address.None? ==> r.address == p.address
    ensures u.address.Some? ==> r.address == u.address.value
    ensures u.price.None? ==> r.price == p.price
    ensures u.price.Some? ==> r.price == u.price.value
    ensures u.size.None? ==> r.size == p.size
    ensures u.size.Some? ==> r.size == u.size.value
    ensures u.rooms.None? ==> r.rooms == p.rooms
    ensures u.rooms.Some? ==> r.rooms == u.rooms.value
    ensures u.stage.None? ==> r.stage == p.stage
    ensures u.stage.Some? ==> r.stage == u.stage.value
    ensures u.documents.None? ==> r.documents == p.documents
    ensures u.documents.Some? ==> r.documents == u.documents.value
    ensures u.contacts.None? ==> r.contacts == p.contacts
    ensures u.contacts.Some? ==> r.contacts == u.contacts.value
    ensures u.tasks.None? ==> r.tasks == p.tasks
    ensures u.tasks.Some? ==> r.tasks == u.tasks.value
    ensures u.financing.None? ==> r.financing == p.financing
    ensures u.financing.Some? ==> r.financing == u.financing.value
    ensures u.createdAt.None? ==> r.createdAt == p.createdAt
    ensures u.createdAt.Some? ==> r.createdAt == u.createdAt.value
    ensures u.updatedAt.None? ==> r.updatedAt == p.updatedAt
    ensures u.updatedAt.Some? ==> r.updatedAt == u.updatedAt.value
  {
    Project(
      Merge(p.id, u.id), Merge(p.name, u.name), Merge(p.propertyType, u.propertyType),
      Merge(p.address, u.address), Merge(p.price, u.price), Merge(p.size, u.size),
      Merge(p.rooms, u.rooms), Merge(p.stage, u.stage), Merge(p.documents, u.documents),
      Merge(p.contacts, u.contacts), Merge(p.tasks, u.tasks), Merge(p.financing, u.financing),
      Merge(p.createdAt, u.createdAt), Merge(p.updatedAt, u.updatedAt))
  }
}
