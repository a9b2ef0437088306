/** The data model of the property-purchase tracker: a project owns, by value,
    ordered sequences of documents, contacts and tasks plus one financing record.
    Identifiers and timestamps are opaque strings; JavaScript numbers are held
    as `real` and never computed on. */
module Types {

  /** An optional value: `None` plays the part of `undefined` / `null`. */
  datatype Option<+T> = None | Some(value: T)

  datatype PropertyType = Appartement | Maison | Terrain

  /** The eight phases of a purchase, declared in their fixed order. */
  datatype Stage =
    | Search
    | Offer
    | Negotiation
    | Financing
    | Presale
    | Notary
    | Signing
    | Handover

  datatype Priority = Low | Medium | High

  datatype ApprovalStatus = Pending | Approved | Rejected

  /** An opaque handle standing for a browser `File` object. */
  datatype FileRef = FileRef(handle: nat)

  datatype Contact = Contact(
    id: string,
    name: string,
    role: string,
    phone: Option<string>,
    email: Option<string>,
    notes: Option<string>)

  datatype Document = Document(
    id: string,
    name: string,
    category: string,
    date: string,
    file: Option<FileRef>,
    fileUrl: Option<string>,
    notes: Option<string>)

  datatype Task = Task(
    id: string,
    title: string,
    description: Option<string>,
    dueDate: Option<string>,
    completed: bool,
    stage: Stage,
    priority: Priority)

  /** Every field is individually optional. */
  datatype FinancingDetails = FinancingDetails(
    loanAmount: Option<real>,
    downPayment: Option<real>,
    interestRate: Option<real>,
    loanTerm: Option<real>,
    monthlyPayment: Option<real>,
    approvalStatus: Option<ApprovalStatus>)

  /** The `{}` financing record every new project starts with. */
  const NoFinancing := FinancingDetails(None, None, None, None, None, None)

  datatype Project = Project(
    id: string,
    name: string,
    propertyType: PropertyType,
    address: Option<string>,
    price: Option<real>,
    size: Option<real>,
    rooms: Option<real>,
    stage: Stage,
    documents: seq<Document>,
    contacts: seq<Contact>,
    tasks: seq<Task>,
    financing: FinancingDetails,
    createdAt: string,
    updatedAt: string)

  /** The argument of `addProject`: a project without id and timestamps.
      It still carries collections and financing, which `addProject` discards. */
  datatype ProjectDraft = ProjectDraft(
    name: string,
    propertyType: PropertyType,
    address: Option<string>,
    price: Option<real>,
    size: Option<real>,
    rooms: Option<real>,
    stage: Stage,
    documents: seq<Document>,
    contacts: seq<Contact>,
    tasks: seq<Task>,
    financing: FinancingDetails)

  /** A document without its id. */
  datatype DocumentDraft = DocumentDraft(
    name: string,
    category: string,
    date: string,
    file: Option<FileRef>,
    fileUrl: Option<string>,
    notes: Option<string>)

  /** A contact without its id. */
  datatype ContactDraft = ContactDraft(
    name: string,
    role: string,
    phone: Option<string>,
    email: Option<string>,
    notes: Option<string>)

  /** A task without its id; its `completed` flag is ignored by `addTask`. */
  datatype TaskDraft = TaskDraft(
    title: string,
    description: Option<string>,
    dueDate: Option<string>,
    completed: bool,
    stage: Stage,
    priority: Priority)
}
