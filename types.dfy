/**
 * The entity shapes of the CRM: leads, contractors, jobs and projects, their
 * string-literal status enumerations, the partial-update ("patch") shapes the
 * store's update actions accept, and the ten-field dashboard statistics record.
 *
 * Every stored entity is an `Entity<D>`: the three fields the store itself sets
 * (`id`, `createdAt`, `updatedAt`) around the caller-supplied data `D`, which is
 * exactly the shape the add actions take (the entity minus those three fields).
 * Timestamps are milliseconds since the epoch, as a JavaScript `Date` compares.
 */
module Types {

  /** An optional value: a TypeScript `x?: T` field, or a key a partial update may omit. */
  datatype Option<T> = None | Some(value: T) {
    /** The value if present, otherwise `default` (what an object spread does for one key). */
    function GetOr(default: T): (r: T)
      ensures Some? ==> r == value
      ensures None? ==> r == default
    {
      match this
      case Some(v) => v
      case None => default
    }
  }

  type Id = string
  /** Milliseconds since the epoch. */
  type Timestamp = int

  /** A stored entity: the store-assigned identifier and timestamps around the caller's data. */
  datatype Entity<D> = Entity(id: Id, createdAt: Timestamp, updatedAt: Timestamp, data: D)

  // ---------------------------------------------------------------- Contractor

  datatype ContractorStatus = ContractorActive | ContractorInactive | ContractorPending

  /** A contractor without its identifier and timestamps. */
  datatype ContractorData = ContractorData(
    name: string,
    company: string,
    email: string,
    phone: string,
    address: string,
    postcode: string,
    certification: string,
    specializations: seq<string>,
    status: ContractorStatus,
    rating: real,
    completedJobs: int)

  type Contractor = Entity<ContractorData>

  // ---------------------------------------------------------------- Lead

  datatype PropertyType = House | Flat | Bungalow | OtherProperty
  datatype HouseholdIncome = LowIncome | MediumIncome | HighIncome
  datatype Eligibility = Eligible | Ineligible | EligibilityPending
  datatype LeadStatus = New | Contacted | Qualified | Converted | Lost

  /** A lead without its identifier and timestamps. */
  datatype LeadData = LeadData(
    firstName: string,
    lastName: string,
    email: string,
    phone: string,
    address: string,
    postcode: string,
    propertyType: PropertyType,
    propertyAge: string,
    currentHeating: string,
    householdIncome: HouseholdIncome,
    benefits: seq<string>,
    eligibility: Eligibility,
    status: LeadStatus,
    notes: string,
    assignedTo: Option<string>)

  type Lead = Entity<LeadData>

  // ---------------------------------------------------------------- Job

  datatype GrantType = ECO4 | LAFlex | OtherGrant
  datatype JobStatus = JobPending | Approved | InProgress | JobCompleted | Cancelled

  /**
   * A job without its identifier and timestamps. `leadId` is always present,
   * `contractorId` may be absent; neither is checked against the other collections.
   */
  datatype JobData = JobData(
    title: string,
    description: string,
    leadId: Id,
    contractorId: Option<Id>,
    propertyAddress: string,
    propertyPostcode: string,
    grantType: GrantType,
    measures: seq<string>,
    estimatedValue: int,
    grantAmount: int,
    status: JobStatus,
    startDate: Option<Timestamp>,
    completionDate: Option<Timestamp>,
    documents: seq<string>,
    notes: string)

  type Job = Entity<JobData>

  // ---------------------------------------------------------------- Project

  datatype ProjectStatus = Planning | ProjectActive | ProjectCompleted | OnHold

  /**
   * A project without its identifier and timestamps. `jobs` is a plain list of
   * job identifiers, and `totalValue`/`totalGrant` are stored as given: nothing
   * ties them to the jobs collection.
   */
  datatype ProjectData = ProjectData(
    name: string,
    description: string,
    jobs: seq<Id>,
    totalValue: int,
    totalGrant: int,
    status: ProjectStatus,
    startDate: Timestamp,
    endDate: Option<Timestamp>)

  type Project = Entity<ProjectData>

  // ---------------------------------------------------------------- Dashboard

  /** The ten numbers the dashboard query returns. */
  datatype DashboardStats = DashboardStats(
    totalLeads: nat,
    activeLeads: nat,
    totalJobs: nat,
    activeJobs: nat,
    totalContractors: nat,
    activeContractors: nat,
    totalProjects: nat,
    totalGrantValue: int,
    monthlyConversions: nat,
    averageJobValue: real)

  // ---------------------------------------------------------------- Patches

  /**
   * A partial update of an entity (`Partial<T>`): every key may be absent.
   * The store spreads it over the entity, so a supplied `id` or `createdAt`
   * does overwrite; a supplied `updatedAt` is overwritten again by the clock.
   */
  datatype Patch<P> = Patch(id: Option<Id>, createdAt: Option<Timestamp>, updatedAt: Option<Timestamp>, fields: P)

  /*
   * Per-kind patches of the data fields. A field that is itself optional in the
   * entity has type Option<Option<T>> here: Some(None) is a key supplied as
   * `undefined`, which clears the field.
   */

  datatype LeadPatch = LeadPatch(
    firstName: Option<string>,
    lastName: Option<string>,
    email: Option<string>,
    phone: Option<string>,
    address: Option<string>,
    postcode: Option<string>,
    propertyType: Option<PropertyType>,
    propertyAge: Option<string>,
    currentHeating: Option<string>,
    householdIncome: Option<HouseholdIncome>,
    benefits: Option<seq<string>>,
    eligibility: Option<Eligibility>,
    status: Option<LeadStatus>,
    notes: Option<string>,
    assignedTo: Option<Option<string>>)

  datatype ContractorPatch = ContractorPatch(
    name: Option<string>,
    company: Option<string>,
    email: Option<string>,
    phone: Option<string>,
    address: Option<string>,
    postcode: Option<string>,
    certification: Option<string>,
    specializations: Option<seq<string>>,
    status: Option<ContractorStatus>,
    rating: Option<real>,
    completedJobs: Option<int>)

  datatype JobPatch = JobPatch(
    title: Option<string>,
    description: Option<string>,
    leadId: Option<Id>,
    contractorId: Option<Option<Id>>,
    propertyAddress: Option<string>,
    propertyPostcode: Option<string>,
    grantType: Option<GrantType>,
    measures: Option<seq<string>>,
    estimatedValue: Option<int>,
    grantAmount: Option<int>,
    status: Option<JobStatus>,
    startDate: Option<Option<Timestamp>>,
    completionDate: Option<Option<Timestamp>>,
    documents: Option<seq<string>>,
    notes: Option<string>)

  datatype ProjectPatch = ProjectPatch(
    name: Option<string>,
    description: Option<string>,
    jobs: Option<seq<Id>>,
    totalValue: Option<int>,
    totalGrant: Option<int>,
    status: Option<ProjectStatus>,
    startDate: Option<Timestamp>,
    endDate: Option<Option<Timestamp>>)

  const EmptyLeadPatch := LeadPatch(None, None, None, None, None, None, None, None, None, None, None, None, None, None, None)
  const EmptyContractorPatch := ContractorPatch(None, None, None, None, None, None, None, None, None, None, None)
  const EmptyJobPatch := JobPatch(None, None, None, None, None, None, None, None, None, None, None, None, None, None, None)
  const EmptyProjectPatch := ProjectPatch(None, None, None, None, None, None, None, None)

  /**
   * `{ ...d, ...p }` on the data fields of a lead: field by field, the patch's
   * value where it supplies one, else the old value.
   */
  function MergeLead(d: LeadData, p: LeadPatch): (r: LeadData)
    ensures p == EmptyLeadPatch ==> r == d
    ensures p.status.Some? ==> r.status == p.status.value
    ensures p.status.None? ==> r.status == d.status
  {
    LeadData(
      p.firstName.GetOr(d.firstName),
      p.lastName.GetOr(d.lastName),
      p.email.GetOr(d.email),
      p.phone.GetOr(d.phone),
      p.address.GetOr(d.address),
      p.postcode.GetOr(d.postcode),
      p.propertyType.GetOr(d.propertyType),
      p.propertyAge.GetOr(d.propertyAge),
      p.currentHeating.GetOr(d.currentHeating),
      p.householdIncome.GetOr(d.householdIncome),
      p.benefits.GetOr(d.benefits),
      p.eligibility.GetOr(d.eligibility),
      p.status.GetOr(d.status),
      p.notes.GetOr(d.notes),
      p.assignedTo.GetOr(d.assignedTo))
  }

  /** `{ ...d, ...p }` on the data fields of a contractor, field by field as for leads. */
  function MergeContractor(d: ContractorData, p: ContractorPatch): (r: ContractorData)
    ensures p == EmptyContractorPatch ==> r == d
    ensures p.status.Some? ==> r.status == p.status.value
    ensures p.status.None? ==> r.status == d.status
  {
    ContractorData(
      p.name.GetOr(d.name),
      p.company.GetOr(d.company),
      p.email.GetOr(d.email),
      p.phone.GetOr(d.phone),
      p.address.GetOr(d.address),
      p.postcode.GetOr(d.postcode),
      p.certification.GetOr(d.certification),
      p.specializations.GetOr(d.specializations),
      p.status.GetOr(d.status),
      p.rating.GetOr(d.rating),
      p.completedJobs.GetOr(d.completedJobs))
  }

  /** `{ ...d, ...p }` on the data fields of a job, field by field as for leads. */
  function MergeJob(d: JobData, p: JobPatch): (r: JobData)
    ensures p == EmptyJobPatch ==> r == d
    ensures p.status.Some? ==> r.status == p.status.value
    ensures p.status.None? ==> r.status == d.status
    ensures p.grantAmount.Some? ==> r.grantAmount == p.grantAmount.value
    ensures p.grantAmount.None? ==> r.grantAmount == d.grantAmount
  {
    JobData(
      p.title.GetOr(d.title),
      p.description.GetOr(d.description),
      p.leadId.GetOr(d.leadId),
      p.contractorId.GetOr(d.contractorId),
      p.propertyAddress.GetOr(d.propertyAddress),
      p.propertyPostcode.GetOr(d.propertyPostcode),
      p.grantType.GetOr(d.grantType),
      p.measures.GetOr(d.measures),
      p.estimatedValue.GetOr(d.estimatedValue),
      p.grantAmount.GetOr(d.grantAmount),
      p.status.GetOr(d.status),
      p.startDate.GetOr(d.startDate),
      p.completionDate.GetOr(d.completionDate),
      p.documents.GetOr(d.documents),
      p.notes.GetOr(d.notes))
  }

  /** `{ ...d, ...p }` on the data fields of a project, field by field as for leads. */
  function MergeProject(d: ProjectData, p: ProjectPatch): (r: ProjectData)
    ensures p == EmptyProjectPatch ==> r == d
    ensures p.status.Some? ==> r.status == p.status.value
    ensures p.status.None? ==> r.status == d.status
    ensures p.totalValue.Some? ==> r.totalValue == p.totalValue.value
    ensures p.totalValue.None? ==> r.totalValue == d.totalValue
    ensures p.totalGrant.Some? ==> r.totalGrant == p.totalGrant.value
    ensures p.totalGrant.None? ==> r.totalGrant == d.totalGrant
  {
    ProjectData(
      p.name.GetOr(d.name),
      p.description.GetOr(d.description),
      p.jobs.GetOr(d.jobs),
      p.totalValue.GetOr(d.totalValue),
      p.totalGrant.GetOr(d.totalGrant),
      p.status.GetOr(d.status),
      p.startDate.GetOr(d.startDate),
      p.endDate.GetOr(d.endDate))
  }

  /**
   * The laws every per-kind merge obeys: the empty patch changes nothing, and
   * applying the same patch twice is the same as applying it once.
   */
  ghost predicate LawfulMerge<D(!new), P(!new)>(merge: (D, P) -> D, empty: P)
  {
    && (forall d :: merge(d, empty) == d)
    && (forall d, p :: merge(merge(d, p), p) == merge(d, p))
  }

  lemma LeadMergeLawful()
    ensures LawfulMerge(MergeLead, EmptyLeadPatch)
  {}

  lemma ContractorMergeLawful()
    ensures LawfulMerge(MergeContractor, EmptyContractorPatch)
  {}

  lemma JobMergeLawful()
    ensures LawfulMerge(MergeJob, EmptyJobPatch)
  {}

  lemma ProjectMergeLawful()
    ensures LawfulMerge(MergeProject, EmptyProjectPatch)
  {}

  /** A lead patch that changes only the status: the merge keeps every other field. */
  lemma MergeLeadStatusOnly(d: LeadData, s: LeadStatus)
    ensures MergeLead(d, EmptyLeadPatch.(status := Some(s))) == d.(status := s)
  {}

  /** A job patch that supplies every field replaces the data wholesale. */
  lemma MergeJobFull(d: JobData, e: JobData)
    ensures MergeJob(d, JobPatch(Some(e.title), Some(e.description), Some(e.leadId), Some(e.contractorId),
                                 Some(e.propertyAddress), Some(e.propertyPostcode), Some(e.grantType),
                                 Some(e.measures), Some(e.estimatedValue), Some(e.grantAmount), Some(e.status),
                                 Some(e.startDate), Some(e.completionDate), Some(e.documents), Some(e.notes))) == e
  {}

  // ---------------------------------------------------------------- Status literals

  /** The string literal of each lead status. */
  function LeadStatusName(s: LeadStatus): string
  {
    match s
    case New => "new"
    case Contacted => "contacted"
    case Qualified => "qualified"
    case Converted => "converted"
    case Lost => "lost"
  }

  /** Reads a lead status literal; anything else is not a lead status. */
  function ParseLeadStatus(t: string): (r: Option<LeadStatus>)
    ensures r.Some? <==> t in {"new", "contacted", "qualified", "converted", "lost"}
    ensures r.Some? ==> LeadStatusName(r.value) == t
  {
    if t == "new" then Some(New)
    else if t == "contacted" then Some(Contacted)
    else if t == "qualified" then Some(Qualified)
    else if t == "converted" then Some(Converted)
    else if t == "lost" then Some(Lost)
    else None
  }

  function JobStatusName(s: JobStatus): string
  {
    match s
    case JobPending => "pending"
    case Approved => "approved"
    case InProgress => "in-progress"
    case JobCompleted => "completed"
    case Cancelled => "cancelled"
  }

  function ParseJobStatus(t: string): (r: Option<JobStatus>)
    ensures r.Some? <==> t in {"pending", "approved", "in-progress", "completed", "cancelled"}
    ensures r.Some? ==> JobStatusName(r.value) == t
  {
    if t == "pending" then Some(JobPending)
    else if t == "approved" then Some(Approved)
    else if t == "in-progress" then Some(InProgress)
    else if t == "completed" then Some(JobCompleted)
    else if t == "cancelled" then Some(Cancelled)
    else None
  }

  function ContractorStatusName(s: ContractorStatus): string
  {
    match s
    case ContractorActive => "active"
    case ContractorInactive => "inactive"
    case ContractorPending => "pending"
  }

  function ParseContractorStatus(t: string): (r: Option<ContractorStatus>)
    ensures r.Some? <==> t in {"active", "inactive", "pending"}
    ensures r.Some? ==> ContractorStatusName(r.value) == t
  {
    if t == "active" then Some(ContractorActive)
    else if t == "inactive" then Some(ContractorInactive)
    else if t == "pending" then Some(ContractorPending)
    else None
  }

  function ProjectStatusName(s: ProjectStatus): string
  {
    match s
    case Planning => "planning"
    case ProjectActive => "active"
    case ProjectCompleted => "completed"
    case OnHold => "on-hold"
  }

  function ParseProjectStatus(t: string): (r: Option<ProjectStatus>)
    ensures r.Some? <==> t in {"planning", "active", "completed", "on-hold"}
    ensures r.Some? ==> ProjectStatusName(r.value) == t
  {
    if t == "planning" then Some(Planning)
    else if t == "active" then Some(ProjectActive)
    else if t == "completed" then Some(ProjectCompleted)
    else if t == "on-hold" then Some(OnHold)
    else None
  }

  /** Each status has exactly one literal, and reading it back gives the status. */
  lemma StatusLiteralsRoundTrip(l: LeadStatus, j: JobStatus, c: ContractorStatus, p: ProjectStatus)
    ensures ParseLeadStatus(LeadStatusName(l)) == Some(l)
    ensures ParseJobStatus(JobStatusName(j)) == Some(j)
    ensures ParseContractorStatus(ContractorStatusName(c)) == Some(c)
    ensures ParseProjectStatus(ProjectStatusName(p)) == Some(p)
  {}
}
