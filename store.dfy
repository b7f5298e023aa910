/**
 * The CRM store: four ordered collections, four "currently selected" slots,
 * one add, update and delete action per collection, one setter per slot and
 * the dashboard query. Every action assigns exactly one field of the store;
 * the clock and the identifier generator are parameters (`now`, `newId`).
 */
module CrmStore {
  import opened Types
  import opened Collection
  import opened Dashboard

  class Store {
    var leads: seq<Lead>
    var contractors: seq<Contractor>
    var jobs: seq<Job>
    var projects: seq<Project>

    var selectedLead: Option<Lead>
    var selectedContractor: Option<Contractor>
    var selectedJob: Option<Job>
    var selectedProject: Option<Project>

    /** Identifiers are unique within each collection (nothing is unique across collections). */
    ghost predicate Valid()
      reads this
    {
      UniqueIds(leads) && UniqueIds(contractors) && UniqueIds(jobs) && UniqueIds(projects)
    }

    /** A store holding the given initial collections and nothing selected. */
    constructor (initialLeads: seq<Lead>, initialContractors: seq<Contractor>, initialJobs: seq<Job>, initialProjects: seq<Project>)
      ensures leads == initialLeads && contractors == initialContractors
      ensures jobs == initialJobs && projects == initialProjects
      ensures selectedLead == None && selectedContractor == None
      ensures selectedJob == None && selectedProject == None
      ensures UniqueIds(initialLeads) && UniqueIds(initialContractors) && UniqueIds(initialJobs) && UniqueIds(initialProjects)
              ==> Valid()
    {
      leads, contractors, jobs, projects := initialLeads, initialContractors, initialJobs, initialProjects;
      selectedLead, selectedContractor, selectedJob, selectedProject := None, None, None, None;
    }

    // ---------------------------------------------------------------- leads

    /**
     * Appends the lead built from `data`; `newId` is what the identifier
     * generator produced. Nothing checks that it is fresh: uniqueness
     * survives only when it is.
     */
    method AddLead(data: LeadData, newId: Id, now: Timestamp)
      modifies this`leads
      ensures leads == old(leads) + [Stamp(data, newId, now)]
      ensures old(Valid()) && !Contains(old(leads), newId) ==> Valid()
    {
      if UniqueIds(leads) && !Contains(leads, newId) {
        AppendFreshKeepsUnique(leads, Stamp(data, newId, now));
      }
      leads := leads + [Stamp(data, newId, now)];
    }

    /** Patches every lead with identifier `id`; a missing identifier changes nothing. */
    method UpdateLead(id: Id, patch: Patch<LeadPatch>, now: Timestamp)
      modifies this`leads
      ensures leads == Updated(old(leads), id, patch, now, MergeLead)
      ensures old(Valid()) && (patch.id.None? || patch.id.value == id || !Contains(old(leads), patch.id.value)) ==> Valid()
    {
      if UniqueIds(leads) && (patch.id.None? || patch.id.value == id || !Contains(leads, patch.id.value)) {
        UpdateKeepsUnique(leads, id, patch, now, MergeLead);
      }
      leads := Updated(leads, id, patch, now, MergeLead);
    }

    /** Removes every lead with identifier `id`; a missing identifier changes nothing. */
    method DeleteLead(id: Id)
      modifies this`leads
      ensures leads == Deleted(old(leads), id)
      ensures old(Valid()) ==> Valid()
    {
      if UniqueIds(leads) {
        DeleteKeepsUnique(leads, id);
      }
      leads := Deleted(leads, id);
    }

    // ---------------------------------------------------------------- contractors

    method AddContractor(data: ContractorData, newId: Id, now: Timestamp)
      modifies this`contractors
      ensures contractors == old(contractors) + [Stamp(data, newId, now)]
      ensures old(Valid()) && !Contains(old(contractors), newId) ==> Valid()
    {
      if UniqueIds(contractors) && !Contains(contractors, newId) {
        AppendFreshKeepsUnique(contractors, Stamp(data, newId, now));
      }
      contractors := contractors + [Stamp(data, newId, now)];
    }

    method UpdateContractor(id: Id, patch: Patch<ContractorPatch>, now: Timestamp)
      modifies this`contractors
      ensures contractors == Updated(old(contractors), id, patch, now, MergeContractor)
      ensures old(Valid()) && (patch.id.None? || patch.id.value == id || !Contains(old(contractors), patch.id.value)) ==> Valid()
    {
      if UniqueIds(contractors) && (patch.id.None? || patch.id.value == id || !Contains(contractors, patch.id.value)) {
        UpdateKeepsUnique(contractors, id, patch, now, MergeContractor);
      }
      contractors := Updated(contractors, id, patch, now, MergeContractor);
    }

    method DeleteContractor(id: Id)
      modifies this`contractors
      ensures contractors == Deleted(old(contractors), id)
      ensures old(Valid()) ==> Valid()
    {
      if UniqueIds(contractors) {
        DeleteKeepsUnique(contractors, id);
      }
      contractors := Deleted(contractors, id);
    }

    // ---------------------------------------------------------------- jobs

    method AddJob(data: JobData, newId: Id, now: Timestamp)
      modifies this`jobs
      ensures jobs == old(jobs) + [Stamp(data, newId, now)]
      ensures old(Valid()) && !Contains(old(jobs), newId) ==> Valid()
    {
      if UniqueIds(jobs) && !Contains(jobs, newId) {
        AppendFreshKeepsUnique(jobs, Stamp(data, newId, now));
      }
      jobs := jobs + [Stamp(data, newId, now)];
    }

    method UpdateJob(id: Id, patch: Patch<JobPatch>, now: Timestamp)
      modifies this`jobs
      ensures jobs == Updated(old(jobs), id, patch, now, MergeJob)
      ensures old(Valid()) && (patch.id.None? || patch.id.value == id || !Contains(old(jobs), patch.id.value)) ==> Valid()
    {
      if UniqueIds(jobs) && (patch.id.None? || patch.id.value == id || !Contains(jobs, patch.id.value)) {
        UpdateKeepsUnique(jobs, id, patch, now, MergeJob);
      }
      jobs := Updated(jobs, id, patch, now, MergeJob);
    }

    method DeleteJob(id: Id)
      modifies this`jobs
      ensures jobs == Deleted(old(jobs), id)
      ensures old(Valid()) ==> Valid()
    {
      if UniqueIds(jobs) {
        DeleteKeepsUnique(jobs, id);
      }
      jobs := Deleted(jobs, id);
    }

    // ---------------------------------------------------------------- projects

    method AddProject(data: ProjectData, newId: Id, now: Timestamp)
      modifies this`projects
      ensures projects == old(projects) + [Stamp(data, newId, now)]
      ensures old(Valid()) && !Contains(old(projects), newId) ==> Valid()
    {
      if UniqueIds(projects) && !Contains(projects, newId) {
        AppendFreshKeepsUnique(projects, Stamp(data, newId, now));
      }
      projects := projects + [Stamp(data, newId, now)];
    }

    method UpdateProject(id: Id, patch: Patch<ProjectPatch>, now: Timestamp)
      modifies this`projects
      ensures projects == Updated(old(projects), id, patch, now, MergeProject)
      ensures old(Valid()) && (patch.id.None? || patch.id.value == id || !Contains(old(projects), patch.id.value)) ==> Valid()
    {
      if UniqueIds(projects) && (patch.id.None? || patch.id.value == id || !Contains(projects, patch.id.value)) {
        UpdateKeepsUnique(projects, id, patch, now, MergeProject);
      }
      projects := Updated(projects, id, patch, now, MergeProject);
    }

    method DeleteProject(id: Id)
      modifies this`projects
      ensures projects == Deleted(old(projects), id)
      ensures old(Valid()) ==> Valid()
    {
      if UniqueIds(projects) {
        DeleteKeepsUnique(projects, id);
      }
      projects := Deleted(projects, id);
    }

    // ---------------------------------------------------------------- selection

    /*
     * Each setter may assign its own slot and nothing else (its `modifies`
     * frame); the value is not checked against the collections.
     */

    method SetSelectedLead(lead: Option<Lead>)
      modifies this`selectedLead
      ensures selectedLead == lead
    {
      selectedLead := lead;
    }

    method SetSelectedContractor(contractor: Option<Contractor>)
      modifies this`selectedContractor
      ensures selectedContractor == contractor
    {
      selectedContractor := contractor;
    }

    method SetSelectedJob(job: Option<Job>)
      modifies this`selectedJob
      ensures selectedJob == job
    {
      selectedJob := job;
    }

    method SetSelectedProject(project: Option<Project>)
      modifies this`selectedProject
      ensures selectedProject == project
    {
      selectedProject := project;
    }

    // ---------------------------------------------------------------- dashboard

    /** The dashboard figures of the current collections; reading them changes nothing. */
    function GetDashboardStats(now: Timestamp): (r: DashboardStats)
      reads this
      ensures r == Stats(leads, contractors, jobs, projects, now)
    {
      Stats(leads, contractors, jobs, projects, now)
    }
  }

  /**
   * A caller's view, from the contracts alone: selecting a lead and then
   * clearing the selection leaves the slot empty and every collection as it was.
   */
  method SelectThenClear(store: Store, lead: Lead)
    modifies store
    ensures store.selectedLead == None
    ensures store.leads == old(store.leads) && store.contractors == old(store.contractors)
    ensures store.jobs == old(store.jobs) && store.projects == old(store.projects)
  {
    store.SetSelectedLead(Some(lead));
    store.SetSelectedLead(None);
  }

  /**
   * A caller's view, from the contracts alone: adding a lead under a fresh
   * identifier and deleting that identifier (once or twice) restores the leads.
   */
  method AddThenDeleteTwice(store: Store, lead: LeadData, newId: Id, now: Timestamp)
    requires !Contains(store.leads, newId)
    modifies store
    ensures store.leads == old(store.leads)
  {
    ghost var before := store.leads;
    store.AddLead(lead, newId, now);
    store.DeleteLead(newId);
    AddThenDeleteRestores(before, Stamp(lead, newId, now));
    store.DeleteLead(newId);
    DeleteAbsentIsNoOp(before, newId);
  }

  /** Deleting a present lead from a store with unique ids removes exactly that one lead. */
  method DeletePresentLead(store: Store, id: Id)
    requires store.Valid() && Contains(store.leads, id)
    modifies store
    ensures store.Valid()
    ensures |store.leads| == |old(store.leads)| - 1
    ensures !Contains(store.leads, id)
  {
    DeleteUniqueRemovesOne(store.leads, id);
    store.DeleteLead(id);
  }
}
