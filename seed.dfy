/**
 * The data the store starts with: two leads, two contractors, two jobs and
 * one project, with the calendar dates written as milliseconds since the
 * epoch (midnight UTC). It is ordinary data, used here as a worked example
 * of the dashboard figures.
 */
module Seed {
  import opened Types
  import opened Collection
  import opened Dashboard
  import opened CrmStore

  const SeedLeads: seq<Lead> := [
    Entity("1", 1705276800000, 1705276800000,   // 2024-01-15
      LeadData("John", "Smith", "john.smith@email.com", "07700 900123", "123 Main Street", "M1 1AA",
               House, "1980s", "Gas boiler", LowIncome, ["Universal Credit", "Child Benefit"],
               Eligible, Qualified, "Interested in insulation and new boiler", None)),
    Entity("2", 1705708800000, 1705708800000,   // 2024-01-20
      LeadData("Sarah", "Johnson", "sarah.j@email.com", "07700 900456", "456 Oak Avenue", "M2 2BB",
               Flat, "1990s", "Electric storage heaters", MediumIncome, ["Pension Credit"],
               Eligible, Contacted, "Looking for heating upgrade", None))
  ]

  const SeedContractors: seq<Contractor> := [
    Entity("1", 1685577600000, 1704844800000,   // 2023-06-01, 2024-01-10
      ContractorData("Mike Wilson", "Green Energy Solutions", "mike@greenenergy.com", "0161 123 4567",
                     "Unit 5, Industrial Estate", "M3 3CC", "PAS 2030",
                     ["Insulation", "Boiler Installation", "Solar"], ContractorActive, 4.8, 45)),
    Entity("2", 1692057600000, 1704412800000,   // 2023-08-15, 2024-01-05
      ContractorData("Lisa Thompson", "Eco Install Ltd", "lisa@ecoinstall.co.uk", "0161 987 6543",
                     "15 Business Park", "M4 4DD", "PAS 2030, TrustMark",
                     ["Heat Pumps", "Insulation"], ContractorActive, 4.9, 32))
  ]

  const SeedJobs: seq<Job> := [
    Entity("1", 1705708800000, 1706140800000,   // 2024-01-20, 2024-01-25
      JobData("Loft Insulation & Boiler Replacement",
              "Full property upgrade including loft insulation and new A-rated boiler",
              "1", Some("1"), "123 Main Street", "M1 1AA", ECO4,
              ["Loft Insulation", "Boiler Replacement"], 8500, 6800, InProgress,
              Some(1706140800000), None, ["survey.pdf", "contract.pdf"],
              "Customer very happy with progress")),
    Entity("2", 1705881600000, 1705881600000,   // 2024-01-22
      JobData("Cavity Wall Insulation", "Cavity wall insulation for 3-bed semi-detached",
              "2", None, "456 Oak Avenue", "M2 2BB", ECO4,
              ["Cavity Wall Insulation"], 1200, 1200, JobPending,
              None, None, ["survey.pdf"], "Awaiting approval"))
  ]

  const SeedProjects: seq<Project> := [
    Entity("1", 1704067200000, 1706140800000,   // 2024-01-01, 2024-01-25
      ProjectData("Manchester Winter Upgrade Program",
                  "Large-scale upgrade program for Manchester properties",
                  ["1", "2"], 9700, 8000, ProjectActive, 1704067200000, None))
  ]

  /** The seed collections have unique identifiers within each collection. */
  lemma SeedIdsUnique()
    ensures UniqueIds(SeedLeads) && UniqueIds(SeedContractors)
    ensures UniqueIds(SeedJobs) && UniqueIds(SeedProjects)
  {}

  /** The store as the application creates it: the seed collections, nothing selected, ids unique. */
  method SeededStore() returns (store: Store)
    ensures fresh(store)
    ensures store.leads == SeedLeads && store.contractors == SeedContractors
    ensures store.jobs == SeedJobs && store.projects == SeedProjects
    ensures store.selectedLead == None && store.selectedContractor == None
    ensures store.selectedJob == None && store.selectedProject == None
    ensures store.Valid()
  {
    SeedIdsUnique();
    store := new Store(SeedLeads, SeedContractors, SeedJobs, SeedProjects);
  }

  /**
   * The seed's dashboard, at any clock reading: grants 6800 and 1200 total
   * 8000 with an average of 4000; nothing is lost, cancelled or converted.
   */
  lemma SeedStats(now: Timestamp)
    ensures Stats(SeedLeads, SeedContractors, SeedJobs, SeedProjects, now)
         == DashboardStats(2, 2, 2, 2, 2, 2, 1, 8000, 0, 4000.0)
  {
    var r := Stats(SeedLeads, SeedContractors, SeedJobs, SeedProjects, now);
    SeedCounts(now);
    SeedGrants();
    assert r.activeLeads == 2;
    assert r.activeJobs == 2;
    assert r.activeContractors == 2;
    assert r.monthlyConversions == 0;
  }

  lemma SeedCounts(now: Timestamp)
    ensures |Filter(SeedLeads, IsActiveLead)| == 2
    ensures |Filter(SeedJobs, IsActiveJob)| == 2
    ensures |Filter(SeedContractors, IsActiveContractor)| == 2
    ensures Filter(SeedLeads, ConvertedSince(now - MonthMs)) == []
  {
    SeedActiveLeads();
    SeedActiveJobs();
    SeedActiveContractors();
    SeedNoConversions(now);
  }

  lemma SeedActiveLeads()
    ensures |Filter(SeedLeads, IsActiveLead)| == 2
  {
    FilterAll(SeedLeads, IsActiveLead);
  }

  lemma SeedActiveJobs()
    ensures |Filter(SeedJobs, IsActiveJob)| == 2
  {
    FilterAll(SeedJobs, IsActiveJob);
  }

  lemma SeedActiveContractors()
    ensures |Filter(SeedContractors, IsActiveContractor)| == 2
  {
    FilterAll(SeedContractors, IsActiveContractor);
  }

  lemma SeedNoConversions(now: Timestamp)
    ensures Filter(SeedLeads, ConvertedSince(now - MonthMs)) == []
  {}

  lemma SeedGrants()
    ensures SumGrants(SeedJobs) == 8000
    ensures Average(8000, 2) == 4000.0
  {
    assert SeedJobs[..1] == [SeedJobs[0]];
    assert [SeedJobs[0]][..0] == [];
  }

  /** The seed project's rollups match its jobs here, but only because the seed says so. */
  lemma SeedProjectRollupMatches()
    ensures SeedProjects[0].data.totalGrant == SumGrants(SeedJobs)
    ensures SeedProjects[0].data.totalValue == SeedJobs[0].data.estimatedValue + SeedJobs[1].data.estimatedValue
  {
    SeedGrants();
  }

  /** With no jobs there is no grant and the average is 0, not a division by zero. */
  lemma NoJobsStats(now: Timestamp)
    ensures Stats(SeedLeads, SeedContractors, [], SeedProjects, now).totalGrantValue == 0
    ensures Stats(SeedLeads, SeedContractors, [], SeedProjects, now).averageJobValue == 0.0
  {}
}
