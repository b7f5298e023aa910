/**
 * The dashboard statistics: counts and sums over the four collections,
 * recomputed from scratch on every call, plus how they move under the
 * store's add, update and delete actions.
 */
module Dashboard {
  import opened Types
  import opened Collection

  /** Thirty days in milliseconds: the window of "monthly" conversions. */
  const MonthMs: int := 30 * 24 * 60 * 60 * 1000

  predicate IsActiveLead(l: Lead) { l.data.status != Lost }
  predicate IsLostLead(l: Lead) { l.data.status == Lost }
  predicate IsConvertedLead(l: Lead) { l.data.status == Converted }
  predicate IsActiveJob(j: Job) { j.data.status != Cancelled }
  predicate IsCancelledJob(j: Job) { j.data.status == Cancelled }
  predicate IsActiveContractor(c: Contractor) { c.data.status == ContractorActive }

  /** A converted lead last updated strictly after `cutoff`. */
  function ConvertedSince(cutoff: Timestamp): (r: Lead -> bool)
    ensures forall l: Lead :: r(l) ==> IsConvertedLead(l) && IsActiveLead(l)
    ensures forall l: Lead :: IsConvertedLead(l) ==> (r(l) <==> l.updatedAt > cutoff)
  {
    (l: Lead) => l.data.status == Converted && l.updatedAt > cutoff
  }

  /** `jobs.reduce((sum, job) => sum + job.grantAmount, 0)`, folded from the left. */
  function SumGrants(jobs: seq<Job>): (r: int)
    ensures jobs == [] ==> r == 0
    ensures (forall i :: 0 <= i < |jobs| ==> jobs[i].data.grantAmount >= 0) ==> r >= 0
  {
    if jobs == [] then 0 else SumGrants(jobs[..|jobs| - 1]) + jobs[|jobs| - 1].data.grantAmount
  }

  /** The total grant of a list with one more job grows by exactly that job's grant. */
  lemma SumGrantsAppend(jobs: seq<Job>, j: Job)
    ensures SumGrants(jobs + [j]) == SumGrants(jobs) + j.data.grantAmount
  {
    assert (jobs + [j])[..|jobs|] == jobs;
  }

  /** The total grant depends on the grant amounts alone, position by position. */
  lemma {:induction false} SumGrantsPointwise(a: seq<Job>, b: seq<Job>)
    requires |a| == |b|
    requires forall i :: 0 <= i < |a| ==> a[i].data.grantAmount == b[i].data.grantAmount
    ensures SumGrants(a) == SumGrants(b)
    decreases |a|
  {
    if a != [] {
      SumGrantsPointwise(a[..|a| - 1], b[..|b| - 1]);
    }
  }

  /** With no negative grant, the total is at least every single grant. */
  lemma {:induction false} SumGrantsBoundsEach(jobs: seq<Job>, k: int)
    requires forall i :: 0 <= i < |jobs| ==> jobs[i].data.grantAmount >= 0
    requires 0 <= k < |jobs|
    ensures 0 <= jobs[k].data.grantAmount <= SumGrants(jobs)
    decreases |jobs|
  {
    if k < |jobs| - 1 {
      SumGrantsBoundsEach(jobs[..|jobs| - 1], k);
    }
  }

  /** When `q` is exactly the negation of `p`, the two filters split the list. */
  lemma {:induction false} FilterSplit<T>(s: seq<T>, p: T -> bool, q: T -> bool)
    requires forall x :: x in s ==> (q(x) <==> !p(x))
    ensures |Filter(s, p)| + |Filter(s, q)| == |s|
    decreases |s|
  {
    if s != [] {
      assert forall x :: x in s[1..] ==> x in s;
      FilterSplit(s[1..], p, q);
    }
  }

  /** `count > 0 ? total / count : 0`, as an exact ratio. */
  function Average(total: int, count: nat): (avg: real)
    ensures count == 0 ==> avg == 0.0
    ensures count > 0 ==> avg * (count as real) == total as real
  {
    if count > 0 then (total as real) / (count as real) else 0.0
  }

  /** Active and lost leads split the list; recent conversions are converted leads, which are active. */
  lemma LeadCounts(leads: seq<Lead>, now: Timestamp)
    ensures |Filter(leads, IsActiveLead)| + |Filter(leads, IsLostLead)| == |leads|
    ensures |Filter(leads, ConvertedSince(now - MonthMs))| <= |Filter(leads, IsConvertedLead)|
    ensures |Filter(leads, IsConvertedLead)| <= |Filter(leads, IsActiveLead)|
  {
    FilterSplit(leads, IsActiveLead, IsLostLead);
    FilterMonotone(leads, ConvertedSince(now - MonthMs), IsConvertedLead);
    FilterMonotone(leads, IsConvertedLead, IsActiveLead);
  }

  /** Active and cancelled jobs split the list. */
  lemma JobCounts(jobs: seq<Job>)
    ensures |Filter(jobs, IsActiveJob)| + |Filter(jobs, IsCancelledJob)| == |jobs|
  {
    FilterSplit(jobs, IsActiveJob, IsCancelledJob);
  }

  lemma AverageBounds(total: int, count: nat)
    requires total >= 0 && count > 0
    ensures 0.0 <= Average(total, count) <= total as real
  {
    var t, c := total as real, count as real;
    assert Average(total, count) * c == t;
    assert c >= 1.0;
  }

  /**
   * `getDashboardStats`, with the clock reading `now` passed in: the ten
   * figures over the current collections.
   */
  function Stats(leads: seq<Lead>, contractors: seq<Contractor>, jobs: seq<Job>, projects: seq<Project>, now: Timestamp): (r: DashboardStats)
    ensures r.totalLeads == |leads| && r.totalJobs == |jobs|
    ensures r.totalContractors == |contractors| && r.totalProjects == |projects|
    ensures r.activeLeads <= r.totalLeads
    ensures r.activeJobs <= r.totalJobs
    ensures r.activeContractors <= r.totalContractors
    // "lost" is exactly what keeps a lead out of the active count, "cancelled" a job
    ensures r.activeLeads + |Filter(leads, IsLostLead)| == r.totalLeads
    ensures r.activeJobs + |Filter(jobs, IsCancelledJob)| == r.totalJobs
    // recent conversions are converted leads, and converted leads are active
    ensures r.monthlyConversions <= |Filter(leads, IsConvertedLead)| <= r.activeLeads
    ensures r.totalGrantValue == SumGrants(jobs)
    ensures r.totalJobs == 0 ==> r.totalGrantValue == 0
    // the average is the total grant over the number of jobs, 0 when there are none
    ensures r.averageJobValue == Average(r.totalGrantValue, r.totalJobs)
  {
    var activeLeads := |Filter(leads, IsActiveLead)|;
    var activeJobs := |Filter(jobs, IsActiveJob)|;
    var activeContractors := |Filter(contractors, IsActiveContractor)|;
    var totalGrantValue := SumGrants(jobs);
    var averageJobValue := Average(totalGrantValue, |jobs|);
    var monthlyConversions := |Filter(leads, ConvertedSince(now - MonthMs))|;
    LeadCounts(leads, now);
    JobCounts(jobs);
    DashboardStats(
      |leads|, activeLeads,
      |jobs|, activeJobs,
      |contractors|, activeContractors,
      |projects|,
      totalGrantValue,
      monthlyConversions,
      averageJobValue)
  }

  /** A converted lead counts as a monthly conversion exactly when it was updated less than 30 days ago. */
  lemma MonthlyWindow(l: Lead, now: Timestamp)
    ensures ConvertedSince(now - MonthMs)(l) <==> l.data.status == Converted && now - l.updatedAt < 2592000000
  {}

  const DayMs: int := 24 * 60 * 60 * 1000

  /** A converted lead updated 10 days ago is a monthly conversion; one updated 40 days ago is not. */
  lemma ConversionWindowExample(l: Lead, now: Timestamp)
    requires l.data.status == Converted
    ensures ConvertedSince(now - MonthMs)(l.(updatedAt := now - 10 * DayMs))
    ensures !ConvertedSince(now - MonthMs)(l.(updatedAt := now - 40 * DayMs))
  {}

  /**
   * Projects enter the dashboard only through their number: their job lists
   * and rollups are never read, let alone checked against the jobs.
   */
  lemma ProjectsOnlyCounted(leads: seq<Lead>, contractors: seq<Contractor>, jobs: seq<Job>,
                            projects: seq<Project>, others: seq<Project>, now: Timestamp)
    requires |projects| == |others|
    ensures Stats(leads, contractors, jobs, projects, now) == Stats(leads, contractors, jobs, others, now)
  {}

  /** With no negative grant, the average lies between 0 and the total. */
  lemma AverageWithinTotal(leads: seq<Lead>, contractors: seq<Contractor>, jobs: seq<Job>, projects: seq<Project>, now: Timestamp)
    requires forall i :: 0 <= i < |jobs| ==> jobs[i].data.grantAmount >= 0
    ensures var r := Stats(leads, contractors, jobs, projects, now);
      0.0 <= r.averageJobValue <= r.totalGrantValue as real
  {
    var r := Stats(leads, contractors, jobs, projects, now);
    if |jobs| > 0 {
      AverageBounds(r.totalGrantValue, |jobs|);
    }
  }

  // ---------------------------------------------------------------- Stats under the store's actions

  /** Adding a job: one more job, its grant added to the total, one more active job unless it is cancelled. */
  lemma StatsAfterAddJob(leads: seq<Lead>, contractors: seq<Contractor>, jobs: seq<Job>, projects: seq<Project>,
                         data: JobData, newId: Id, now: Timestamp)
    ensures var before := Stats(leads, contractors, jobs, projects, now);
      var after := Stats(leads, contractors, jobs + [Stamp(data, newId, now)], projects, now);
      && after.totalJobs == before.totalJobs + 1
      && after.totalGrantValue == before.totalGrantValue + data.grantAmount
      && after.activeJobs == before.activeJobs + (if data.status == Cancelled then 0 else 1)
      && after.(totalJobs := before.totalJobs, totalGrantValue := before.totalGrantValue,
                activeJobs := before.activeJobs, averageJobValue := before.averageJobValue) == before
  {
    var j := Stamp(data, newId, now);
    SumGrantsAppend(jobs, j);
    FilterConcat(jobs, [j], IsActiveJob);
  }

  /** Adding a lead: one more lead; it is active unless lost, and a converted one is a conversion this month. */
  lemma StatsAfterAddLead(leads: seq<Lead>, contractors: seq<Contractor>, jobs: seq<Job>, projects: seq<Project>,
                          data: LeadData, newId: Id, now: Timestamp)
    ensures var before := Stats(leads, contractors, jobs, projects, now);
      var after := Stats(leads + [Stamp(data, newId, now)], contractors, jobs, projects, now);
      && after.totalLeads == before.totalLeads + 1
      && after.activeLeads == before.activeLeads + (if data.status == Lost then 0 else 1)
      && after.monthlyConversions == before.monthlyConversions + (if data.status == Converted then 1 else 0)
      && after.(totalLeads := before.totalLeads, activeLeads := before.activeLeads,
                monthlyConversions := before.monthlyConversions) == before
  {
    var l := Stamp(data, newId, now);
    FilterConcat(leads, [l], IsActiveLead);
    FilterConcat(leads, [l], ConvertedSince(now - MonthMs));
  }

  /** Deleting a present lead from a list with unique identifiers: one lead fewer, the other collections' figures unchanged. */
  lemma StatsAfterDeleteLead(leads: seq<Lead>, contractors: seq<Contractor>, jobs: seq<Job>, projects: seq<Project>,
                             id: Id, now: Timestamp)
    requires UniqueIds(leads) && Contains(leads, id)
    ensures var before := Stats(leads, contractors, jobs, projects, now);
      var after := Stats(Deleted(leads, id), contractors, jobs, projects, now);
      && after.totalLeads == before.totalLeads - 1
      && after.activeLeads <= before.activeLeads
      && after.monthlyConversions <= before.monthlyConversions
      && after.(totalLeads := before.totalLeads, activeLeads := before.activeLeads,
                monthlyConversions := before.monthlyConversions) == before
  {
    DeleteUniqueRemovesOne(leads, id);
    DeleteKeepsOrder(leads, id);
    var rest := Deleted(leads, id);
    SubFilterMonotone(leads, rest, IsActiveLead);
    SubFilterMonotone(leads, rest, ConvertedSince(now - MonthMs));
  }

  /** A list whose elements all come from `s`, each no more often, has no more elements passing `p`. */
  lemma SubFilterMonotone<T>(s: seq<T>, r: seq<T>, p: T -> bool)
    requires SubsequenceOf(r, s)
    ensures |Filter(r, p)| <= |Filter(s, p)|
  {
    SubsequenceFilter(r, s, p);
    SubsequenceLength(Filter(r, p), Filter(s, p));
  }

  lemma {:induction false} SubsequenceFilter<T>(r: seq<T>, s: seq<T>, p: T -> bool)
    requires SubsequenceOf(r, s)
    ensures SubsequenceOf(Filter(r, p), Filter(s, p))
    decreases |s|
  {
    if r == [] {
      assert Filter(r, p) == [];
    } else {
      assert s != [];
      if r[0] == s[0] && SubsequenceOf(r[1..], s[1..]) {
        SubsequenceFilter(r[1..], s[1..], p);
        if p(s[0]) {
          assert Filter(r, p) == [r[0]] + Filter(r[1..], p);
          assert Filter(s, p) == [s[0]] + Filter(s[1..], p);
          assert ([r[0]] + Filter(r[1..], p))[1..] == Filter(r[1..], p);
          assert ([s[0]] + Filter(s[1..], p))[1..] == Filter(s[1..], p);
        } else {
          assert Filter(r, p) == Filter(r[1..], p);
          assert Filter(s, p) == Filter(s[1..], p);
        }
      } else {
        SubsequenceFilter(r, s[1..], p);
        if p(s[0]) {
          SubsequenceCons(Filter(r, p), s[0], Filter(s[1..], p));
        }
      }
    }
  }

  /** A subsequence of `s` is still one after putting an element in front of `s`. */
  lemma SubsequenceCons<T>(r: seq<T>, x: T, s: seq<T>)
    requires SubsequenceOf(r, s)
    ensures SubsequenceOf(r, [x] + s)
  {
    assert ([x] + s)[1..] == s;
  }

  lemma {:induction false} SubsequenceLength<T>(r: seq<T>, s: seq<T>)
    requires SubsequenceOf(r, s)
    ensures |r| <= |s|
    decreases |s|
  {
    if r != [] {
      if r[0] == s[0] && SubsequenceOf(r[1..], s[1..]) {
        SubsequenceLength(r[1..], s[1..]);
      } else {
        SubsequenceLength(r, s[1..]);
      }
    }
  }

  /** An update whose patch leaves `grantAmount` alone leaves the total grant (and so the average) alone. */
  lemma StatsAfterUpdateJob(leads: seq<Lead>, contractors: seq<Contractor>, jobs: seq<Job>, projects: seq<Project>,
                            id: Id, patch: Patch<JobPatch>, now: Timestamp)
    requires patch.fields.grantAmount.None?
    ensures var before := Stats(leads, contractors, jobs, projects, now);
      var after := Stats(leads, contractors, Updated(jobs, id, patch, now, MergeJob), projects, now);
      && after.totalJobs == before.totalJobs
      && after.totalGrantValue == before.totalGrantValue
      && after.averageJobValue == before.averageJobValue
  {
    SumGrantsPointwise(jobs, Updated(jobs, id, patch, now, MergeJob));
  }

  /**
   * Marking a present lead converted at clock reading `now` makes it count among
   * the monthly conversions of every dashboard read less than 30 days later.
   */
  lemma ConvertingLeadCountsThisMonth(leads: seq<Lead>, contractors: seq<Contractor>, jobs: seq<Job>, projects: seq<Project>,
                                      id: Id, patch: Patch<LeadPatch>, now: Timestamp, later: Timestamp)
    requires Contains(leads, id)
    requires patch.fields.status == Some(Converted)
    requires later < now + MonthMs
    ensures Stats(leads, contractors, jobs, projects, later).totalLeads ==
            Stats(Updated(leads, id, patch, now, MergeLead), contractors, jobs, projects, later).totalLeads
    ensures Stats(Updated(leads, id, patch, now, MergeLead), contractors, jobs, projects, later).monthlyConversions >= 1
  {
    var r := Updated(leads, id, patch, now, MergeLead);
    var i :| 0 <= i < |leads| && leads[i].id == id;
    assert ConvertedSince(later - MonthMs)(r[i]);
    assert r[i] in Filter(r, ConvertedSince(later - MonthMs));
  }
}
