/**
 * The job board: the shared mock job list, the filter stages applied to it in
 * order, the sort keys, and the memoised computation that runs them. The
 * computation reassigns a local list stage by stage and then sorts that list
 * in place, which is the shared mock array itself when no stage was active.
 */
module JobBoard {
  import opened Options
  import opened Seqs
  import opened Text
  import opened Sorting
  import opened JobFilters

  datatype Salary = Salary(min: int, max: int, currency: string)
  datatype Poster = Poster(name: string, role: string, isAlumni: bool)

  /**
   * A job posting. `kind` is the posting's type. Dates are milliseconds since
   * the epoch. Optional keys are `Option`s; a missing `isBookmarked` or
   * `isUrgent` reads as `false`.
   */
  datatype Job = Job(
    id: string,
    title: string,
    company: string,
    location: string,
    kind: string,
    experience: string,
    salary: Option<Salary>,
    description: string,
    requirements: seq<string>,
    benefits: seq<string>,
    postedBy: Option<Poster>,
    postedDate: int,
    applicants: int,
    matchScore: Option<int>,
    isBookmarked: bool,
    isUrgent: bool)

  const MockJobs: seq<Job> := [
    Job("1", "Senior Software Engineer", "TechCorp", "San Francisco, CA", "Full-time", "Senior",
        Some(Salary(150000, 200000, "$")),
        "Join our engineering team to build scalable web applications. Work with React, Node.js, and cloud technologies.",
        ["React", "Node.js", "TypeScript", "AWS", "5+ years experience"],
        ["Health Insurance", "401k", "Remote Work", "Stock Options"],
        Some(Poster("Sarah Johnson", "Engineering Manager", true)),
        1705276800000, 23, Some(94), false, false),
    Job("2", "Product Manager", "StartupXYZ", "Remote", "Full-time", "Mid",
        Some(Salary(120000, 160000, "$")),
        "Lead product strategy and work with cross-functional teams to deliver innovative solutions.",
        ["Product Strategy", "Data Analysis", "User Research", "3+ years experience"],
        ["Health Insurance", "Unlimited PTO", "Remote Work", "Learning Budget"],
        Some(Poster("Michael Chen", "VP of Product", true)),
        1705017600000, 45, Some(87), true, true),
    Job("3", "Data Scientist Intern", "DataCorp", "New York, NY", "Internship", "Entry",
        Some(Salary(25, 35, "$")),
        "Summer internship opportunity to work on machine learning projects and data analysis.",
        ["Python", "Machine Learning", "Statistics", "SQL"],
        ["Mentorship", "Learning Opportunities", "Networking"],
        Some(Poster("Dr. Emily Rodriguez", "Data Science Lead", true)),
        1704844800000, 67, Some(91), false, false),
    Job("4", "UX Designer", "DesignStudio", "Los Angeles, CA", "Full-time", "Mid",
        Some(Salary(90000, 130000, "$")),
        "Create beautiful and intuitive user experiences for web and mobile applications.",
        ["Figma", "User Research", "Prototyping", "Design Systems", "3+ years experience"],
        ["Health Insurance", "Creative Freedom", "Conference Budget", "Flexible Hours"],
        None, 1704672000000, 34, Some(82), false, false),
    Job("5", "Marketing Manager", "GrowthCo", "Austin, TX", "Full-time", "Mid",
        Some(Salary(80000, 110000, "$")),
        "Drive marketing campaigns and growth initiatives for our B2B SaaS platform.",
        ["Digital Marketing", "Analytics", "Content Strategy", "B2B Experience"],
        ["Health Insurance", "Performance Bonus", "Professional Development"],
        None, 1704412800000, 28, None, false, false),
    Job("6", "DevOps Engineer", "CloudTech", "Seattle, WA", "Contract", "Senior",
        Some(Salary(80, 120, "$")),
        "6-month contract to help migrate infrastructure to cloud and implement CI/CD pipelines.",
        ["AWS", "Docker", "Kubernetes", "CI/CD", "Infrastructure as Code"],
        ["High Hourly Rate", "Remote Work", "Flexible Schedule"],
        None, 1704240000000, 19, Some(88), false, true)
  ]

  /** Hours per year used to turn a contract's hourly rate into an annual figure. */
  const ContractHoursPerYear: int := 2000

  // ---------------------------------------------------------------- stages

  /** The job's lower-cased title, company, description or some requirement contains `query`. */
  predicate MatchesSearch(job: Job, query: string)
  {
    || Contains(Lower(job.title), query)
    || Contains(Lower(job.company), query)
    || Contains(Lower(job.description), query)
    || exists i :: 0 <= i < |job.requirements| && Contains(Lower(job.requirements[i]), query)
  }

  /** The minimum salary as compared against the range: only Contract rates are annualised. */
  function AnnualMin(job: Job): int
    requires job.salary.Some?
  {
    if job.kind == "Contract" then job.salary.value.min * ContractHoursPerYear else job.salary.value.min
  }

  /** A job with no salary always passes; otherwise its minimum lies in the inclusive range. */
  predicate WithinSalary(job: Job, r: SalaryRange)
  {
    job.salary.None? || (r.lo <= AnnualMin(job) && AnnualMin(job) <= r.hi)
  }

  /** A list filter applies only when the list is present and non-empty. */
  predicate NonEmpty(l: Option<seq<string>>)
  {
    l.Some? && |l.value| > 0
  }

  function SearchStage(f: JobQuery): Stage<Job>
  {
    var query := Lower(f.searchQuery.GetOr(""));
    Stage(f.searchQuery.GetOr("") != "", (job: Job) => MatchesSearch(job, query))
  }

  function TypeStage(f: JobQuery): Stage<Job>
  {
    Stage(NonEmpty(f.types), (job: Job) => job.kind in f.types.GetOr([]))
  }

  function ExperienceStage(f: JobQuery): Stage<Job>
  {
    Stage(NonEmpty(f.experience), (job: Job) => job.experience in f.experience.GetOr([]))
  }

  function LocationStage(f: JobQuery): Stage<Job>
  {
    Stage(NonEmpty(f.locations), (job: Job) => job.location in f.locations.GetOr([]))
  }

  function SalaryStage(f: JobQuery): Stage<Job>
  {
    Stage(f.salaryRange.Some?, (job: Job) => WithinSalary(job, f.salaryRange.GetOr(SalaryRange(0, 0))))
  }

  /** A case-sensitive test for "Remote" anywhere in the location. */
  function RemoteStage(f: JobQuery): Stage<Job>
  {
    Stage(f.remoteOnly, (job: Job) => Contains(job.location, "Remote"))
  }

  function AlumniStage(f: JobQuery): Stage<Job>
  {
    Stage(f.alumniPosted, (job: Job) => job.postedBy.Some? && job.postedBy.value.isAlumni)
  }

  function UrgentStage(f: JobQuery): Stage<Job>
  {
    Stage(f.urgentOnly, (job: Job) => job.isUrgent)
  }

  /** The stages in the order the board applies them; industries have none. */
  function Stages(f: JobQuery): seq<Stage<Job>>
  {
    [SearchStage(f), TypeStage(f), ExperienceStage(f), LocationStage(f),
     SalaryStage(f), RemoteStage(f), AlumniStage(f), UrgentStage(f)]
  }

  /** Some stage replaces the list, so the board no longer holds the shared array. */
  predicate AnyStageActive(f: JobQuery)
  {
    f.searchQuery.GetOr("") != "" || NonEmpty(f.types) || NonEmpty(f.experience) ||
    NonEmpty(f.locations) || f.salaryRange.Some? || f.remoteOnly || f.alumniPosted || f.urgentOnly
  }

  /** A job survives the stages: one clause per filter key, joined by AND. */
  predicate Matches(f: JobQuery, job: Job)
  {
    && (f.searchQuery.GetOr("") != "" ==> MatchesSearch(job, Lower(f.searchQuery.value)))
    && (NonEmpty(f.types) ==> job.kind in f.types.value)
    && (NonEmpty(f.experience) ==> job.experience in f.experience.value)
    && (NonEmpty(f.locations) ==> job.location in f.locations.value)
    && (f.salaryRange.Some? ==> WithinSalary(job, f.salaryRange.value))
    && (f.remoteOnly ==> Contains(job.location, "Remote"))
    && (f.alumniPosted ==> job.postedBy.Some? && job.postedBy.value.isAlumni)
    && (f.urgentOnly ==> job.isUrgent)
  }

  function Matcher(f: JobQuery): Job -> bool
  {
    job => Matches(f, job)
  }

  lemma StagesAreMatches(f: JobQuery, job: Job)
    ensures PassesAll(Stages(f), job) == Matches(f, job)
  {
    var st := Stages(f);
    assert st[0] == SearchStage(f) && st[1] == TypeStage(f) && st[2] == ExperienceStage(f);
    assert st[3] == LocationStage(f) && st[4] == SalaryStage(f) && st[5] == RemoteStage(f);
    assert st[6] == AlumniStage(f) && st[7] == UrgentStage(f);
  }

  lemma StagesActivity(f: JobQuery)
    ensures Stages(f)[0].active == (f.searchQuery.GetOr("") != "")
    ensures Stages(f)[1].active == NonEmpty(f.types)
    ensures Stages(f)[2].active == NonEmpty(f.experience)
    ensures Stages(f)[3].active == NonEmpty(f.locations)
    ensures Stages(f)[4].active == f.salaryRange.Some?
    ensures Stages(f)[5].active == f.remoteOnly
    ensures Stages(f)[6].active == f.alumniPosted
    ensures Stages(f)[7].active == f.urgentOnly
  {
  }

  /** The list after every stage, in its original order. */
  function FilterJobs(records: seq<Job>, f: JobQuery): seq<Job>
  {
    Pipeline(records, Stages(f))
  }

  /** Running the stages one after another is one filter by `Matches`. */
  lemma FilterJobsIsFilter(records: seq<Job>, f: JobQuery)
    ensures FilterJobs(records, f) == Filter(records, Matcher(f))
  {
    forall job | job in records
      ensures Matcher(f)(job) == PassesAll(Stages(f), job)
    {
      StagesAreMatches(f, job);
    }
    PipelineIsFilter(records, Stages(f), Matcher(f));
  }

  // ---------------------------------------------------------------- sort

  /** `matchScore || 0`. */
  function Relevance(job: Job): int
  {
    job.matchScore.GetOr(0)
  }

  /** `salary?.max || 0`. */
  function TopSalary(job: Job): int
  {
    if job.salary.Some? then job.salary.value.max else 0
  }

  /** The comparator for each sort key; any other key compares every pair as equal. */
  function JobCompare(sortBy: string, a: Job, b: Job): int
  {
    match sortBy {
      case "relevance" => Relevance(b) - Relevance(a)
      case "date" => b.postedDate - a.postedDate
      case "salary" => TopSalary(b) - TopSalary(a)
      case "applicants" => a.applicants - b.applicants
      case _ => 0
    }
  }

  function JobOrder(sortBy: string): (Job, Job) -> int
  {
    (a, b) => JobCompare(sortBy, a, b)
  }

  /** The number each key sorts ascending by. */
  function SortKey(sortBy: string, job: Job): int
  {
    match sortBy {
      case "relevance" => -Relevance(job)
      case "date" => -job.postedDate
      case "salary" => -TopSalary(job)
      case "applicants" => job.applicants
      case _ => 0
    }
  }

  /** Every comparator is a difference of sort keys, hence a consistent order. */
  lemma JobOrderConsistent(sortBy: string, u: seq<Job>)
    ensures forall a, b :: JobOrder(sortBy)(a, b) == SortKey(sortBy, a) - SortKey(sortBy, b)
    ensures ConsistentOn(JobOrder(sortBy), u)
  {
    forall a, b ensures JobOrder(sortBy)(a, b) == SortKey(sortBy, a) - SortKey(sortBy, b) {
    }
    KeyOrderConsistent(JobOrder(sortBy), (job: Job) => SortKey(sortBy, job), u);
  }

  /** What the board shows: the surviving jobs, stably sorted by the key. */
  function QueryJobs(records: seq<Job>, f: JobQuery, sortBy: string): (r: seq<Job>)
    ensures |r| <= |records|
  {
    Sort(FilterJobs(records, f), JobOrder(sortBy))
  }

  // ---------------------------------------------------------------- properties

  /**
   * The result is a permutation of the matching jobs: drawn from the records,
   * nothing duplicated, and a job is shown exactly when it passes every
   * active stage.
   */
  lemma {:induction false} QueryMembers(records: seq<Job>, f: JobQuery, sortBy: string)
    ensures multiset(QueryJobs(records, f, sortBy)) == multiset(Filter(records, Matcher(f)))
    ensures multiset(QueryJobs(records, f, sortBy)) <= multiset(records)
    ensures forall job :: job in QueryJobs(records, f, sortBy) <==> job in records && Matches(f, job)
  {
    FilterJobsIsFilter(records, f);
    var kept := Filter(records, Matcher(f));
    SortMembers(kept, JobOrder(sortBy));
    FilterMembers(records, Matcher(f));
    forall job ensures job in kept <==> job in records && Matches(f, job) {
      if job in records && Matches(f, job) {
        var i :| 0 <= i < |records| && records[i] == job;
      }
    }
  }

  /** With `{}` (what "Clear" emits) no job is excluded: every record is shown once. */
  lemma ClearedShowsAll(records: seq<Job>, sortBy: string)
    ensures multiset(QueryJobs(records, NoFilters, sortBy)) == multiset(records)
  {
    FilterJobsIsFilter(records, NoFilters);
    FilterAll(records, Matcher(NoFilters));
  }

  /** Each key orders the shown jobs as its name says. */
  lemma {:induction false} QuerySorted(records: seq<Job>, f: JobQuery, sortBy: string)
    ensures var r := QueryJobs(records, f, sortBy);
      forall i, j :: 0 <= i < j < |r| ==>
        && (sortBy == "relevance" ==> Relevance(r[i]) >= Relevance(r[j]))
        && (sortBy == "date" ==> r[i].postedDate >= r[j].postedDate)
        && (sortBy == "salary" ==> TopSalary(r[i]) >= TopSalary(r[j]))
        && (sortBy == "applicants" ==> r[i].applicants <= r[j].applicants)
  {
    var kept := FilterJobs(records, f);
    JobOrderConsistent(sortBy, kept);
    SortSorted(kept, JobOrder(sortBy));
    var r := Sort(kept, JobOrder(sortBy));
    forall i, j | 0 <= i < j < |r| {
      NotAfterMeans(sortBy, r[i], r[j]);
    }
  }

  /** What "`a` does not sort after `b`" means for each key. */
  lemma NotAfterMeans(sortBy: string, a: Job, b: Job)
    requires JobCompare(sortBy, a, b) <= 0
    ensures sortBy == "relevance" ==> Relevance(a) >= Relevance(b)
    ensures sortBy == "date" ==> a.postedDate >= b.postedDate
    ensures sortBy == "salary" ==> TopSalary(a) >= TopSalary(b)
    ensures sortBy == "applicants" ==> a.applicants <= b.applicants
  {
  }

  /** Jobs the key cannot tell apart keep the relative order the stages left them in. */
  lemma QueryStable(records: seq<Job>, f: JobQuery, sortBy: string, x: Job)
    requires x in FilterJobs(records, f)
    ensures Filter(QueryJobs(records, f, sortBy), TiesWith(JobOrder(sortBy), x))
         == Filter(FilterJobs(records, f), TiesWith(JobOrder(sortBy), x))
  {
    JobOrderConsistent(sortBy, FilterJobs(records, f));
    SortStable(FilterJobs(records, f), JobOrder(sortBy), x);
  }

  /** A key the board does not know leaves the filtered order untouched. */
  lemma UnknownKeyKeepsOrder(records: seq<Job>, f: JobQuery, sortBy: string)
    requires sortBy !in {"relevance", "date", "salary", "applicants"}
    ensures QueryJobs(records, f, sortBy) == FilterJobs(records, f)
  {
    SortByZero(FilterJobs(records, f), JobOrder(sortBy));
  }

  /** The industries the panel sends have no effect on the result. */
  lemma IndustriesIgnored(records: seq<Job>, f: JobQuery, industries: Option<seq<string>>, sortBy: string)
    ensures QueryJobs(records, f.(industries := industries), sortBy) == QueryJobs(records, f, sortBy)
  {
    var g := f.(industries := industries);
    FilterJobsIsFilter(records, f);
    FilterJobsIsFilter(records, g);
    FilterExt(records, Matcher(g), Matcher(f));
  }

  /**
   * "Search" on an untouched panel activates the salary stage with the full
   * slider range, so it shows the same jobs as `{}` exactly when every salaried
   * job's compared minimum lies within 0..200000.
   */
  lemma {:induction false} UntouchedSearchVersusClear(records: seq<Job>)
    ensures FilterJobs(records, UntouchedSearch) == FilterJobs(records, NoFilters)
        <==> forall job :: job in records ==> WithinSalary(job, SalaryRange(SalaryFloor, SalaryCeiling))
  {
    FilterJobsIsFilter(records, NoFilters);
    FilterAll(records, Matcher(NoFilters));
    FilterJobsIsFilter(records, UntouchedSearch);
    var p := Matcher(UntouchedSearch);
    forall job ensures p(job) == WithinSalary(job, SalaryRange(SalaryFloor, SalaryCeiling)) {
      ContainsEmpty(Lower(""));
    }
    if forall job :: job in records ==> WithinSalary(job, SalaryRange(SalaryFloor, SalaryCeiling)) {
      FilterAll(records, p);
    } else {
      var job :| job in records && !WithinSalary(job, SalaryRange(SalaryFloor, SalaryCeiling));
      FilterMembers(records, p);
    }
  }

  /** Every shipped job passes the full slider range, so for them the two agree. */
  lemma MockJobsWithinDefaultRange()
    ensures FilterJobs(MockJobs, UntouchedSearch) == FilterJobs(MockJobs, NoFilters)
  {
    assert forall job :: job in MockJobs ==> WithinSalary(job, SalaryRange(SalaryFloor, SalaryCeiling)) by {
      forall i | 0 <= i < |MockJobs| ensures WithinSalary(MockJobs[i], SalaryRange(SalaryFloor, SalaryCeiling)) {
      }
    }
    UntouchedSearchVersusClear(MockJobs);
  }

  /**
   * An internship's hourly rate is compared as if it were annual: with the
   * range 40000..200000 the $25/hour internship is dropped, while the
   * $80/hour contract counts as 160000 and is kept.
   */
  lemma InternshipComparedRaw()
    ensures var f := NoFilters.(salaryRange := Some(SalaryRange(40000, 200000)));
      !Matches(f, MockJobs[2]) && Matches(f, MockJobs[5])
  {
  }

  /** With `{}` no stage is active and the list reaches the sort unchanged. */
  lemma NoFiltersKeepsAll(records: seq<Job>)
    ensures FilterJobs(records, NoFilters) == records
  {
    FilterJobsIsFilter(records, NoFilters);
    FilterAll(records, Matcher(NoFilters));
  }

  /** Re-sorting the shown list by the same key changes nothing. */
  lemma QueryResortable(records: seq<Job>, f: JobQuery, sortBy: string)
    ensures Sort(QueryJobs(records, f, sortBy), JobOrder(sortBy)) == QueryJobs(records, f, sortBy)
  {
    JobOrderConsistent(sortBy, FilterJobs(records, f));
    SortIdempotent(FilterJobs(records, f), JobOrder(sortBy));
  }

  /**
   * Two postings from the same day: `Low` (score 50) is listed before `High`
   * (score 90).
   */
  const Low: Job := Job("a", "", "", "", "Full-time", "Mid", None, "", [], [], None, 0, 0, Some(50), false, false)
  const High: Job := Job("b", "", "", "", "Full-time", "Mid", None, "", [], [], None, 0, 0, Some(90), false, false)

  /**
   * The sort of the shared array is visible in later renders: after a
   * render by relevance with `{}`, the array holds [High, Low], and a render
   * by date (a tie) then keeps that order, where a render by date from the
   * seed order gives [Low, High].
   */
  lemma SharedSortChangesTies()
    ensures QueryJobs([Low, High], NoFilters, "relevance") == [High, Low]
    ensures QueryJobs([High, Low], NoFilters, "date") == [High, Low]
    ensures QueryJobs([Low, High], NoFilters, "date") == [Low, High]
  {
    NoFiltersKeepsAll([Low, High]);
    NoFiltersKeepsAll([High, Low]);
    assert JobOrder("relevance")(Low, High) > 0;
    SortTwo(Low, High, JobOrder("relevance"));
    assert JobOrder("date")(High, Low) == 0;
    SortTwo(High, Low, JobOrder("date"));
    assert JobOrder("date")(Low, High) == 0;
    SortTwo(Low, High, JobOrder("date"));
  }

  // ---------------------------------------------------------------- the board

  class Board {
    /**
     * The module-level mock array. It outlives a mount, so a new board
     * receives it in whatever order an earlier mount's sort left it.
     */
    const jobs: array<Job>
    var sortBy: string
    var filters: JobQuery

    constructor (shared: array<Job>)
      requires multiset(shared[..]) == multiset(MockJobs)
      ensures jobs == shared
      ensures sortBy == "relevance" && filters == NoFilters
    {
      jobs := shared;
      sortBy := "relevance";
      filters := NoFilters;
    }

    /** The sort dropdown. */
    method SetSortBy(key: string)
      modifies this
      ensures sortBy == key && filters == old(filters)
    {
      sortBy := key;
    }

    /** The panel's `onFiltersChange`. */
    method SetFilters(f: JobQuery)
      modifies this
      ensures filters == f && sortBy == old(sortBy)
    {
      filters := f;
    }

    /**
     * The memoised list: each active stage replaces the list by a filtered
     * copy, then the list is sorted in place. With no active stage that list
     * is the shared array, which is then left sorted.
     */
    method FilteredAndSortedJobs() returns (visible: array<Job>)
      modifies jobs
      ensures visible[..] == QueryJobs(old(jobs[..]), filters, sortBy)
      ensures !AnyStageActive(filters) ==> visible == jobs
      ensures AnyStageActive(filters) ==> fresh(visible) && jobs[..] == old(jobs[..])
    {
      var filtered := ApplyStages(jobs, filters);
      SortInPlace(filtered, JobOrder(sortBy));
      visible := filtered;
    }

    /**
     * The same list computed on a copy, so the shared array is never
     * reordered and each render depends only on the seed data, the filters
     * and the key.
     */
    method SortedCopyOfJobs() returns (visible: array<Job>)
      ensures fresh(visible)
      ensures visible[..] == QueryJobs(jobs[..], filters, sortBy)
    {
      var filtered := ApplyStages(jobs, filters);
      visible := CopyOf(filtered);
      SortInPlace(visible, JobOrder(sortBy));
    }
  }

  /** The stages in source order, each replacing the list when it is active. */
  method ApplyStages(jobs: array<Job>, f: JobQuery) returns (filtered: array<Job>)
    ensures filtered[..] == FilterJobs(jobs[..], f)
    ensures !AnyStageActive(f) ==> filtered == jobs
    ensures AnyStageActive(f) ==> fresh(filtered)
  {
    var stages := Stages(f);
    ghost var input := jobs[..];
    assert stages[..0] == [];
    StagesActivity(f);
    filtered := RunCategoryStages(jobs, stages, input);
    filtered := RunToggleStages(filtered, stages, input);
    assert stages[..8] == stages;
  }

  /** Search, types, experience and locations. */
  method RunCategoryStages(src: array<Job>, stages: seq<Stage<Job>>, ghost input: seq<Job>) returns (filtered: array<Job>)
    requires |stages| == 8 && src[..] == Pipeline(input, stages[..0])
    ensures filtered[..] == Pipeline(input, stages[..4])
    ensures !(stages[0].active || stages[1].active || stages[2].active || stages[3].active) ==> filtered == src
    ensures stages[0].active || stages[1].active || stages[2].active || stages[3].active ==> fresh(filtered)
  {
    filtered := RunStage(src, stages, 0, input);       // search
    ghost var any := stages[0].active;  // some stage so far built a new array
    assert any ==> fresh(filtered);
    assert !any ==> filtered == src;
    filtered := RunStage(filtered, stages, 1, input);  // types
    any := any || stages[1].active;
    assert any ==> fresh(filtered);
    assert !any ==> filtered == src;
    filtered := RunStage(filtered, stages, 2, input);  // experience
    any := any || stages[2].active;
    assert any ==> fresh(filtered);
    assert !any ==> filtered == src;
    filtered := RunStage(filtered, stages, 3, input);  // locations
    any := any || stages[3].active;
    assert any ==> fresh(filtered);
    assert !any ==> filtered == src;
  }

  /** The salary range, then the remote, alumni and urgent toggles. */
  method RunToggleStages(src: array<Job>, stages: seq<Stage<Job>>, ghost input: seq<Job>) returns (filtered: array<Job>)
    requires |stages| == 8 && src[..] == Pipeline(input, stages[..4])
    ensures filtered[..] == Pipeline(input, stages[..8])
    ensures !(stages[4].active || stages[5].active || stages[6].active || stages[7].active) ==> filtered == src
    ensures stages[4].active || stages[5].active || stages[6].active || stages[7].active ==> fresh(filtered)
  {
    filtered := RunStage(src, stages, 4, input);       // salary range
    filtered := RunStage(filtered, stages, 5, input);  // remote only
    filtered := RunStage(filtered, stages, 6, input);  // posted by alumni
    filtered := RunStage(filtered, stages, 7, input);  // urgent only
  }
}
