/**
 * The job search side panel: its catalogues, the filter object it hands to
 * the board, and the panel itself, whose handlers update its selection state.
 */
module JobFilters {
  import opened Options
  import opened Seqs
  import opened Selection

  const JobTypes: seq<string> := ["Full-time", "Part-time", "Contract", "Internship"]
  const ExperienceLevels: seq<string> := ["Entry", "Mid", "Senior", "Executive"]
  const Locations: seq<string> := [
    "San Francisco, CA", "New York, NY", "Los Angeles, CA", "Seattle, WA",
    "Boston, MA", "Chicago, IL", "Austin, TX", "Remote"]
  const Industries: seq<string> := [
    "Technology", "Finance", "Healthcare", "Education", "Consulting",
    "Marketing", "Non-profit", "Government", "Entertainment", "Retail"]

  /** The salary slider's bounds, which are also its initial range. */
  const SalaryFloor: int := 0
  const SalaryCeiling: int := 200000

  datatype SalaryRange = SalaryRange(lo: int, hi: int)

  /**
   * The filter object passed to the board. Every key may be missing: `None`
   * for a missing value, `false` for a missing toggle.
   */
  datatype JobQuery = JobQuery(
    searchQuery: Option<string>,
    types: Option<seq<string>>,
    experience: Option<seq<string>>,
    locations: Option<seq<string>>,
    industries: Option<seq<string>>,
    salaryRange: Option<SalaryRange>,
    remoteOnly: bool,
    alumniPosted: bool,
    urgentOnly: bool)

  /** The empty object `{}` emitted by "Clear". */
  const NoFilters: JobQuery := JobQuery(None, None, None, None, None, None, false, false, false)

  /** What "Search" emits from a panel nobody has touched: every key present, the slider at its full range. */
  const UntouchedSearch: JobQuery :=
    JobQuery(Some(""), Some([]), Some([]), Some([]), Some([]), Some(SalaryRange(SalaryFloor, SalaryCeiling)),
             false, false, false)

  /** A removable badge under "Active Filters": `kind` says which list `value` came from. */
  datatype ActiveFilter = ActiveFilter(kind: string, value: string, text: string)

  /** The panel's state as one value. */
  datatype PanelState = PanelState(
    searchQuery: string,
    types: seq<string>,
    experience: seq<string>,
    locations: seq<string>,
    industries: seq<string>,
    salaryRange: SalaryRange,
    remoteOnly: bool,
    alumniPosted: bool,
    urgentOnly: bool)

  const InitialState: PanelState :=
    PanelState("", [], [], [], [], SalaryRange(SalaryFloor, SalaryCeiling), false, false, false)

  /** One badge per selected value, labelled with the value itself. */
  function Tagged(kind: string, values: seq<string>): (r: seq<ActiveFilter>)
    ensures |r| == |values|
    ensures forall i :: 0 <= i < |r| ==> r[i] == ActiveFilter(kind, values[i], values[i])
  {
    if values == [] then []
    else Tagged(kind, values[..|values| - 1]) + [ActiveFilter(kind, values[|values| - 1], values[|values| - 1])]
  }

  class Panel {
    var searchQuery: string
    var selectedTypes: seq<string>
    var selectedExperience: seq<string>
    var selectedLocations: seq<string>
    var selectedIndustries: seq<string>
    var salaryRange: SalaryRange
    var remoteOnly: bool
    var alumniPosted: bool
    var urgentOnly: bool

    function State(): PanelState
      reads this
    {
      PanelState(searchQuery, selectedTypes, selectedExperience, selectedLocations,
                 selectedIndustries, salaryRange, remoteOnly, alumniPosted, urgentOnly)
    }

    /** What the handlers maintain: no selected list holds a value twice, and none holds "". */
    predicate Valid()
      reads this
    {
      ValidState(State())
    }

    constructor ()
      ensures State() == InitialState
      ensures Valid()
    {
      searchQuery := "";
      selectedTypes := [];
      selectedExperience := [];
      selectedLocations := [];
      selectedIndustries := [];
      salaryRange := SalaryRange(SalaryFloor, SalaryCeiling);
      remoteOnly := false;
      alumniPosted := false;
      urgentOnly := false;
    }

    /** Typing in the search box. */
    method SetSearchQuery(q: string)
      modifies this
      ensures State() == old(State()).(searchQuery := q)
      ensures old(Valid()) ==> Valid()
    {
      searchQuery := q;
    }

    /**
     * A job-type checkbox changed to `checked`: append the type, or drop every
     * copy of it. The box shows `checked` exactly when the type is selected,
     * so it reports `checked` only for an unselected type, which keeps the
     * list free of duplicates.
     */
    method CheckType(t: string, checked: bool)
      modifies this
      ensures checked ==> State() == old(State()).(types := old(selectedTypes) + [t])
      ensures !checked ==> State() == old(State()).(types := RemoveAll(old(selectedTypes), t))
      ensures checked ==> t in selectedTypes
      ensures !checked ==> t !in selectedTypes
      ensures old(Valid()) && (checked ==> t !in old(selectedTypes)) ==> Valid()
    {
      if checked {
        selectedTypes := selectedTypes + [t];
      } else {
        if NoDups(selectedTypes) {
          RemoveAllNoDups(selectedTypes, t);
        }
        selectedTypes := RemoveAll(selectedTypes, t);
      }
    }

    /** An experience-level checkbox changed; the same rule as for job types. */
    method CheckExperience(level: string, checked: bool)
      modifies this
      ensures checked ==> State() == old(State()).(experience := old(selectedExperience) + [level])
      ensures !checked ==> State() == old(State()).(experience := RemoveAll(old(selectedExperience), level))
      ensures checked ==> level in selectedExperience
      ensures !checked ==> level !in selectedExperience
      ensures old(Valid()) && (checked ==> level !in old(selectedExperience)) ==> Valid()
    {
      if checked {
        selectedExperience := selectedExperience + [level];
      } else {
        if NoDups(selectedExperience) {
          RemoveAllNoDups(selectedExperience, level);
        }
        selectedExperience := RemoveAll(selectedExperience, level);
      }
    }

    /** A location picked in the dropdown: added once, and only when non-empty. */
    method SelectLocation(value: string)
      modifies this
      ensures State() == old(State()).(locations := AddIfAbsent(old(selectedLocations), value))
      ensures value != "" ==> value in selectedLocations
      ensures old(Valid()) ==> Valid()
    {
      if old(Valid()) {
        AddIfAbsentKeepsClean(selectedLocations, value);
      }
      if value != "" && value !in selectedLocations {
        selectedLocations := selectedLocations + [value];
      }
    }

    /** An industry picked in the dropdown: added once, and only when non-empty. */
    method SelectIndustry(value: string)
      modifies this
      ensures State() == old(State()).(industries := AddIfAbsent(old(selectedIndustries), value))
      ensures value != "" ==> value in selectedIndustries
      ensures old(Valid()) ==> Valid()
    {
      if old(Valid()) {
        AddIfAbsentKeepsClean(selectedIndustries, value);
      }
      if value != "" && value !in selectedIndustries {
        selectedIndustries := selectedIndustries + [value];
      }
    }

    /** The salary slider moved. */
    method SetSalaryRange(r: SalaryRange)
      modifies this
      ensures State() == old(State()).(salaryRange := r)
      ensures old(Valid()) ==> Valid()
    {
      salaryRange := r;
    }

    method SetRemoteOnly(b: bool)
      modifies this
      ensures State() == old(State()).(remoteOnly := b)
      ensures old(Valid()) ==> Valid()
    {
      remoteOnly := b;
    }

    method SetAlumniPosted(b: bool)
      modifies this
      ensures State() == old(State()).(alumniPosted := b)
      ensures old(Valid()) ==> Valid()
    {
      alumniPosted := b;
    }

    method SetUrgentOnly(b: bool)
      modifies this
      ensures State() == old(State()).(urgentOnly := b)
      ensures old(Valid()) ==> Valid()
    {
      urgentOnly := b;
    }

    /**
     * "Search": emits the whole panel state, every key present, industries
     * included (the board ignores them). The panel itself is not changed.
     */
    method HandleSearch() returns (emitted: JobQuery)
      ensures emitted.searchQuery == Some(searchQuery)
      ensures emitted.types == Some(selectedTypes) && emitted.experience == Some(selectedExperience)
      ensures emitted.locations == Some(selectedLocations) && emitted.industries == Some(selectedIndustries)
      ensures emitted.salaryRange == Some(salaryRange)
      ensures emitted.remoteOnly == remoteOnly && emitted.alumniPosted == alumniPosted
      ensures emitted.urgentOnly == urgentOnly
      ensures State() == InitialState ==> emitted == UntouchedSearch
    {
      emitted := JobQuery(Some(searchQuery), Some(selectedTypes), Some(selectedExperience),
                          Some(selectedLocations), Some(selectedIndustries), Some(salaryRange),
                          remoteOnly, alumniPosted, urgentOnly);
    }

    /** "Clear": back to the initial state, and `{}` is emitted. */
    method ClearFilters() returns (emitted: JobQuery)
      modifies this
      ensures State() == InitialState && Valid()
      ensures emitted == NoFilters
    {
      searchQuery := "";
      selectedTypes := [];
      selectedExperience := [];
      selectedLocations := [];
      selectedIndustries := [];
      salaryRange := SalaryRange(SalaryFloor, SalaryCeiling);
      remoteOnly := false;
      alumniPosted := false;
      urgentOnly := false;
      emitted := NoFilters;
    }

    /**
     * The "x" on an active-filter badge: drops `value` from the list `kind`
     * names. Nothing is emitted.
     */
    method RemoveFilter(kind: string, value: string)
      modifies this
      ensures State() == RemovedFrom(old(State()), kind, value)
      ensures old(Valid()) ==> Valid()
    {
      if Valid() {
        RemoveFilterKeepsValid(State(), kind, value);
      }
      match kind {
        case "type" => selectedTypes := RemoveAll(selectedTypes, value);
        case "experience" => selectedExperience := RemoveAll(selectedExperience, value);
        case "location" => selectedLocations := RemoveAll(selectedLocations, value);
        case "industry" => selectedIndustries := RemoveAll(selectedIndustries, value);
        case _ =>
      }
    }

    /** The badges under "Active Filters": types, then experience, locations and industries. */
    function ActiveFilters(): (r: seq<ActiveFilter>)
      reads this
      ensures |r| == |selectedTypes| + |selectedExperience| + |selectedLocations| + |selectedIndustries|
    {
      ActiveFiltersOf(State())
    }

    /** The location dropdown's options. */
    function LocationOptions(): (r: seq<string>)
      reads this
      ensures forall l :: l in r <==> l in Locations && l !in selectedLocations
    {
      Unselected(Locations, selectedLocations)
    }

    /** The industry dropdown's options. */
    function IndustryOptions(): (r: seq<string>)
      reads this
      ensures forall i :: i in r <==> i in Industries && i !in selectedIndustries
    {
      Unselected(Industries, selectedIndustries)
    }
  }

  predicate ValidState(st: PanelState)
  {
    NoDups(st.types) && NoDups(st.experience) &&
    CleanSelection(st.locations) && CleanSelection(st.industries)
  }

  /**
   * The state after removing the badge (`kind`, `value`): every copy of
   * `value` leaves the list `kind` names; an unknown kind changes nothing.
   */
  function RemovedFrom(st: PanelState, kind: string, value: string): (r: PanelState)
    ensures kind == "type" ==>
      && r.(types := st.types) == st
      && IsSubseq(r.types, st.types)
      && forall x :: x in r.types <==> x in st.types && x != value
    ensures kind == "experience" ==>
      && r.(experience := st.experience) == st
      && IsSubseq(r.experience, st.experience)
      && forall x :: x in r.experience <==> x in st.experience && x != value
    ensures kind == "location" ==>
      && r.(locations := st.locations) == st
      && IsSubseq(r.locations, st.locations)
      && forall x :: x in r.locations <==> x in st.locations && x != value
    ensures kind == "industry" ==>
      && r.(industries := st.industries) == st
      && IsSubseq(r.industries, st.industries)
      && forall x :: x in r.industries <==> x in st.industries && x != value
    ensures kind !in {"type", "experience", "location", "industry"} ==> r == st
  {
    match kind {
      case "type" => st.(types := RemoveAll(st.types, value))
      case "experience" => st.(experience := RemoveAll(st.experience, value))
      case "location" => st.(locations := RemoveAll(st.locations, value))
      case "industry" => st.(industries := RemoveAll(st.industries, value))
      case _ => st
    }
  }

  /** Clicking a badge's "x" removes that badge and no badge of another kind. */
  lemma {:induction false} RemoveFilterDropsBadge(st: PanelState, kind: string, value: string)
    ensures ActiveFilter(kind, value, value) !in ActiveFiltersOf(RemovedFrom(st, kind, value))
    ensures forall a :: a in ActiveFiltersOf(st) && a.kind != kind ==> a in ActiveFiltersOf(RemovedFrom(st, kind, value))
  {
    ActiveFiltersMembers(st);
    ActiveFiltersMembers(RemovedFrom(st, kind, value));
  }

  lemma RemoveFilterKeepsValid(st: PanelState, kind: string, value: string)
    requires ValidState(st)
    ensures ValidState(RemovedFrom(st, kind, value))
  {
    RemoveAllNoDups(st.types, value);
    RemoveAllNoDups(st.experience, value);
    RemoveAllKeepsClean(st.locations, value);
    RemoveAllKeepsClean(st.industries, value);
  }

  function ActiveFiltersOf(st: PanelState): seq<ActiveFilter>
  {
    Tagged("type", st.types) + Tagged("experience", st.experience) +
    Tagged("location", st.locations) + Tagged("industry", st.industries)
  }

  /** A badge is active exactly when its value is selected in the list its kind names. */
  lemma ActiveFiltersMembers(st: PanelState)
    ensures forall a :: a in ActiveFiltersOf(st) <==>
      a.text == a.value &&
      ((a.kind == "type" && a.value in st.types) ||
       (a.kind == "experience" && a.value in st.experience) ||
       (a.kind == "location" && a.value in st.locations) ||
       (a.kind == "industry" && a.value in st.industries))
  {
    forall a
      ensures a in ActiveFiltersOf(st) <==>
        a.text == a.value &&
        ((a.kind == "type" && a.value in st.types) ||
         (a.kind == "experience" && a.value in st.experience) ||
         (a.kind == "location" && a.value in st.locations) ||
         (a.kind == "industry" && a.value in st.industries))
    {
      TaggedMembers("type", st.types, a);
      TaggedMembers("experience", st.experience, a);
      TaggedMembers("location", st.locations, a);
      TaggedMembers("industry", st.industries, a);
    }
  }

  lemma TaggedMembers(kind: string, values: seq<string>, a: ActiveFilter)
    ensures a in Tagged(kind, values) <==> a.kind == kind && a.text == a.value && a.value in values
  {
    if a.kind == kind && a.text == a.value && a.value in values {
      var i :| 0 <= i < |values| && values[i] == a.value;
      assert Tagged(kind, values)[i] == a;
    }
  }
}
