/**
 * The alumni search side panel: its catalogues, the filter object it hands to
 * the directory, and the panel itself, whose handlers update its selections.
 */
module SearchFilters {
  import opened Options
  import opened Seqs
  import opened Selection

  const Majors: seq<string> := [
    "Computer Science", "Business Administration", "Engineering", "Psychology", "Economics",
    "Biology", "Mathematics", "English", "Political Science", "Art & Design"]
  const GraduationYears: seq<string> :=
    ["2024", "2023", "2022", "2021", "2020", "2019", "2018", "2017", "2016", "2015"]
  const Locations: seq<string> := [
    "San Francisco, CA", "New York, NY", "Los Angeles, CA", "Seattle, WA",
    "Boston, MA", "Chicago, IL", "Austin, TX", "Remote"]
  const Industries: seq<string> := [
    "Technology", "Finance", "Healthcare", "Education", "Consulting",
    "Marketing", "Non-profit", "Government", "Entertainment", "Retail"]

  /**
   * The filter object passed to the directory. Every key may be missing:
   * `None` for a missing value, `false` for a missing toggle.
   */
  datatype AlumniQuery = AlumniQuery(
    searchQuery: Option<string>,
    majors: Option<seq<string>>,
    years: Option<seq<string>>,
    locations: Option<seq<string>>,
    industries: Option<seq<string>>,
    availableForMentoring: bool,
    openToNetworking: bool)

  /** The empty object `{}` emitted by "Clear". */
  const NoFilters: AlumniQuery := AlumniQuery(None, None, None, None, None, false, false)

  /** What "Search" emits from a panel nobody has touched. */
  const UntouchedSearch: AlumniQuery :=
    AlumniQuery(Some(""), Some([]), Some([]), Some([]), Some([]), false, false)

  /** A removable badge under "Active Filters": `kind` says which list `value` came from. */
  datatype ActiveFilter = ActiveFilter(kind: string, value: string, text: string)

  datatype PanelState = PanelState(
    searchQuery: string,
    majors: seq<string>,
    years: seq<string>,
    locations: seq<string>,
    industries: seq<string>,
    availableForMentoring: bool,
    openToNetworking: bool)

  const InitialState: PanelState := PanelState("", [], [], [], [], false, false)

  /** A badge's caption: years read "Class of <year>", every other value reads as itself. */
  function Caption(kind: string, value: string): (r: string)
    ensures kind == "year" ==> r == "Class of " + value
    ensures kind != "year" ==> r == value
  {
    if kind == "year" then "Class of " + value else value
  }

  function Tagged(kind: string, values: seq<string>): (r: seq<ActiveFilter>)
    ensures |r| == |values|
    ensures forall i :: 0 <= i < |r| ==> r[i] == ActiveFilter(kind, values[i], Caption(kind, values[i]))
  {
    if values == [] then []
    else
      var last := values[|values| - 1];
      Tagged(kind, values[..|values| - 1]) + [ActiveFilter(kind, last, Caption(kind, last))]
  }

  /** The badges: majors, then years, locations and industries. */
  function ActiveFiltersOf(st: PanelState): (r: seq<ActiveFilter>)
    ensures |r| == |st.majors| + |st.years| + |st.locations| + |st.industries|
  {
    Tagged("major", st.majors) + Tagged("year", st.years) +
    Tagged("location", st.locations) + Tagged("industry", st.industries)
  }

  lemma TaggedMembers(kind: string, values: seq<string>, a: ActiveFilter)
    ensures a in Tagged(kind, values) <==> a.kind == kind && a.text == Caption(kind, a.value) && a.value in values
  {
    if a.kind == kind && a.text == Caption(kind, a.value) && a.value in values {
      var i :| 0 <= i < |values| && values[i] == a.value;
      assert Tagged(kind, values)[i] == a;
    }
  }

  /** A badge is active exactly when its value is selected in the list its kind names. */
  lemma ActiveFiltersMembers(st: PanelState)
    ensures forall a :: a in ActiveFiltersOf(st) <==>
      a.text == Caption(a.kind, a.value) &&
      ((a.kind == "major" && a.value in st.majors) ||
       (a.kind == "year" && a.value in st.years) ||
       (a.kind == "location" && a.value in st.locations) ||
       (a.kind == "industry" && a.value in st.industries))
  {
    forall a
      ensures a in ActiveFiltersOf(st) <==>
        a.text == Caption(a.kind, a.value) &&
        ((a.kind == "major" && a.value in st.majors) ||
         (a.kind == "year" && a.value in st.years) ||
         (a.kind == "location" && a.value in st.locations) ||
         (a.kind == "industry" && a.value in st.industries))
    {
      TaggedMembers("major", st.majors, a);
      TaggedMembers("year", st.years, a);
      TaggedMembers("location", st.locations, a);
      TaggedMembers("industry", st.industries, a);
    }
  }

  /** What the add handlers maintain: every list is free of duplicates and of "". */
  predicate ValidState(st: PanelState)
  {
    CleanSelection(st.majors) && CleanSelection(st.years) &&
    CleanSelection(st.locations) && CleanSelection(st.industries)
  }

  /**
   * The state after removing the badge (`kind`, `value`): every copy of
   * `value` leaves the list `kind` names; an unknown kind changes nothing.
   */
  function RemovedFrom(st: PanelState, kind: string, value: string): (r: PanelState)
    ensures kind == "major" ==>
      && r.(majors := st.majors) == st
      && IsSubseq(r.majors, st.majors)
      && forall x :: x in r.majors <==> x in st.majors && x != value
    ensures kind == "year" ==>
      && r.(years := st.years) == st
      && IsSubseq(r.years, st.years)
      && forall x :: x in r.years <==> x in st.years && x != value
    ensures kind == "location" ==>
      && r.(locations := st.locations) == st
      && IsSubseq(r.locations, st.locations)
      && forall x :: x in r.locations <==> x in st.locations && x != value
    ensures kind == "industry" ==>
      && r.(industries := st.industries) == st
      && IsSubseq(r.industries, st.industries)
      && forall x :: x in r.industries <==> x in st.industries && x != value
    ensures kind !in {"major", "year", "location", "industry"} ==> r == st
  {
    match kind {
      case "major" => st.(majors := RemoveAll(st.majors, value))
      case "year" => st.(years := RemoveAll(st.years, value))
      case "location" => st.(locations := RemoveAll(st.locations, value))
      case "industry" => st.(industries := RemoveAll(st.industries, value))
      case _ => st
    }
  }

  /** Clicking a badge's "x" removes that badge and no badge of another kind. */
  lemma {:induction false} RemoveFilterDropsBadge(st: PanelState, kind: string, value: string)
    ensures ActiveFilter(kind, value, Caption(kind, value)) !in ActiveFiltersOf(RemovedFrom(st, kind, value))
    ensures forall a :: a in ActiveFiltersOf(st) && a.kind != kind ==> a in ActiveFiltersOf(RemovedFrom(st, kind, value))
  {
    ActiveFiltersMembers(st);
    ActiveFiltersMembers(RemovedFrom(st, kind, value));
  }

  lemma RemoveFilterKeepsValid(st: PanelState, kind: string, value: string)
    requires ValidState(st)
    ensures ValidState(RemovedFrom(st, kind, value))
  {
    RemoveAllKeepsClean(st.majors, value);
    RemoveAllKeepsClean(st.years, value);
    RemoveAllKeepsClean(st.locations, value);
    RemoveAllKeepsClean(st.industries, value);
  }

  class Panel {
    var searchQuery: string
    var selectedMajors: seq<string>
    var selectedYears: seq<string>
    var selectedLocations: seq<string>
    var selectedIndustries: seq<string>
    var availableForMentoring: bool
    var openToNetworking: bool

    function State(): PanelState
      reads this
    {
      PanelState(searchQuery, selectedMajors, selectedYears, selectedLocations,
                 selectedIndustries, availableForMentoring, openToNetworking)
    }

    predicate Valid()
      reads this
    {
      ValidState(State())
    }

    constructor ()
      ensures State() == InitialState && Valid()
    {
      searchQuery := "";
      selectedMajors := [];
      selectedYears := [];
      selectedLocations := [];
      selectedIndustries := [];
      availableForMentoring := false;
      openToNetworking := false;
    }

    method SetSearchQuery(q: string)
      modifies this
      ensures State() == old(State()).(searchQuery := q)
      ensures old(Valid()) ==> Valid()
    {
      searchQuery := q;
    }

    /** A major picked in the dropdown: added once, and only when non-empty. */
    method SelectMajor(value: string)
      modifies this
      ensures State() == old(State()).(majors := AddIfAbsent(old(selectedMajors), value))
      ensures value != "" ==> value in selectedMajors
      ensures old(Valid()) ==> Valid()
    {
      if old(Valid()) {
        AddIfAbsentKeepsClean(selectedMajors, value);
      }
      if value != "" && value !in selectedMajors {
        selectedMajors := selectedMajors + [value];
      }
    }

    method SelectYear(value: string)
      modifies this
      ensures State() == old(State()).(years := AddIfAbsent(old(selectedYears), value))
      ensures value != "" ==> value in selectedYears
      ensures old(Valid()) ==> Valid()
    {
      if old(Valid()) {
        AddIfAbsentKeepsClean(selectedYears, value);
      }
      if value != "" && value !in selectedYears {
        selectedYears := selectedYears + [value];
      }
    }

    method SelectLocation(value: string)
      modifies this
      ensures State() == old(State()).(locations := AddIfAbsent(old(selectedLocations), value))
      ensures value != "" ==> value in selectedLocations
      ensures old(Valid()) ==> Valid()
    {
      if old(Valid()) {
        AddIfAbsentKeepsClean(selectedLocations, value);
      }
      if value != "" && value !in selectedLocations {
        selectedLocations := selectedLocations + [value];
      }
    }

    method SelectIndustry(value: string)
      modifies this
      ensures State() == old(State()).(industries := AddIfAbsent(old(selectedIndustries), value))
      ensures value != "" ==> value in selectedIndustries
      ensures old(Valid()) ==> Valid()
    {
      if old(Valid()) {
        AddIfAbsentKeepsClean(selectedIndustries, value);
      }
      if value != "" && value !in selectedIndustries {
        selectedIndustries := selectedIndustries + [value];
      }
    }

    method SetAvailableForMentoring(b: bool)
      modifies this
      ensures State() == old(State()).(availableForMentoring := b)
      ensures old(Valid()) ==> Valid()
    {
      availableForMentoring := b;
    }

    method SetOpenToNetworking(b: bool)
      modifies this
      ensures State() == old(State()).(openToNetworking := b)
      ensures old(Valid()) ==> Valid()
    {
      openToNetworking := b;
    }

    /** "Search": emits the whole panel state, every key present. The panel is not changed. */
    method HandleSearch() returns (emitted: AlumniQuery)
      ensures emitted.searchQuery == Some(searchQuery)
      ensures emitted.majors == Some(selectedMajors) && emitted.years == Some(selectedYears)
      ensures emitted.locations == Some(selectedLocations) && emitted.industries == Some(selectedIndustries)
      ensures emitted.availableForMentoring == availableForMentoring
      ensures emitted.openToNetworking == openToNetworking
      ensures State() == InitialState ==> emitted == UntouchedSearch
    {
      emitted := AlumniQuery(Some(searchQuery), Some(selectedMajors), Some(selectedYears),
                             Some(selectedLocations), Some(selectedIndustries),
                             availableForMentoring, openToNetworking);
    }

    /** "Clear": back to the initial state, and `{}` is emitted. */
    method ClearFilters() returns (emitted: AlumniQuery)
      modifies this
      ensures State() == InitialState && Valid()
      ensures emitted == NoFilters
    {
      searchQuery := "";
      selectedMajors := [];
      selectedYears := [];
      selectedLocations := [];
      selectedIndustries := [];
      availableForMentoring := false;
      openToNetworking := false;
      emitted := NoFilters;
    }

    /** The "x" on an active-filter badge. Nothing is emitted. */
    method RemoveFilter(kind: string, value: string)
      modifies this
      ensures State() == RemovedFrom(old(State()), kind, value)
      ensures old(Valid()) ==> Valid()
    {
      if Valid() {
        RemoveFilterKeepsValid(State(), kind, value);
      }
      match kind {
        case "major" => selectedMajors := RemoveAll(selectedMajors, value);
        case "year" => selectedYears := RemoveAll(selectedYears, value);
        case "location" => selectedLocations := RemoveAll(selectedLocations, value);
        case "industry" => selectedIndustries := RemoveAll(selectedIndustries, value);
        case _ =>
      }
    }

    function ActiveFilters(): (r: seq<ActiveFilter>)
      reads this
      ensures |r| == |selectedMajors| + |selectedYears| + |selectedLocations| + |selectedIndustries|
    {
      ActiveFiltersOf(State())
    }

    function MajorOptions(): (r: seq<string>)
      reads this
      ensures forall m :: m in r <==> m in Majors && m !in selectedMajors
    {
      Unselected(Majors, selectedMajors)
    }

    function YearOptions(): (r: seq<string>)
      reads this
      ensures forall y :: y in r <==> y in GraduationYears && y !in selectedYears
    {
      Unselected(GraduationYears, selectedYears)
    }

    function LocationOptions(): (r: seq<string>)
      reads this
      ensures forall l :: l in r <==> l in Locations && l !in selectedLocations
    {
      Unselected(Locations, selectedLocations)
    }

    function IndustryOptions(): (r: seq<string>)
      reads this
      ensures forall i :: i in r <==> i in Industries && i !in selectedIndustries
    {
      Unselected(Industries, selectedIndustries)
    }
  }
}
