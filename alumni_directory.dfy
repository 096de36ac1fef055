/**
 * The alumni directory: the shared mock alumni list, the filter stages applied
 * to it in order, the sort keys, and the memoised computation that runs them,
 * sorting in place the shared array itself when no stage was active.
 */
module AlumniDirectory {
  import opened Options
  import opened Seqs
  import opened Text
  import opened Sorting
  import opened SearchFilters

  /** An alumni profile; the graduation year is kept as the string the data holds. */
  datatype Alumnus = Alumnus(
    id: string,
    name: string,
    graduationYear: string,
    major: string,
    currentRole: string,
    company: string,
    location: string,
    bio: string,
    skills: seq<string>,
    interests: seq<string>,
    avatar: Option<string>,
    isAvailableForMentoring: bool,
    isOpenToNetworking: bool)

  const MockAlumni: seq<Alumnus> := [
    Alumnus("1", "Sarah Johnson", "2018", "Computer Science", "Senior Software Engineer", "Google",
            "San Francisco, CA",
            "Passionate about AI/ML and building scalable systems. Love mentoring junior developers.",
            ["Python", "Machine Learning", "React", "AWS", "Leadership"],
            ["AI/ML", "Startups", "Mentoring", "Rock Climbing"],
            Some("/professional-woman-diverse.png"), true, true),
    Alumnus("2", "Michael Chen", "2019", "Business Administration", "Product Manager", "Meta",
            "Menlo Park, CA",
            "Product leader focused on user experience and growth. Former startup founder.",
            ["Product Strategy", "Data Analysis", "User Research", "SQL", "A/B Testing"],
            ["Product Design", "Entrepreneurship", "Travel", "Photography"],
            Some("/professional-man.png"), false, true),
    Alumnus("3", "Dr. Emily Rodriguez", "2015", "Biology", "Research Scientist", "Genentech",
            "South San Francisco, CA",
            "Biotech researcher working on cancer therapeutics. PhD in Molecular Biology.",
            ["Research", "Data Analysis", "Python", "R", "Scientific Writing"],
            ["Biotech", "Healthcare", "Science Communication", "Hiking"],
            Some("/professional-woman-dean.jpg"), true, false),
    Alumnus("4", "David Kim", "2020", "Economics", "Investment Analyst", "Goldman Sachs",
            "New York, NY",
            "Finance professional specializing in tech investments. CFA charterholder.",
            ["Financial Modeling", "Valuation", "Excel", "Bloomberg", "Research"],
            ["Finance", "Technology", "Basketball", "Cooking"],
            None, true, true),
    Alumnus("5", "Lisa Wang", "2017", "Psychology", "UX Designer", "Airbnb",
            "San Francisco, CA",
            "UX designer passionate about creating inclusive and accessible experiences.",
            ["UX Design", "User Research", "Figma", "Prototyping", "Design Systems"],
            ["Design", "Accessibility", "Travel", "Art"],
            None, true, true),
    Alumnus("6", "James Thompson", "2016", "Engineering", "Engineering Manager", "Tesla",
            "Austin, TX",
            "Engineering leader focused on sustainable technology and team development.",
            ["Engineering Management", "Python", "Mechanical Engineering", "Leadership"],
            ["Sustainability", "Electric Vehicles", "Team Building", "Golf"],
            None, true, true)
  ]

  // ---------------------------------------------------------------- stages

  /**
   * The lower-cased name, company, current role, some skill or some interest
   * contains `query`; major, bio and location are not searched.
   */
  predicate MatchesSearch(a: Alumnus, query: string)
  {
    || Contains(Lower(a.name), query)
    || Contains(Lower(a.company), query)
    || Contains(Lower(a.currentRole), query)
    || (exists i :: 0 <= i < |a.skills| && Contains(Lower(a.skills[i]), query))
    || (exists i :: 0 <= i < |a.interests| && Contains(Lower(a.interests[i]), query))
  }

  predicate NonEmpty(l: Option<seq<string>>)
  {
    l.Some? && |l.value| > 0
  }

  function SearchStage(f: AlumniQuery): Stage<Alumnus>
  {
    var query := Lower(f.searchQuery.GetOr(""));
    Stage(f.searchQuery.GetOr("") != "", (a: Alumnus) => MatchesSearch(a, query))
  }

  function MajorStage(f: AlumniQuery): Stage<Alumnus>
  {
    Stage(NonEmpty(f.majors), (a: Alumnus) => a.major in f.majors.GetOr([]))
  }

  /** Years are compared as strings. */
  function YearStage(f: AlumniQuery): Stage<Alumnus>
  {
    Stage(NonEmpty(f.years), (a: Alumnus) => a.graduationYear in f.years.GetOr([]))
  }

  function LocationStage(f: AlumniQuery): Stage<Alumnus>
  {
    Stage(NonEmpty(f.locations), (a: Alumnus) => a.location in f.locations.GetOr([]))
  }

  function MentoringStage(f: AlumniQuery): Stage<Alumnus>
  {
    Stage(f.availableForMentoring, (a: Alumnus) => a.isAvailableForMentoring)
  }

  function NetworkingStage(f: AlumniQuery): Stage<Alumnus>
  {
    Stage(f.openToNetworking, (a: Alumnus) => a.isOpenToNetworking)
  }

  /** The stages in the order the directory applies them; industries have none. */
  function Stages(f: AlumniQuery): seq<Stage<Alumnus>>
  {
    [SearchStage(f), MajorStage(f), YearStage(f), LocationStage(f), MentoringStage(f), NetworkingStage(f)]
  }

  lemma StagesActivity(f: AlumniQuery)
    ensures Stages(f)[0].active == (f.searchQuery.GetOr("") != "")
    ensures Stages(f)[1].active == NonEmpty(f.majors)
    ensures Stages(f)[2].active == NonEmpty(f.years)
    ensures Stages(f)[3].active == NonEmpty(f.locations)
    ensures Stages(f)[4].active == f.availableForMentoring
    ensures Stages(f)[5].active == f.openToNetworking
  {
  }

  predicate AnyStageActive(f: AlumniQuery)
  {
    f.searchQuery.GetOr("") != "" || NonEmpty(f.majors) || NonEmpty(f.years) ||
    NonEmpty(f.locations) || f.availableForMentoring || f.openToNetworking
  }

  /** A profile survives the stages: one clause per filter key, joined by AND. */
  predicate Matches(f: AlumniQuery, a: Alumnus)
  {
    && (f.searchQuery.GetOr("") != "" ==> MatchesSearch(a, Lower(f.searchQuery.value)))
    && (NonEmpty(f.majors) ==> a.major in f.majors.value)
    && (NonEmpty(f.years) ==> a.graduationYear in f.years.value)
    && (NonEmpty(f.locations) ==> a.location in f.locations.value)
    && (f.availableForMentoring ==> a.isAvailableForMentoring)
    && (f.openToNetworking ==> a.isOpenToNetworking)
  }

  function Matcher(f: AlumniQuery): Alumnus -> bool
  {
    a => Matches(f, a)
  }

  lemma StagesAreMatches(f: AlumniQuery, a: Alumnus)
    ensures PassesAll(Stages(f), a) == Matches(f, a)
  {
    var st := Stages(f);
    assert st[0] == SearchStage(f) && st[1] == MajorStage(f) && st[2] == YearStage(f);
    assert st[3] == LocationStage(f) && st[4] == MentoringStage(f) && st[5] == NetworkingStage(f);
  }

  function FilterAlumni(records: seq<Alumnus>, f: AlumniQuery): seq<Alumnus>
  {
    Pipeline(records, Stages(f))
  }

  lemma FilterAlumniIsFilter(records: seq<Alumnus>, f: AlumniQuery)
    ensures FilterAlumni(records, f) == Filter(records, Matcher(f))
  {
    forall a | a in records
      ensures Matcher(f)(a) == PassesAll(Stages(f), a)
    {
      StagesAreMatches(f, a);
    }
    PipelineIsFilter(records, Stages(f), Matcher(f));
  }

  // ---------------------------------------------------------------- sort

  /** `parseInt(b) - parseInt(a)`: newest first; a NaN difference counts as 0, as the sort reads it. */
  function YearDifference(a: Alumnus, b: Alumnus): int
  {
    match (ParseInt(a.graduationYear), ParseInt(b.graduationYear)) {
      case (Some(ya), Some(yb)) => yb as int - ya as int
      case _ => 0
    }
  }

  /** The comparator for each sort key; any other key compares every pair as equal. */
  function AlumniCompare(sortBy: string, a: Alumnus, b: Alumnus): int
  {
    match sortBy {
      case "name" => Compare(a.name, b.name)
      case "year" => YearDifference(a, b)
      case "company" => Compare(a.company, b.company)
      case _ => 0
    }
  }

  function AlumniOrder(sortBy: string): (Alumnus, Alumnus) -> int
  {
    (a, b) => AlumniCompare(sortBy, a, b)
  }

  /** The parsed graduation year, where it parses. */
  function Year(a: Alumnus): int
  {
    ParseInt(a.graduationYear).GetOr(0)
  }

  /** Every year in `u` is a number. */
  predicate YearsParse(u: seq<Alumnus>)
  {
    forall a :: a in u ==> ParseInt(a.graduationYear).Some?
  }

  /** A comparator that compares one text field of each side is consistent. */
  lemma {:induction false} FieldOrderConsistent(cmp: (Alumnus, Alumnus) -> int, field: Alumnus -> string, u: seq<Alumnus>)
    requires forall a, b :: cmp(a, b) == Compare(field(a), field(b))
    ensures ConsistentOn(cmp, u)
  {
    forall a, b | Pair(a, b) && a in u && b in u
      ensures Sign(cmp(a, b)) == -Sign(cmp(b, a))
    {
      CompareAntisymmetric(field(a), field(b));
    }
    forall a, b, c | Triple(a, b, c) && a in u && b in u && c in u && cmp(a, b) <= 0 && cmp(b, c) <= 0
      ensures cmp(a, c) <= 0
    {
      CompareTransitive(field(a), field(b), field(c));
    }
  }

  /** Each key is a consistent order; for "year", once every year parses. */
  lemma AlumniOrderConsistent(sortBy: string, u: seq<Alumnus>)
    requires sortBy == "year" ==> YearsParse(u)
    ensures ConsistentOn(AlumniOrder(sortBy), u)
  {
    var cmp := AlumniOrder(sortBy);
    match sortBy {
      case "name" =>
        FieldOrderConsistent(cmp, (a: Alumnus) => a.name, u);
      case "company" =>
        FieldOrderConsistent(cmp, (a: Alumnus) => a.company, u);
      case "year" =>
        var key := (a: Alumnus) => -Year(a);
        forall a, b | a in u && b in u ensures cmp(a, b) == key(a) - key(b) {
          YearDifferenceParsed(a, b);
        }
        KeyOrderConsistent(cmp, key, u);
      case _ =>
        KeyOrderConsistent(cmp, (a: Alumnus) => 0, u);
    }
  }

  /** What the directory shows: the surviving profiles, stably sorted by the key. */
  function QueryAlumni(records: seq<Alumnus>, f: AlumniQuery, sortBy: string): (r: seq<Alumnus>)
    ensures |r| <= |records|
  {
    Sort(FilterAlumni(records, f), AlumniOrder(sortBy))
  }

  // ---------------------------------------------------------------- properties

  /** The result is a permutation of the matching profiles, drawn from the records. */
  lemma {:induction false} QueryMembers(records: seq<Alumnus>, f: AlumniQuery, sortBy: string)
    ensures multiset(QueryAlumni(records, f, sortBy)) == multiset(Filter(records, Matcher(f)))
    ensures multiset(QueryAlumni(records, f, sortBy)) <= multiset(records)
    ensures forall a :: a in QueryAlumni(records, f, sortBy) <==> a in records && Matches(f, a)
  {
    FilterAlumniIsFilter(records, f);
    var kept := Filter(records, Matcher(f));
    SortMembers(kept, AlumniOrder(sortBy));
    FilterMembers(records, Matcher(f));
    forall a ensures a in kept <==> a in records && Matches(f, a) {
      if a in records && Matches(f, a) {
        var i :| 0 <= i < |records| && records[i] == a;
      }
    }
  }

  /** With `{}` no stage is active and the list reaches the sort unchanged. */
  lemma NoFiltersKeepsAll(records: seq<Alumnus>)
    ensures FilterAlumni(records, NoFilters) == records
  {
    FilterAlumniIsFilter(records, NoFilters);
    FilterAll(records, Matcher(NoFilters));
  }

  /** With `{}` every profile is shown once. */
  lemma ClearedShowsAll(records: seq<Alumnus>, sortBy: string)
    ensures multiset(QueryAlumni(records, NoFilters, sortBy)) == multiset(records)
  {
    FilterAlumniIsFilter(records, NoFilters);
    FilterAll(records, Matcher(NoFilters));
  }

  /** "Search" on an untouched panel activates no stage, so it shows exactly what `{}` shows. */
  lemma UntouchedSearchIsClear(records: seq<Alumnus>, sortBy: string)
    ensures QueryAlumni(records, UntouchedSearch, sortBy) == QueryAlumni(records, NoFilters, sortBy)
  {
    FilterAlumniIsFilter(records, NoFilters);
    FilterAlumniIsFilter(records, UntouchedSearch);
    FilterExt(records, Matcher(UntouchedSearch), Matcher(NoFilters));
  }

  /** "name" and "company" order the shown profiles ascending by that field. */
  lemma {:induction false} QuerySorted(records: seq<Alumnus>, f: AlumniQuery, sortBy: string)
    ensures var r := QueryAlumni(records, f, sortBy);
      forall i, j :: 0 <= i < j < |r| ==>
        && (sortBy == "name" ==> Compare(r[i].name, r[j].name) <= 0)
        && (sortBy == "company" ==> Compare(r[i].company, r[j].company) <= 0)
  {
    var kept := FilterAlumni(records, f);
    if sortBy != "year" {
      AlumniOrderConsistent(sortBy, kept);
      SortSorted(kept, AlumniOrder(sortBy));
    }
  }

  /** "year" shows the newest class first, provided every year is a number. */
  lemma {:induction false} QuerySortedByYear(records: seq<Alumnus>, f: AlumniQuery)
    requires YearsParse(records)
    ensures var r := QueryAlumni(records, f, "year");
      forall i, j :: 0 <= i < j < |r| ==> Year(r[i]) >= Year(r[j])
  {
    var kept := FilterAlumni(records, f);
    var r := QueryAlumni(records, f, "year");
    FilterAlumniIsFilter(records, f);
    YearsParseSub(records, kept);
    YearsParseSub(kept, r);
    AlumniOrderConsistent("year", kept);
    SortSorted(kept, AlumniOrder("year"));
    SortedByYear(r);
  }

  lemma SortedByYear(r: seq<Alumnus>)
    requires YearsParse(r) && SortedBy(r, AlumniOrder("year"))
    ensures forall i, j :: 0 <= i < j < |r| ==> Year(r[i]) >= Year(r[j])
  {
    forall i, j | 0 <= i < j < |r| ensures Year(r[i]) >= Year(r[j]) {
      assert r[i] in r && r[j] in r;
      YearDifferenceParsed(r[i], r[j]);
      assert AlumniOrder("year")(r[i], r[j]) <= 0;
    }
  }

  lemma YearsParseSub(s: seq<Alumnus>, t: seq<Alumnus>)
    requires YearsParse(s) && multiset(t) <= multiset(s)
    ensures YearsParse(t)
  {
    forall a | a in t ensures ParseInt(a.graduationYear).Some? {
      assert multiset(t)[a] > 0;
    }
  }

  lemma YearDifferenceParsed(a: Alumnus, b: Alumnus)
    requires ParseInt(a.graduationYear).Some? && ParseInt(b.graduationYear).Some?
    ensures YearDifference(a, b) == Year(b) - Year(a)
  {
  }

  /** Profiles the key cannot tell apart keep the relative order the stages left them in. */
  lemma QueryStable(records: seq<Alumnus>, f: AlumniQuery, sortBy: string, x: Alumnus)
    requires x in FilterAlumni(records, f)
    requires sortBy == "year" ==> YearsParse(FilterAlumni(records, f))
    ensures Filter(QueryAlumni(records, f, sortBy), TiesWith(AlumniOrder(sortBy), x))
         == Filter(FilterAlumni(records, f), TiesWith(AlumniOrder(sortBy), x))
  {
    AlumniOrderConsistent(sortBy, FilterAlumni(records, f));
    SortStable(FilterAlumni(records, f), AlumniOrder(sortBy), x);
  }

  /** A key the directory does not know leaves the filtered order untouched. */
  lemma UnknownKeyKeepsOrder(records: seq<Alumnus>, f: AlumniQuery, sortBy: string)
    requires sortBy !in {"name", "year", "company"}
    ensures QueryAlumni(records, f, sortBy) == FilterAlumni(records, f)
  {
    SortByZero(FilterAlumni(records, f), AlumniOrder(sortBy));
  }

  /** The industries the panel sends have no effect on the result. */
  lemma IndustriesIgnored(records: seq<Alumnus>, f: AlumniQuery, industries: Option<seq<string>>, sortBy: string)
    ensures QueryAlumni(records, f.(industries := industries), sortBy) == QueryAlumni(records, f, sortBy)
  {
    var g := f.(industries := industries);
    FilterAlumniIsFilter(records, f);
    FilterAlumniIsFilter(records, g);
    FilterExt(records, Matcher(g), Matcher(f));
  }

  // ---------------------------------------------------------------- two-record examples

  /** A profile with only the fields the examples below look at. */
  function Profile(name: string, year: string, major: string, company: string): Alumnus
  {
    Alumnus("", name, year, major, "", company, "", "", [], [], None, false, false)
  }

  const Sarah: Alumnus := Profile("Sarah Johnson", "2018", "Computer Science", "Google")
  const Michael: Alumnus := Profile("Michael Chen", "2019", "Business", "Meta")

  /** Filtering on one major keeps only the profile with that major. */
  lemma MajorExample()
    ensures QueryAlumni([Sarah, Michael], NoFilters.(majors := Some(["Computer Science"])), "name") == [Sarah]
  {
    var f := NoFilters.(majors := Some(["Computer Science"]));
    assert Matches(f, Sarah) && !Matches(f, Michael);
    FilterAlumniIsFilter([Sarah, Michael], f);
    FilterTwo(Sarah, Michael, Matcher(f));
    SortOne(Sarah, AlumniOrder("name"));
  }

  /** Searching "goo" finds the profile at Google and not the one at Meta. */
  lemma SearchExample()
    ensures QueryAlumni([Sarah, Michael], NoFilters.(searchQuery := Some("goo")), "name") == [Sarah]
  {
    var f := NoFilters.(searchQuery := Some("goo"));
    GooQuery(f);
    FilterAlumniIsFilter([Sarah, Michael], f);
    FilterTwo(Sarah, Michael, Matcher(f));
    SortOne(Sarah, AlumniOrder("name"));
  }

  lemma GooQuery(f: AlumniQuery)
    requires f == NoFilters.(searchQuery := Some("goo"))
    ensures Matches(f, Sarah) && !Matches(f, Michael)
  {
    assert Lower(f.searchQuery.value) == "goo" by {
      assert Lower("goo") == "goo";
    }
    assert Matches(f, Sarah) by {
      GooInSarah();
    }
    assert !Matches(f, Michael) by {
      NoGInMichael();
    }
  }

  lemma GooInSarah()
    ensures MatchesSearch(Sarah, "goo")
  {
    assert Lower("Google")[..3] == "goo";
  }

  lemma NoGInMichael()
    ensures !MatchesSearch(Michael, "goo")
  {
    assert 'g' !in Michael.name && 'G' !in Michael.name;
    assert 'g' !in Michael.company && 'G' !in Michael.company;
    SearchNeedsFirstLetter(Michael, "goo");
  }

  /** A query starting with a letter matches only a profile whose searched text has that letter. */
  lemma SearchNeedsFirstLetter(a: Alumnus, query: string)
    requires |query| > 0 && 'a' <= query[0] <= 'z'
    requires var c := query[0]; var cap := (query[0] as int - 32) as char;
      c !in a.name && cap !in a.name && c !in a.company && cap !in a.company &&
      c !in a.currentRole && cap !in a.currentRole &&
      (forall t :: t in a.skills ==> c !in t && cap !in t) &&
      (forall t :: t in a.interests ==> c !in t && cap !in t)
    ensures !MatchesSearch(a, query)
  {
    var c := query[0];
    LowerLacks(a.name, c);
    LowerLacks(a.company, c);
    LowerLacks(a.currentRole, c);
    if Contains(Lower(a.name), query) {
      ContainsNeedsFirstChar(Lower(a.name), query);
    }
    if Contains(Lower(a.company), query) {
      ContainsNeedsFirstChar(Lower(a.company), query);
    }
    if Contains(Lower(a.currentRole), query) {
      ContainsNeedsFirstChar(Lower(a.currentRole), query);
    }
    forall i | 0 <= i < |a.skills| ensures !Contains(Lower(a.skills[i]), query) {
      LacksFirstLetter(a.skills[i], query);
    }
    forall i | 0 <= i < |a.interests| ensures !Contains(Lower(a.interests[i]), query) {
      LacksFirstLetter(a.interests[i], query);
    }
  }

  /** A text holding neither case of the query's first letter does not contain the lower-cased query. */
  lemma LacksFirstLetter(t: string, query: string)
    requires |query| > 0 && 'a' <= query[0] <= 'z'
    requires query[0] !in t && (query[0] as int - 32) as char !in t
    ensures !Contains(Lower(t), query)
  {
    LowerLacks(t, query[0]);
    if Contains(Lower(t), query) {
      ContainsNeedsFirstChar(Lower(t), query);
    }
  }

  /** Sorting by year puts the class of 2019 before the class of 2018. */
  lemma YearExample()
    ensures QueryAlumni([Sarah, Michael], NoFilters, "year") == [Michael, Sarah]
  {
    NoFiltersKeepsAll([Sarah, Michael]);
    YearsOfExamples();
    assert AlumniOrder("year")(Sarah, Michael) == 1;
    SortTwo(Sarah, Michael, AlumniOrder("year"));
  }

  lemma YearsOfExamples()
    ensures ParseInt(Sarah.graduationYear) == Some(2018)
    ensures ParseInt(Michael.graduationYear) == Some(2019)
  {
    ParseClassOf201('8');
    ParseClassOf201('9');
    assert "201" + ['8'] == "2018" && "201" + ['9'] == "2019";
  }

  lemma ParseClassOf201(d: char)
    requires '0' <= d <= '9'
    ensures ParseInt("201" + [d]) == Some(2010 + (d as int - '0' as int))
  {
    var s := "201" + [d];
    assert s[..3] == "201";
    assert "201"[..2] == "20" && "20"[..1] == "2" && "2"[..0] == "";
    ParseAllDigits(s);
  }

  /** Re-sorting the shown list by the same key changes nothing. */
  lemma QueryResortable(records: seq<Alumnus>, f: AlumniQuery, sortBy: string)
    requires sortBy == "year" ==> YearsParse(FilterAlumni(records, f))
    ensures Sort(QueryAlumni(records, f, sortBy), AlumniOrder(sortBy)) == QueryAlumni(records, f, sortBy)
  {
    AlumniOrderConsistent(sortBy, FilterAlumni(records, f));
    SortIdempotent(FilterAlumni(records, f), AlumniOrder(sortBy));
  }

  /** Two members of the same class, listed with Bob before Ann. */
  const Bob: Alumnus := Profile("Bob", "2018", "Biology", "Acme")
  const Ann: Alumnus := Profile("Ann", "2018", "Biology", "Acme")

  /**
   * The sort of the shared array is visible in later renders: after a
   * render by name with `{}`, the array holds [Ann, Bob], and a render by
   * year (a tie) keeps that order, where a render by year from the seed
   * order gives [Bob, Ann].
   */
  lemma SharedSortChangesTies()
    ensures QueryAlumni([Bob, Ann], NoFilters, "name") == [Ann, Bob]
    ensures QueryAlumni([Ann, Bob], NoFilters, "year") == [Ann, Bob]
    ensures QueryAlumni([Bob, Ann], NoFilters, "year") == [Bob, Ann]
  {
    NoFiltersKeepsAll([Bob, Ann]);
    NoFiltersKeepsAll([Ann, Bob]);
    assert AlumniOrder("name")(Bob, Ann) == 1;
    SortTwo(Bob, Ann, AlumniOrder("name"));
    assert AlumniOrder("year")(Ann, Bob) == 0;
    SortTwo(Ann, Bob, AlumniOrder("year"));
    assert AlumniOrder("year")(Bob, Ann) == 0;
    SortTwo(Bob, Ann, AlumniOrder("year"));
  }

  // ---------------------------------------------------------------- the directory

  class Directory {
    /**
     * The module-level mock array. It outlives a mount, so a new directory
     * receives it in whatever order an earlier mount's sort left it.
     */
    const alumni: array<Alumnus>
    var sortBy: string
    var filters: AlumniQuery

    constructor (shared: array<Alumnus>)
      requires multiset(shared[..]) == multiset(MockAlumni)
      ensures alumni == shared
      ensures sortBy == "name" && filters == NoFilters
    {
      alumni := shared;
      sortBy := "name";
      filters := NoFilters;
    }

    method SetSortBy(key: string)
      modifies this
      ensures sortBy == key && filters == old(filters)
    {
      sortBy := key;
    }

    method SetFilters(f: AlumniQuery)
      modifies this
      ensures filters == f && sortBy == old(sortBy)
    {
      filters := f;
    }

    /**
     * The memoised list: each active stage replaces the list by a filtered
     * copy, then the list is sorted in place. With no active stage that list
     * is the shared array, which is then left sorted.
     */
    method FilteredAndSortedAlumni() returns (visible: array<Alumnus>)
      modifies alumni
      ensures visible[..] == QueryAlumni(old(alumni[..]), filters, sortBy)
      ensures !AnyStageActive(filters) ==> visible == alumni
      ensures AnyStageActive(filters) ==> fresh(visible) && alumni[..] == old(alumni[..])
    {
      var filtered := ApplyStages(alumni, filters);
      SortInPlace(filtered, AlumniOrder(sortBy));
      visible := filtered;
    }

    /**
     * The same list computed on a copy, so the shared array is never
     * reordered and each render depends only on the seed data, the filters
     * and the key.
     */
    method SortedCopyOfAlumni() returns (visible: array<Alumnus>)
      ensures fresh(visible)
      ensures visible[..] == QueryAlumni(alumni[..], filters, sortBy)
    {
      var filtered := ApplyStages(alumni, filters);
      visible := CopyOf(filtered);
      SortInPlace(visible, AlumniOrder(sortBy));
    }
  }

  /** The stages in source order, each replacing the list when it is active. */
  method ApplyStages(alumni: array<Alumnus>, f: AlumniQuery) returns (filtered: array<Alumnus>)
    ensures filtered[..] == FilterAlumni(alumni[..], f)
    ensures !AnyStageActive(f) ==> filtered == alumni
    ensures AnyStageActive(f) ==> fresh(filtered)
  {
    var stages := Stages(f);
    ghost var input := alumni[..];
    assert stages[..0] == [];
    StagesActivity(f);
    filtered := RunCategoryStages(alumni, stages, input);
    filtered := RunToggleStages(filtered, stages, input);
    assert stages[..6] == stages;
  }

  /** Search, majors, years and locations. */
  method RunCategoryStages(src: array<Alumnus>, stages: seq<Stage<Alumnus>>, ghost input: seq<Alumnus>)
    returns (filtered: array<Alumnus>)
    requires |stages| == 6 && src[..] == Pipeline(input, stages[..0])
    ensures filtered[..] == Pipeline(input, stages[..4])
    ensures !(stages[0].active || stages[1].active || stages[2].active || stages[3].active) ==> filtered == src
    ensures stages[0].active || stages[1].active || stages[2].active || stages[3].active ==> fresh(filtered)
  {
    filtered := RunStage(src, stages, 0, input);       // search
    ghost var any := stages[0].active;  // some stage so far built a new array
    assert any ==> fresh(filtered);
    assert !any ==> filtered == src;
    filtered := RunStage(filtered, stages, 1, input);  // majors
    any := any || stages[1].active;
    assert any ==> fresh(filtered);
    assert !any ==> filtered == src;
    filtered := RunStage(filtered, stages, 2, input);  // graduation years
    any := any || stages[2].active;
    assert any ==> fresh(filtered);
    assert !any ==> filtered == src;
    filtered := RunStage(filtered, stages, 3, input);  // locations
    any := any || stages[3].active;
    assert any ==> fresh(filtered);
    assert !any ==> filtered == src;
  }

  /** The mentoring and networking toggles. */
  method RunToggleStages(src: array<Alumnus>, stages: seq<Stage<Alumnus>>, ghost input: seq<Alumnus>)
    returns (filtered: array<Alumnus>)
    requires |stages| == 6 && src[..] == Pipeline(input, stages[..4])
    ensures filtered[..] == Pipeline(input, stages[..6])
    ensures !(stages[4].active || stages[5].active) ==> filtered == src
    ensures stages[4].active || stages[5].active ==> fresh(filtered)
  {
    filtered := RunStage(src, stages, 4, input);       // available for mentoring
    filtered := RunStage(filtered, stages, 5, input);  // open to networking
  }
}
