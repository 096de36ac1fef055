/**
 * The recommendations feed: a fixed list of recommendations narrowed by a
 * type filter ("all" or one type), and a refresh flag raised while the
 * (simulated) reload is in flight.
 */
module RecommendationsFeed {
  import opened Options
  import opened Seqs
  import opened RecommendationCard

  const AllTypes: string := "all"

  const MockRecommendations: seq<Recommendation> := [
    Recommendation("1", "connection", "Connect with Maria Rodriguez",
      "Fellow Computer Science graduate working in AI/ML at Meta", 95,
      Some(Metadata(Some("Maria Rodriguez"), Some("Meta"), Some("Menlo Park, CA"), None,
        Some(["Machine Learning", "Python", "TensorFlow", "Data Science"]), Some("5 years"))),
      Some("Send Connection Request")),
    Recommendation("2", "mentor", "Mentor David Kim",
      "Current CS student interested in your career path in tech leadership", 88,
      Some(Metadata(Some("David Kim"), Some("Stanford University"), Some("Stanford, CA"), None,
        Some(["JavaScript", "React", "Node.js"]), Some("Student - Junior year"))),
      Some("Offer Mentorship")),
    Recommendation("3", "job", "Senior Software Engineer",
      "Perfect match for your skills at a growing fintech startup", 92,
      Some(Metadata(None, Some("FinTech Innovations"), Some("San Francisco, CA"), None,
        Some(["React", "Node.js", "AWS", "TypeScript"]), None)),
      Some("View Job Details")),
    Recommendation("4", "event", "AI in Healthcare Symposium",
      "Speaking opportunity at a conference aligned with your expertise", 89,
      Some(Metadata(None, Some("Healthcare Innovation Hub"), Some("San Francisco, CA"), Some("March 15, 2024"),
        None, None)),
      Some("Apply to Speak")),
    Recommendation("5", "opportunity", "Board Advisory Position",
      "Startup seeking technical advisor with your background", 91,
      Some(Metadata(None, Some("EduTech Startup"), Some("Remote"), None,
        Some(["Technical Leadership", "Product Strategy", "EdTech"]), None)),
      Some("Learn More"))
  ]

  /** The filter callback: "all" keeps everything, any other value keeps its own type only. */
  predicate Keeps(filter: string, rec: Recommendation)
  {
    filter == AllTypes || rec.kind == filter
  }

  /** `filteredRecommendations`. */
  function Visible(recs: seq<Recommendation>, filter: string): (r: seq<Recommendation>)
    ensures |r| <= |recs|
  {
    Filter(recs, (rec: Recommendation) => Keeps(filter, rec))
  }

  /** "all" shows every recommendation, in its original order. */
  lemma AllShowsEverything(recs: seq<Recommendation>)
    ensures Visible(recs, AllTypes) == recs
  {
    FilterAll(recs, (rec: Recommendation) => Keeps(AllTypes, rec));
  }

  /**
   * What is shown is an order-preserving subsequence of the list, and a
   * recommendation is shown exactly when it is in the list and either the
   * filter is "all" or its type equals the filter.
   */
  lemma VisibleMembers(recs: seq<Recommendation>, filter: string)
    ensures IsSubseq(Visible(recs, filter), recs)
    ensures forall rec :: rec in Visible(recs, filter) <==> rec in recs && (filter == AllTypes || rec.kind == filter)
  {
    var p := (rec: Recommendation) => Keeps(filter, rec);
    FilterIsSubseq(recs, p);
    FilterMembers(recs, p);
  }

  /** The "No recommendations found" block is drawn exactly when no recommendation passes. */
  predicate ShowsEmptyState(recs: seq<Recommendation>, filter: string)
  {
    |Visible(recs, filter)| == 0
  }

  lemma EmptyStateExactly(recs: seq<Recommendation>, filter: string)
    ensures ShowsEmptyState(recs, filter) <==> forall rec :: rec in recs ==> filter != AllTypes && rec.kind != filter
  {
    VisibleMembers(recs, filter);
    if !ShowsEmptyState(recs, filter) {
      assert Visible(recs, filter)[0] in Visible(recs, filter);
    }
  }

  /** Filtering keeps the one element that passes, when exactly one does. */
  lemma {:induction false} FilterUnique<T>(s: seq<T>, p: T -> bool, k: nat)
    requires k < |s|
    requires forall i :: 0 <= i < |s| ==> (p(s[i]) <==> i == k)
    ensures Filter(s, p) == [s[k]]
  {
    var init := s[..|s| - 1];
    assert s == init + [s[|s| - 1]];
    if k == |s| - 1 {
      FilterNone(init, p);
    } else {
      FilterUnique(init, p, k);
    }
  }

  lemma {:induction false} FilterNone<T>(s: seq<T>, p: T -> bool)
    requires forall i :: 0 <= i < |s| ==> !p(s[i])
    ensures Filter(s, p) == []
  {
    if |s| > 0 {
      FilterNone(s[..|s| - 1], p);
    }
  }

  lemma MockKinds()
    ensures |MockRecommendations| == |RecommendationTypes|
    ensures forall i :: 0 <= i < |MockRecommendations| ==> MockRecommendations[i].kind == RecommendationTypes[i]
  {
  }

  /** Each of the five types selects exactly its one mock recommendation. */
  lemma MockFilter(k: nat)
    requires k < |RecommendationTypes|
    ensures Visible(MockRecommendations, RecommendationTypes[k]) == [MockRecommendations[k]]
  {
    MockKinds();
    var p := (rec: Recommendation) => Keeps(RecommendationTypes[k], rec);
    assert forall i, j :: 0 <= i < j < |RecommendationTypes| ==> RecommendationTypes[i] != RecommendationTypes[j];
    FilterUnique(MockRecommendations, p, k);
  }

  /** A type none of the mock recommendations has shows the empty state. */
  lemma MockUnlistedType()
    ensures ShowsEmptyState(MockRecommendations, "webinar")
  {
    var p := (rec: Recommendation) => Keeps("webinar", rec);
    assert forall i :: 0 <= i < |MockRecommendations| ==> !p(MockRecommendations[i]) by {
      MockKinds();
      assert "webinar" !in RecommendationTypes;
    }
    FilterNone(MockRecommendations, p);
  }

  class Feed {
    const recommendations: seq<Recommendation>
    var filter: string
    var isRefreshing: bool

    constructor ()
      ensures recommendations == MockRecommendations && filter == AllTypes && !isRefreshing
    {
      recommendations := MockRecommendations;
      filter := AllTypes;
      isRefreshing := false;
    }

    /** What the grid draws for the current filter. */
    function Shown(): seq<Recommendation>
      reads this
    {
      Visible(recommendations, filter)
    }

    /** The type dropdown's `setFilter`. */
    method SetFilter(value: string)
      modifies this
      ensures filter == value && isRefreshing == old(isRefreshing)
    {
      filter := value;
    }

    /** The synchronous part of `handleRefresh`; the simulated delay ends in `RefreshDone`. */
    method HandleRefresh()
      modifies this
      ensures isRefreshing && filter == old(filter)
      ensures Shown() == old(Shown())
    {
      isRefreshing := true;
    }

    /** The 1500 ms delay of `handleRefresh` has elapsed: the flag drops and the data is as before. */
    method RefreshDone()
      modifies this
      ensures !isRefreshing && filter == old(filter)
      ensures Shown() == old(Shown())
    {
      isRefreshing := false;
    }
  }
}
