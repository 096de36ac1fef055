/**
 * The recommendation card: the type badge (colour and icon), the
 * compatibility colour, the optional metadata rows, the truncated skill
 * badges and the action button's label.
 */
module RecommendationCard {
  import opened Options
  import opened Badges
  import CompatibilityScore

  /** Optional details; every field may be missing. */
  datatype Metadata = Metadata(
    name: Option<string>,
    company: Option<string>,
    location: Option<string>,
    date: Option<string>,
    skills: Option<seq<string>>,
    experience: Option<string>)

  /** One recommendation; `kind` is the source's `type`, kept as the string it is at run time. */
  datatype Recommendation = Recommendation(
    id: string,
    kind: string,
    title: string,
    description: string,
    compatibility: int,
    metadata: Option<Metadata>,
    actionLabel: Option<string>)

  const RecommendationTypes: seq<string> := ["connection", "mentor", "job", "event", "opportunity"]

  datatype Icon = Users | MessageSquare | Briefcase | Calendar | TrendingUp

  /** `getCompatibilityColor`: green from 90, blue from 80, yellow from 70, gray below. */
  function CompatibilityColor(compatibility: int): (c: Color)
    ensures c == Green <==> compatibility >= 90
    ensures c == Blue <==> 80 <= compatibility < 90
    ensures c == Yellow <==> 70 <= compatibility < 80
    ensures c == Gray <==> compatibility < 70
  {
    if compatibility >= 90 then Green
    else if compatibility >= 80 then Blue
    else if compatibility >= 70 then Yellow
    else Gray
  }

  /** The card and the score widget colour every score alike. */
  lemma SameBandsAsScoreWidget(compatibility: int)
    ensures CompatibilityColor(compatibility) == CompatibilityScore.ScoreColor(compatibility)
  {
  }

  /** `getTypeColor`: one colour per recommendation type, gray for anything else. */
  function TypeColor(kind: string): (c: Color)
    ensures kind == "connection" ==> c == Blue
    ensures kind == "mentor" ==> c == Green
    ensures kind == "job" ==> c == Purple
    ensures kind == "event" ==> c == Orange
    ensures kind == "opportunity" ==> c == Yellow
    ensures c == Gray <==> kind !in RecommendationTypes
  {
    match kind
    case "connection" => Blue
    case "mentor" => Green
    case "job" => Purple
    case "event" => Orange
    case "opportunity" => Yellow
    case _ => Gray
  }

  /** `getIcon`: one icon per recommendation type, the people icon for anything else. */
  function IconOf(kind: string): (i: Icon)
    ensures kind == "connection" ==> i == Users
    ensures kind == "mentor" ==> i == MessageSquare
    ensures kind == "job" ==> i == Briefcase
    ensures kind == "event" ==> i == Calendar
    ensures kind == "opportunity" ==> i == TrendingUp
    ensures kind !in RecommendationTypes ==> i == Users
  {
    match kind
    case "mentor" => MessageSquare
    case "job" => Briefcase
    case "event" => Calendar
    case "opportunity" => TrendingUp
    case _ => Users
  }

  /** Distinct recommendation types get distinct badge colours and distinct icons. */
  lemma TypeBadgesDistinct(a: string, b: string)
    requires a in RecommendationTypes && b in RecommendationTypes && a != b
    ensures TypeColor(a) != TypeColor(b)
    ensures IconOf(a) != IconOf(b)
  {
  }

  /** The default parameter `actionLabel = "Connect"`: used only when the prop is omitted. */
  function ActionLabel(given: Option<string>): (r: string)
    ensures given.Some? ==> r == given.value
    ensures given.None? ==> r == "Connect"
  {
    given.GetOr("Connect")
  }

  /** The metadata fields that are drawn as labelled rows, in the order they are drawn. */
  datatype Field = NameField | CompanyField | LocationField | DateField | ExperienceField

  function Rank(f: Field): nat
  {
    match f
    case NameField => 0
    case CompanyField => 1
    case LocationField => 2
    case DateField => 3
    case ExperienceField => 4
  }

  function FieldOf(m: Metadata, f: Field): Option<string>
  {
    match f
    case NameField => m.name
    case CompanyField => m.company
    case LocationField => m.location
    case DateField => m.date
    case ExperienceField => m.experience
  }

  /** A row is drawn for a field that is present and truthy, i.e. not the empty string. */
  predicate Shown(m: Metadata, f: Field)
  {
    FieldOf(m, f).Some? && FieldOf(m, f).value != ""
  }

  const DrawOrder: seq<Field> := [NameField, CompanyField, LocationField, DateField, ExperienceField]

  predicate Ascending(fields: seq<Field>)
  {
    forall i, j :: 0 <= i < j < |fields| ==> Rank(fields[i]) < Rank(fields[j])
  }

  /** The rows drawn for `fields`, in their order: one per shown field. */
  function RowsOf(m: Metadata, fields: seq<Field>): (rows: seq<(Field, string)>)
    ensures forall i :: 0 <= i < |rows| ==>
      rows[i].0 in fields && Shown(m, rows[i].0) && rows[i].1 == FieldOf(m, rows[i].0).value
    ensures forall f :: f in fields && Shown(m, f) ==> (f, FieldOf(m, f).value) in rows
  {
    if |fields| == 0 then []
    else
      var rest := RowsOf(m, fields[1..]);
      assert forall f :: f in fields ==> f == fields[0] || f in fields[1..];
      if Shown(m, fields[0]) then [(fields[0], FieldOf(m, fields[0]).value)] + rest else rest
  }

  /** No row's field comes at or after a later row's field in drawing order. */
  predicate RowsInOrder(rows: seq<(Field, string)>)
  {
    forall i, j :: 0 <= i < j < |rows| ==> Rank(rows[i].0) < Rank(rows[j].0)
  }

  /** Rows come out in the order of the fields they were drawn from. */
  lemma {:induction false} RowsOfAscending(m: Metadata, fields: seq<Field>)
    requires Ascending(fields)
    ensures RowsInOrder(RowsOf(m, fields))
  {
    if |fields| > 0 {
      var rest := RowsOf(m, fields[1..]);
      RowsOfAscending(m, fields[1..]);
      if Shown(m, fields[0]) {
        forall k | 0 <= k < |rest|
          ensures Rank(fields[0]) < Rank(rest[k].0)
        {
          var j :| 0 <= j < |fields[1..]| && fields[1..][j] == rest[k].0;
          assert fields[1 + j] == rest[k].0;
        }
        PrependRow((fields[0], FieldOf(m, fields[0]).value), rest);
      }
    }
  }

  lemma PrependRow(row: (Field, string), rest: seq<(Field, string)>)
    requires RowsInOrder(rest)
    requires forall k :: 0 <= k < |rest| ==> Rank(row.0) < Rank(rest[k].0)
    ensures RowsInOrder([row] + rest)
  {
    var r := [row] + rest;
    assert forall i :: 0 < i < |r| ==> r[i] == rest[i - 1];
  }

  lemma AllFieldsDrawn(f: Field)
    ensures f in DrawOrder
  {
    assert DrawOrder[Rank(f)] == f;
  }

  /** The metadata rows of the card: none without metadata, else one per shown field, in drawing order. */
  function MetadataRows(meta: Option<Metadata>): (rows: seq<(Field, string)>)
    ensures forall i :: 0 <= i < |rows| ==>
      meta.Some? && Shown(meta.value, rows[i].0) && rows[i].1 == FieldOf(meta.value, rows[i].0).value
    ensures forall f :: meta.Some? && Shown(meta.value, f) ==> (f, FieldOf(meta.value, f).value) in rows
    ensures forall i, j :: 0 <= i < j < |rows| ==> Rank(rows[i].0) < Rank(rows[j].0)
  {
    match meta
    case None => []
    case Some(m) =>
      assert forall f: Field :: f in DrawOrder by {
        forall f: Field ensures f in DrawOrder { AllFieldsDrawn(f); }
      }
      RowsOfAscending(m, DrawOrder);
      RowsOf(m, DrawOrder)
  }

  /** The skills block: drawn only for a present, non-empty list, as at most three badges and "+n more". */
  function SkillBadges(meta: Option<Metadata>): (r: Option<BadgeRow>)
    ensures r.Some? <==> meta.Some? && meta.value.skills.Some? && |meta.value.skills.value| > 0
    ensures r.Some? ==> var skills := meta.value.skills.value;
      |r.value.shown| <= MaxBadges && |r.value.shown| <= |skills| && r.value.shown == skills[..|r.value.shown|] &&
      (r.value.more.Some? <==> |skills| > MaxBadges) &&
      |r.value.shown| + r.value.more.GetOr(0) == |skills|
  {
    if meta.Some? && meta.value.skills.Some? && |meta.value.skills.value| > 0 then
      TruncateAccountsForAll(meta.value.skills.value);
      Some(Truncate(meta.value.skills.value))
    else None
  }
}
