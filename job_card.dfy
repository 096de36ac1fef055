/**
 * The job card: the type and experience badge colours, the salary line, the
 * "posted ... ago" text, the match-score badge and the requirement badges.
 * Dates are epoch milliseconds; "now" is a parameter.
 */
module JobCard {
  import opened Options
  import opened Badges
  import JobFilters
  import JobBoard

  /** `1000 * 60 * 60 * 24`. */
  const MillisPerDay: nat := 86400000

  function Abs(x: int): nat
  {
    if x < 0 then -x else x
  }

  /** `Math.ceil(Math.abs(now - posted) / MillisPerDay)`: the least whole number of days covering the gap. */
  function DiffDays(now: int, posted: int): (days: nat)
    ensures Abs(now - posted) <= days * MillisPerDay
    ensures days > 0 ==> (days - 1) * MillisPerDay < Abs(now - posted)
  {
    (Abs(now - posted) + MillisPerDay - 1) / MillisPerDay
  }

  /** Since the gap is taken in absolute value, a date in the future reads like one in the past. */
  lemma DiffDaysSymmetric(now: int, posted: int)
    ensures DiffDays(now, posted) == DiffDays(posted, now)
    ensures DiffDays(now, posted) == 0 <==> now == posted
  {
  }

  /** The four phrasings of `getTimeAgo` and the number each one shows. */
  datatype Ago = DayAgo | DaysAgo(n: nat) | WeeksAgo(n: nat) | MonthsAgo(n: nat)

  function CeilDiv(n: nat, d: nat): nat
    requires d > 0
  {
    (n + d - 1) / d
  }

  /** `getTimeAgo` after `diffDays` is known. */
  function TimeAgo(days: nat): (a: Ago)
    ensures a == DayAgo <==> days == 1
    ensures a.DaysAgo? <==> days != 1 && days < 7
    ensures a.DaysAgo? ==> a.n == days
    ensures a.WeeksAgo? <==> 7 <= days < 30
    ensures a.MonthsAgo? <==> days >= 30
    ensures a.WeeksAgo? ==> (a.n - 1) * 7 < days <= a.n * 7
    ensures a.MonthsAgo? ==> (a.n - 1) * 30 < days <= a.n * 30
  {
    if days == 1 then DayAgo
    else if days < 7 then DaysAgo(days)
    else if days < 30 then WeeksAgo(CeilDiv(days, 7))
    else MonthsAgo(CeilDiv(days, 30))
  }

  /** The text shown for a job posted at `posted`, seen at `now`. */
  function PostedAgo(now: int, posted: int): Ago
  {
    TimeAgo(DiffDays(now, posted))
  }

  /** The span, in days, that the phrase stands for, and the size of its unit. */
  function Span(a: Ago): nat
  {
    match a
    case DayAgo => 1
    case DaysAgo(n) => n
    case WeeksAgo(n) => 7 * n
    case MonthsAgo(n) => 30 * n
  }

  function Unit(a: Ago): nat
  {
    match a
    case DayAgo => 1
    case DaysAgo(_) => 1
    case WeeksAgo(_) => 7
    case MonthsAgo(_) => 30
  }

  /** The phrase rounds the day count up to its unit: never less, and less than one unit more. */
  lemma TimeAgoRoundsUp(days: nat)
    ensures days <= Span(TimeAgo(days)) < days + Unit(TimeAgo(days))
  {
  }

  /** The unit a phrase counts in: days, weeks or months. */
  function Level(a: Ago): nat
  {
    match a
    case DayAgo => 0
    case DaysAgo(_) => 0
    case WeeksAgo(_) => 1
    case MonthsAgo(_) => 2
  }

  function Count(a: Ago): nat
  {
    if a.DayAgo? then 1 else a.n
  }

  /** An older posting never reads as more recent: a coarser unit, or the same unit and no smaller count. */
  lemma TimeAgoMonotone(d1: nat, d2: nat)
    requires d1 <= d2
    ensures Level(TimeAgo(d1)) < Level(TimeAgo(d2)) ||
      (Level(TimeAgo(d1)) == Level(TimeAgo(d2)) && Count(TimeAgo(d1)) <= Count(TimeAgo(d2)))
  {
  }

  /** Rounding weeks up overlaps the first month: 29 days read "5 weeks ago", a day later "1 month ago". */
  lemma WeeksOverlapFirstMonth()
    ensures TimeAgo(29) == WeeksAgo(5) && TimeAgo(30) == MonthsAgo(1)
    ensures Span(TimeAgo(29)) > Span(TimeAgo(30))
  {
  }

  /** The salary line before number formatting: `null` without a salary. */
  datatype SalaryLine = SalaryLine(currency: string, min: int, max: int)

  function FormatSalary(salary: Option<JobBoard.Salary>): (r: Option<SalaryLine>)
    ensures r.None? <==> salary.None?
    ensures r.Some? ==> (r.value.currency == salary.value.currency &&
      r.value.min == salary.value.min && r.value.max == salary.value.max)
  {
    match salary
    case None => None
    case Some(s) => Some(SalaryLine(s.currency, s.min, s.max))
  }

  /** `getTypeColor`: one colour per job type, gray for anything else. */
  function TypeColor(kind: string): (c: Color)
    ensures kind == "Full-time" ==> c == Green
    ensures kind == "Part-time" ==> c == Blue
    ensures kind == "Contract" ==> c == Purple
    ensures kind == "Internship" ==> c == Orange
    ensures c == Gray <==> kind !in JobFilters.JobTypes
  {
    match kind
    case "Full-time" => Green
    case "Part-time" => Blue
    case "Contract" => Purple
    case "Internship" => Orange
    case _ => Gray
  }

  /** `getExperienceColor`: one colour per experience level, gray for anything else. */
  function ExperienceColor(level: string): (c: Color)
    ensures level == "Entry" ==> c == Yellow
    ensures level == "Mid" ==> c == Blue
    ensures level == "Senior" ==> c == Purple
    ensures level == "Executive" ==> c == Red
    ensures c == Gray <==> level !in JobFilters.ExperienceLevels
  {
    match level
    case "Entry" => Yellow
    case "Mid" => Blue
    case "Senior" => Purple
    case "Executive" => Red
    case _ => Gray
  }

  /** Within each catalogue, distinct values get distinct colours. */
  lemma CatalogueColorsDistinct(a: string, b: string)
    requires a != b
    ensures a in JobFilters.JobTypes && b in JobFilters.JobTypes ==> TypeColor(a) != TypeColor(b)
    ensures a in JobFilters.ExperienceLevels && b in JobFilters.ExperienceLevels ==> ExperienceColor(a) != ExperienceColor(b)
  {
  }

  /**
   * What `{job.matchScore && (...)}` renders: the star badge for a truthy
   * score, nothing for a missing one, and for a score of 0 the expression's
   * own value, the number 0, which React draws as a bare "0".
   */
  datatype MatchShown = StarBadge(score: int) | BareZero | NoBadge

  function MatchBadge(matchScore: Option<int>): (r: MatchShown)
    ensures r.StarBadge? <==> matchScore.Some? && matchScore.value != 0
    ensures r.StarBadge? ==> r.score == matchScore.value
    ensures r.BareZero? <==> matchScore == Some(0)
    ensures r.NoBadge? <==> matchScore.None?
  {
    match matchScore
    case None => NoBadge
    case Some(score) => if score == 0 then BareZero else StarBadge(score)
  }

  /** The "Key Requirements" block: drawn only for a non-empty list, as at most three badges and "+n more". */
  function RequirementBadges(requirements: seq<string>): (r: Option<BadgeRow>)
    ensures r.Some? <==> |requirements| > 0
    ensures r.Some? ==>
      |r.value.shown| <= MaxBadges && |r.value.shown| <= |requirements| &&
      r.value.shown == requirements[..|r.value.shown|] &&
      (r.value.more.Some? <==> |requirements| > MaxBadges) &&
      |r.value.shown| + r.value.more.GetOr(0) == |requirements|
  {
    if |requirements| > 0 then
      TruncateAccountsForAll(requirements);
      Some(Truncate(requirements))
    else None
  }
}
