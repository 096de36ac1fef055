/** Presentation values shared by the cards: badge colours and the truncated badge row. */
module Badges {
  import opened Options

  /** The colour family a badge or score is drawn in (the Tailwind class string is not modelled). */
  datatype Color = Green | Blue | Yellow | Gray | Purple | Orange | Red

  /** How many badges a card shows before summarising the rest. */
  const MaxBadges: nat := 3

  /** The badges shown, and the count `n` of the "+n more" badge when there is one. */
  datatype BadgeRow = BadgeRow(shown: seq<string>, more: Option<nat>)

  /** `items.slice(0, 3)` followed by a "+(n-3) more" badge when there are more than three. */
  function Truncate(items: seq<string>): (r: BadgeRow)
    ensures |r.shown| <= MaxBadges && |r.shown| <= |items|
    ensures r.shown == items[..|r.shown|]
    ensures |items| <= MaxBadges ==> r.shown == items
    ensures r.more.Some? <==> |items| > MaxBadges
    ensures r.more.Some? ==> |r.shown| == MaxBadges && |r.shown| + r.more.value == |items|
  {
    if |items| > MaxBadges then BadgeRow(items[..MaxBadges], Some(|items| - MaxBadges))
    else BadgeRow(items, None)
  }

  /** Every item is accounted for exactly once: either shown or counted in "+n more". */
  lemma TruncateAccountsForAll(items: seq<string>)
    ensures Truncate(items).shown + items[|Truncate(items).shown|..] == items
    ensures |Truncate(items).shown| + Truncate(items).more.GetOr(0) == |items|
  {
    var r := Truncate(items);
    assert r.shown + items[|r.shown|..] == items[..|r.shown|] + items[|r.shown|..];
  }
}
