/**
 * The list updates shared by the two filter panels: the select handlers that
 * add a value only once, and the dropdowns that offer the catalogue entries
 * not chosen yet.
 */
module Selection {
  import opened Seqs

  /** Append `v` only when it is non-empty (a truthy string) and not selected yet. */
  function AddIfAbsent(s: seq<string>, v: string): (r: seq<string>)
    ensures v != "" && v !in s ==> r == s + [v]
    ensures v == "" || v in s ==> r == s
  {
    if v != "" && v !in s then s + [v] else s
  }

  /** Every selected value is non-empty and selected once: what the select handlers maintain. */
  predicate CleanSelection(s: seq<string>)
  {
    NoDups(s) && "" !in s
  }

  /** Adding keeps the list clean, and afterwards `v` is selected exactly when it is non-empty. */
  lemma AddIfAbsentKeepsClean(s: seq<string>, v: string)
    requires CleanSelection(s)
    ensures CleanSelection(AddIfAbsent(s, v))
    ensures v != "" ==> v in AddIfAbsent(s, v)
    ensures forall x :: x in AddIfAbsent(s, v) <==> x in s || (x == v && v != "")
  {
  }

  lemma RemoveAllKeepsClean(s: seq<string>, v: string)
    requires CleanSelection(s)
    ensures CleanSelection(RemoveAll(s, v))
  {
    RemoveAllNoDups(s, v);
  }

  /** The dropdown's options: the catalogue entries not selected yet, in catalogue order. */
  function Unselected(catalogue: seq<string>, selected: seq<string>): (r: seq<string>)
    ensures IsSubseq(r, catalogue)
    ensures forall i :: 0 <= i < |r| ==> r[i] in catalogue && r[i] !in selected
    ensures forall i :: 0 <= i < |catalogue| && catalogue[i] !in selected ==> catalogue[i] in r
  {
    FilterIsSubseq(catalogue, x => x !in selected);
    FilterMembers(catalogue, x => x !in selected);
    Filter(catalogue, x => x !in selected)
  }
}
