/** Tag toggling in the effect selectors: a pressed tag is removed, an
    unpressed one is appended. */
module TagSelector {
  import Seqs

  /** Keeps every tag other than `tag`. */
  function Other(tag: string): string -> bool {
    t => t != tag
  }

  /** Every tag occurs at most once. */
  predicate NoRepeats(s: seq<string>) {
    forall t :: t in s ==> multiset(s)[t] == 1
  }

  /** `handleToggle`: a selected tag is removed (every occurrence of it); an
      unselected one is appended at the end. Only the toggled tag changes
      membership, and the other tags keep their count and relative order. */
  function Toggle(selected: seq<string>, tag: string): (r: seq<string>)
    ensures tag in r <==> tag !in selected
    ensures tag !in selected ==> r == selected + [tag]
    ensures forall t :: t != tag ==> multiset(r)[t] == multiset(selected)[t]
    ensures Seqs.Filter(r, Other(tag)) == Seqs.Filter(selected, Other(tag))
  {
    if tag in selected then
      var r := Seqs.Filter(selected, Other(tag));
      Seqs.FilterAll(r, Other(tag));
      r
    else
      var r := selected + [tag];
      Seqs.FilterConcat(selected, [tag], Other(tag));
      assert Seqs.Filter([tag], Other(tag)) == [] by {
        assert [tag][1..] == [];
      }
      r
  }

  /** Toggling an unselected tag twice gives the list back. */
  lemma ToggleTwice(selected: seq<string>, tag: string)
    requires tag !in selected
    ensures Toggle(Toggle(selected, tag), tag) == selected
  {
    Seqs.FilterConcat(selected, [tag], Other(tag));
    Seqs.FilterAll(selected, Other(tag));
    assert Seqs.Filter([tag], Other(tag)) == [] by {
      assert [tag][1..] == [];
    }
  }

  /** A list without repeats stays without repeats, and the toggled tag ends
      up selected exactly once or not at all. */
  lemma ToggleKeepsNoRepeats(selected: seq<string>, tag: string)
    requires NoRepeats(selected)
    ensures NoRepeats(Toggle(selected, tag))
    ensures multiset(Toggle(selected, tag))[tag] == if tag in selected then 0 else 1
  {
    var r := Toggle(selected, tag);
    if tag !in selected {
      assert multiset(r) == multiset(selected) + multiset{tag};
    }
  }
}
