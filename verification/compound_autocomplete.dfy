/** The compound search box of the logger. Suggestions arrive from a lookup
    service; their fetching and its debounce are outside the model, and their
    arrival is an event carrying the list (`None` when the reply has none),
    or a failure event when the lookup throws. */
module CompoundAutocomplete {
  import opened Wrappers
  import opened Schemas

  datatype Box = Box(query: string, suggestions: seq<string>, showSuggestions: bool)

  const Empty: Box := Box("", [], false)

  /** The query effect: a query shorter than two characters empties and hides
      the suggestions; a longer one waits for the lookup. */
  function SetQuery(b: Box, q: string): (r: Box)
    ensures r.query == q
    ensures |q| < 2 ==> r.suggestions == [] && !r.showSuggestions
    ensures |q| >= 2 ==> r == b.(query := q)
  {
    if |q| < 2 then Box(q, [], false) else b.(query := q)
  }

  /** A lookup reply for a query of two or more characters: shown, with an
      absent list read as empty. */
  function Arrive(b: Box, suggestions: Option<seq<string>>): (r: Box)
    ensures r.showSuggestions && r.query == b.query
    ensures r.suggestions == suggestions.GetOr([])
  {
    b.(suggestions := suggestions.GetOr([]), showSuggestions := true)
  }

  /** A lookup that fails empties the list but leaves it shown or hidden as
      it was. */
  function FetchFailed(b: Box): (r: Box)
    ensures r.suggestions == [] && r.query == b.query
    ensures r.showSuggestions == b.showSuggestions
  {
    b.(suggestions := [])
  }

  /** A failed lookup and a reply without a list leave the same box exactly
      when the suggestions were already shown; either way Enter then adds the
      query itself. */
  lemma FailureLikeEmptyReply(b: Box)
    requires |b.query| >= 2
    ensures FetchFailed(b) == Arrive(b, None) <==> b.showSuggestions
    ensures KeyDown(FetchFailed(b), "Enter").1 == Some(Compound(b.query, ""))
    ensures KeyDown(Arrive(b, None), "Enter").1 == Some(Compound(b.query, ""))
  {
  }

  /** Picking a name adds it with an empty dose and resets the box. */
  function Select(b: Box, name: string): (res: (Box, Compound))
    ensures res.0 == Empty
    ensures res.1.name == name && res.1.dose == ""
  {
    (Empty, Compound(name, ""))
  }

  /** A key press: Enter with a query of two or more characters adds the first
      suggestion, or the query itself when there is none; anything else adds
      nothing and changes nothing. */
  function KeyDown(b: Box, key: string): (res: (Box, Option<Compound>))
    ensures !(key == "Enter" && |b.query| >= 2) ==> res == (b, None)
    ensures key == "Enter" && |b.query| >= 2 && b.suggestions == [] ==>
      res == (b.(query := ""), Some(Compound(b.query, "")))
    ensures key == "Enter" && |b.query| >= 2 && b.suggestions != [] ==>
      res == (Empty, Some(Compound(b.suggestions[0], "")))
  {
    if key == "Enter" && |b.query| >= 2 then
      if b.suggestions == [] then (b.(query := ""), Some(Compound(b.query, "")))
      else
        var (b', c) := Select(b, b.suggestions[0]);
        (b', Some(c))
    else (b, None)
  }

  /** After any Enter that adds a compound, and the query effect that the
      cleared query triggers, the box is empty and hidden; the added compound
      has no dose yet and so fails the compound schema until one is set. */
  lemma EnterResetsBox(b: Box)
    requires |b.query| >= 2
    ensures var (b', c) := KeyDown(b, "Enter");
      && c.Some? && c.value.dose == "" && !ValidCompound(c.value)
      && SetQuery(b', b'.query) == Empty
  {
  }
}
