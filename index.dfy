/** The catalog page's filtering (src/pages/Index.tsx): the search and type
    filters over the loaded entries, the selected-types toggle and the
    state the page keeps. */
module Index {
  import opened Text
  import opened PokemonService

  /** The search predicate: the lower-cased name contains the lower-cased
      query, or the id's decimal text is exactly the query as typed. */
  predicate MatchesQuery(p: Pokemon, query: string)
  {
    Includes(ToLower(p.name), ToLower(query)) || IntToString(p.id) == query
  }

  /** `p.types.some(t => types.includes(t.type.name))`. */
  predicate HasSelectedType(p: Pokemon, types: seq<string>)
  {
    exists i :: 0 <= i < |p.types| && p.types[i] in types
  }

  /** An entry passes every active filter: the search when the query is
      non-empty, the types when at least one is selected. */
  predicate Selected(p: Pokemon, query: string, types: seq<string>)
  {
    (query == "" || MatchesQuery(p, query)) && (types == [] || HasSelectedType(p, types))
  }

  /** `xs.filter(keep)`. */
  function Filter(xs: seq<Pokemon>, keep: Pokemon -> bool): (r: seq<Pokemon>)
    ensures |r| <= |xs|
    ensures forall p :: p in r <==> p in xs && keep(p)
  {
    if xs == [] then []
    else (if keep(xs[0]) then [xs[0]] else []) + Filter(xs[1..], keep)
  }

  /** The filter keeps every kept entry as often as the input holds it,
      duplicates included, and no other entry. */
  lemma {:induction false} FilterCounts(xs: seq<Pokemon>, keep: Pokemon -> bool)
    ensures forall p :: multiset(Filter(xs, keep))[p] == if keep(p) then multiset(xs)[p] else 0
    decreases |xs|
  {
    if xs != [] {
      FilterCounts(xs[1..], keep);
      assert xs == [xs[0]] + xs[1..];
    }
  }

  /** `xs` is `ys` with some entries taken out and the rest left in order. */
  predicate IsSubsequence(xs: seq<Pokemon>, ys: seq<Pokemon>)
    decreases |ys|
  {
    if ys == [] then xs == []
    else (xs != [] && xs[0] == ys[0] && IsSubsequence(xs[1..], ys[1..])) || IsSubsequence(xs, ys[1..])
  }

  lemma {:induction false} FilterIsSubsequence(xs: seq<Pokemon>, keep: Pokemon -> bool)
    ensures IsSubsequence(Filter(xs, keep), xs)
    decreases |xs|
  {
    if xs != [] {
      FilterIsSubsequence(xs[1..], keep);
      var rest := Filter(xs[1..], keep);
      if keep(xs[0]) {
        assert Filter(xs, keep) == [xs[0]] + rest;
        assert ([xs[0]] + rest)[1..] == rest;
      } else {
        assert Filter(xs, keep) == rest;
      }
    }
  }

  lemma {:induction false} FilterKeepsAll(xs: seq<Pokemon>, keep: Pokemon -> bool)
    requires forall p :: p in xs ==> keep(p)
    ensures Filter(xs, keep) == xs
    decreases |xs|
  {
    if xs != [] {
      FilterKeepsAll(xs[1..], keep);
    }
  }

  /** Filtering twice is filtering once by both predicates. */
  lemma {:induction false} FilterTwice(xs: seq<Pokemon>, f: Pokemon -> bool, g: Pokemon -> bool)
    ensures Filter(Filter(xs, f), g) == Filter(xs, p => f(p) && g(p))
    decreases |xs|
  {
    if xs != [] {
      FilterTwice(xs[1..], f, g);
      var rest := Filter(xs[1..], f);
      if f(xs[0]) {
        assert Filter(xs, f) == [xs[0]] + rest;
        assert ([xs[0]] + rest)[1..] == rest;
      } else {
        assert Filter(xs, f) == rest;
      }
    }
  }

  /** `applyFilters`: the search filter when the query is non-empty, then
      the type filter when some type is selected. */
  function ApplyFilters(pokemon: seq<Pokemon>, query: string, types: seq<string>): (r: seq<Pokemon>)
    ensures query == "" && types == [] ==> r == pokemon
    ensures IsSubsequence(r, pokemon)
    ensures forall p :: p in r <==> p in pokemon && Selected(p, query, types)
  {
    var searched := if query != "" then Filter(pokemon, p => MatchesQuery(p, query)) else pokemon;
    var filtered := if |types| > 0 then Filter(searched, p => HasSelectedType(p, types)) else searched;
    ApplyFiltersIsOneFilter(pokemon, query, types, filtered);
    FilterIsSubsequence(pokemon, p => Selected(p, query, types));
    filtered
  }

  /** The two-step chain keeps exactly what one filter by `Selected`
      keeps, in the same order. */
  lemma ApplyFiltersIsOneFilter(pokemon: seq<Pokemon>, query: string, types: seq<string>, filtered: seq<Pokemon>)
    requires var searched := if query != "" then Filter(pokemon, p => MatchesQuery(p, query)) else pokemon;
      filtered == if |types| > 0 then Filter(searched, p => HasSelectedType(p, types)) else searched
    ensures filtered == Filter(pokemon, p => Selected(p, query, types))
  {
    var search := (p: Pokemon) => MatchesQuery(p, query);
    var typed := (p: Pokemon) => HasSelectedType(p, types);
    var both := (p: Pokemon) => Selected(p, query, types);
    if query != "" && |types| > 0 {
      FilterTwice(pokemon, search, typed);
      FilterSame(pokemon, p => search(p) && typed(p), both);
    } else if query != "" {
      FilterSame(pokemon, search, both);
    } else if |types| > 0 {
      FilterSame(pokemon, typed, both);
    } else {
      FilterKeepsAll(pokemon, both);
    }
  }

  lemma {:induction false} FilterSame(xs: seq<Pokemon>, f: Pokemon -> bool, g: Pokemon -> bool)
    requires forall p :: p in xs ==> f(p) == g(p)
    ensures Filter(xs, f) == Filter(xs, g)
    decreases |xs|
  {
    if xs != [] {
      FilterSame(xs[1..], f, g);
    }
  }

  /** `prev.filter(t => t !== type)`. */
  function Without(prev: seq<string>, t: string): (r: seq<string>)
    ensures forall u :: u in r <==> u in prev && u != t
  {
    if prev == [] then [] else (if prev[0] == t then [] else [prev[0]]) + Without(prev[1..], t)
  }

  /** The `handleTypeToggle` updater: a selected type is removed, any other
      is appended. */
  function Toggled(prev: seq<string>, t: string): (r: seq<string>)
    ensures t in r <==> t !in prev
    ensures forall u :: u != t ==> (u in r <==> u in prev)
    ensures t !in prev ==> r == prev + [t]
  {
    if t in prev then Without(prev, t) else prev + [t]
  }

  lemma {:induction false} WithoutAbsent(prev: seq<string>, t: string)
    requires t !in prev
    ensures Without(prev, t) == prev
    decreases |prev|
  {
    if prev != [] {
      WithoutAbsent(prev[1..], t);
    }
  }

  lemma {:induction false} WithoutAppended(prev: seq<string>, t: string)
    ensures Without(prev + [t], t) == Without(prev, t)
    decreases |prev|
  {
    if prev == [] {
      assert Without([t], t) == [] + Without([], t);
    } else {
      assert (prev + [t])[1..] == prev[1..] + [t];
      WithoutAppended(prev[1..], t);
    }
  }

  /** Toggling a type that was not selected, then toggling it again, gives
      back the original selection. */
  lemma ToggleTwiceRestores(prev: seq<string>, t: string)
    requires t !in prev
    ensures Toggled(Toggled(prev, t), t) == prev
  {
    WithoutAppended(prev, t);
    WithoutAbsent(prev, t);
  }

  /** The page's filter state. `displayedPokemon` is what the grid shows. */
  class CatalogView {
    var allPokemon: seq<Pokemon>
    var displayedPokemon: seq<Pokemon>
    var searchQuery: string
    var selectedTypes: seq<string>

    /** The grid shows the loaded entries under the current filters. */
    predicate Valid()
      reads this
    {
      displayedPokemon == ApplyFilters(allPokemon, searchQuery, selectedTypes)
    }

    constructor ()
      ensures allPokemon == [] && displayedPokemon == [] && searchQuery == "" && selectedTypes == []
      ensures Valid()
    {
      allPokemon := [];
      displayedPokemon := [];
      searchQuery := "";
      selectedTypes := [];
    }

    /** The first batch arrives: both lists become the batch, unfiltered. */
    method InitialBatchLoaded(batch: seq<Pokemon>)
      modifies this
      ensures allPokemon == batch && displayedPokemon == batch
      ensures searchQuery == old(searchQuery) && selectedTypes == old(selectedTypes)
      ensures old(searchQuery) == "" && old(selectedTypes) == [] ==> Valid()
    {
      allPokemon := batch;
      displayedPokemon := batch;
    }

    /** A further batch arrives: it is appended, and the grid becomes the
        loaded list and the batch under the query and types of the render
        in which Load More was clicked (`clickQuery`, `clickTypes`), which
        the search bar and type filter may have changed since. */
    method MoreLoaded(batch: seq<Pokemon>, clickQuery: string, clickTypes: seq<string>)
      modifies this
      ensures allPokemon == old(allPokemon) + batch
      ensures displayedPokemon == ApplyFilters(old(allPokemon) + batch, clickQuery, clickTypes)
      ensures searchQuery == old(searchQuery) && selectedTypes == old(selectedTypes)
      ensures clickQuery == searchQuery && clickTypes == selectedTypes ==> Valid()
    {
      allPokemon := allPokemon + batch;
      displayedPokemon := ApplyFilters(allPokemon, clickQuery, clickTypes);
    }

    /** `handleSearch`. */
    method HandleSearch(query: string)
      modifies this
      ensures searchQuery == query
      ensures displayedPokemon == ApplyFilters(allPokemon, query, selectedTypes)
      ensures allPokemon == old(allPokemon) && selectedTypes == old(selectedTypes)
      ensures Valid()
    {
      searchQuery := query;
      displayedPokemon := ApplyFilters(allPokemon, query, selectedTypes);
    }

    /** `handleTypeToggle`. */
    method HandleTypeToggle(t: string)
      modifies this
      ensures selectedTypes == Toggled(old(selectedTypes), t)
      ensures displayedPokemon == ApplyFilters(allPokemon, searchQuery, selectedTypes)
      ensures allPokemon == old(allPokemon) && searchQuery == old(searchQuery)
      ensures Valid()
    {
      var newTypes := Toggled(selectedTypes, t);
      displayedPokemon := ApplyFilters(allPokemon, searchQuery, newTypes);
      selectedTypes := newTypes;
    }

    /** `handleClearFilters`: no type selected, the query kept. */
    method HandleClearFilters()
      modifies this
      ensures selectedTypes == []
      ensures displayedPokemon == ApplyFilters(allPokemon, searchQuery, [])
      ensures allPokemon == old(allPokemon) && searchQuery == old(searchQuery)
      ensures Valid()
    {
      selectedTypes := [];
      displayedPokemon := ApplyFilters(allPokemon, searchQuery, []);
    }
  }

  /** A search typed while a batch loads is lost on the grid: an entry of
      the batch that the click-time filters keep is shown although the
      current query excludes it. */
  lemma StaleLoadShowsExcluded(loaded: seq<Pokemon>, p: Pokemon, clickQuery: string,
                               query: string, types: seq<string>)
    requires Selected(p, clickQuery, types) && query != "" && !MatchesQuery(p, query)
    ensures p in ApplyFilters(loaded + [p], clickQuery, types)
    ensures p !in ApplyFilters(loaded + [p], query, types)
  {
    assert p in loaded + [p];
  }

  /** After clearing, an entry is shown exactly when it matches the query
      (or the query is empty). */
  lemma ClearedShowsQueryMatches(pokemon: seq<Pokemon>, query: string, p: Pokemon)
    ensures p in ApplyFilters(pokemon, query, []) <==> p in pokemon && (query == "" || MatchesQuery(p, query))
  {
  }
}
