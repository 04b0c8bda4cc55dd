/** The catalog's data types and pure helpers (src/services/pokemonService.ts):
    choosing the English species texts and the id a list item's URL names. */
module PokemonService {
  import opened Text

  /** URLs that the API may leave null are strings here, with "" standing
      for null (both are falsy). */
  datatype Sprites = Sprites(frontDefault: string, officialArtwork: string)

  datatype Stat = Stat(baseStat: int, name: string)

  /** A catalog entry; `types` and `abilities` hold the nested `name`s. */
  datatype Pokemon = Pokemon(
    id: int,
    name: string,
    sprites: Option<Sprites>,
    types: seq<string>,
    stats: seq<Stat>,
    abilities: seq<string>)

  datatype ListItem = ListItem(name: string, url: string)

  datatype FlavorTextEntry = FlavorTextEntry(flavorText: string, language: string)

  datatype GenusEntry = GenusEntry(genus: string, language: string)

  datatype Species = Species(flavorTextEntries: seq<FlavorTextEntry>, genera: seq<GenusEntry>)

  /** `xs.findIndex(x => x.language.name === "en")` over the language names. */
  function FirstEnglish(languages: seq<string>): (r: Option<nat>)
    ensures r.None? <==> "en" !in languages
    ensures r.Some? ==> r.value < |languages| && languages[r.value] == "en"
    ensures r.Some? ==> forall k :: 0 <= k < r.value ==> languages[k] != "en"
  {
    if "en" in languages then
      var k := IndexOf(languages, "en");
      assert forall j :: 0 <= j < k ==> languages[j] == languages[..k][j];
      Some(k)
    else None
  }

  /** The language name of each entry, in order. */
  function Languages<E>(es: seq<E>, language: E -> string): (r: seq<string>)
    ensures |r| == |es| && forall i :: 0 <= i < |es| ==> r[i] == language(es[i])
  {
    if es == [] then [] else [language(es[0])] + Languages(es[1..], language)
  }

  const NoDescription: string := "No description available."

  /** The fallback genus, exactly as the source spells it. */
  const GenusFallback: string := "Pok\U{221A}\U{00A9}mon"

  /** `getEnglishDescription`: the first English flavour text with every
      form feed turned into a space, or the placeholder. */
  function EnglishDescription(sp: Species): (r: string)
    ensures var es := sp.flavorTextEntries;
      (forall i :: 0 <= i < |es| ==> es[i].language != "en") ==> r == NoDescription
    ensures var es := sp.flavorTextEntries;
      forall i :: 0 <= i < |es| && es[i].language == "en" &&
                  (forall j :: 0 <= j < i ==> es[j].language != "en") ==>
        var text := es[i].flavorText;
        |r| == |text| && '\U{000C}' !in r &&
        forall k :: 0 <= k < |text| ==> r[k] == if text[k] == '\U{000C}' then ' ' else text[k]
  {
    var es := sp.flavorTextEntries;
    match FirstEnglish(Languages(es, (e: FlavorTextEntry) => e.language))
    case None => NoDescription
    case Some(i) =>
      ReplaceAll(es[i].flavorText, '\U{000C}', ' ')
  }

  /** `getEnglishGenus`: the first English genus as it is, or the fallback. */
  function EnglishGenus(sp: Species): (r: string)
    ensures var es := sp.genera;
      (forall i :: 0 <= i < |es| ==> es[i].language != "en") ==> r == GenusFallback
    ensures var es := sp.genera;
      forall i :: 0 <= i < |es| && es[i].language == "en" &&
                  (forall j :: 0 <= j < i ==> es[j].language != "en") ==>
        r == es[i].genus
  {
    var es := sp.genera;
    match FirstEnglish(Languages(es, (e: GenusEntry) => e.language))
    case None => GenusFallback
    case Some(i) =>
      es[i].genus
  }

  /** `parts.filter(Boolean)`: the non-empty parts. */
  function NonEmpty(parts: seq<string>): (r: seq<string>)
    ensures forall i :: 0 <= i < |r| ==> r[i] != []
  {
    if parts == [] then []
    else NonEmpty(parts[..|parts| - 1]) + (if parts[|parts| - 1] == [] then [] else [parts[|parts| - 1]])
  }

  /** `url.split('/').filter(Boolean).pop()`. */
  function LastSegment(url: string): (r: Option<string>)
    ensures r.Some? ==> r.value != [] && '/' !in r.value
  {
    var segments := NonEmpty(Split(url, '/'));
    if segments == [] then None
    else
      SegmentsHaveNoSlash(url);
      Some(segments[|segments| - 1])
  }

  lemma SegmentsHaveNoSlash(url: string)
    ensures forall i :: 0 <= i < |NonEmpty(Split(url, '/'))| ==> '/' !in NonEmpty(Split(url, '/'))[i]
  {
    var parts := Split(url, '/');
    NonEmptyKeeps(parts);
    forall i | 0 <= i < |NonEmpty(parts)| ensures '/' !in NonEmpty(parts)[i] {
      assert NonEmpty(parts)[i] in parts;
    }
  }

  lemma {:induction false} NonEmptyKeeps(parts: seq<string>)
    ensures forall x :: x in NonEmpty(parts) ==> x in parts
    decreases |parts|
  {
    if parts != [] {
      NonEmptyKeeps(parts[..|parts| - 1]);
    }
  }

  /** `url` with its trailing slashes removed. */
  function TrimTrailingSlashes(url: string): (t: string)
    ensures t <= url && (t == [] || t[|t| - 1] != '/')
    ensures forall i :: |t| <= i < |url| ==> url[i] == '/'
  {
    if url != [] && url[|url| - 1] == '/' then TrimTrailingSlashes(url[..|url| - 1]) else url
  }

  /** The segment is the run of non-slash characters just before the
      trailing slashes; there is none when the URL is all slashes. */
  lemma {:induction false} LastSegmentIsFinalRun(url: string)
    ensures var t := TrimTrailingSlashes(url);
      LastSegment(url) == if t == [] then None else Some(TrailingPiece(t, '/'))
    decreases |url|
  {
    if url == [] {
      assert NonEmpty(Split(url, '/')) == [];
    } else if url[|url| - 1] == '/' {
      var u := url[..|url| - 1];
      LastSegmentIsFinalRun(u);
      var init := Split(u, '/');
      assert Split(url, '/') == init + [""];
      NonEmptyDropsEmpty(init);
      assert LastSegment(url) == LastSegment(u);
    } else {
      var parts := Split(url, '/');
      SplitLastIsTrailingPiece(url, '/');
      var last := parts[|parts| - 1];
      assert last != [] by {
        assert TrailingPiece(url, '/') == TrailingPiece(url[..|url| - 1], '/') + [url[|url| - 1]];
      }
      var segments := NonEmpty(parts);
      assert segments == NonEmpty(parts[..|parts| - 1]) + [last];
    }
  }

  lemma NonEmptyDropsEmpty(parts: seq<string>)
    ensures NonEmpty(parts + [""]) == NonEmpty(parts)
  {
    assert (parts + [""])[..|parts|] == parts;
  }

  /** The id a list item requests its details by: the URL's last segment,
      or the name when the URL has none (`id || item.name`). */
  function RequestedId(item: ListItem): (r: string)
    ensures LastSegment(item.url).None? ==> r == item.name
    ensures LastSegment(item.url).Some? ==> r == LastSegment(item.url).value && '/' !in r && r != []
  {
    match LastSegment(item.url)
    case None => item.name
    case Some(id) => id
  }

  /** `loadPokemonBatch`: one details request per list item, in order. */
  function BatchRequests(items: seq<ListItem>): (r: seq<string>)
    ensures |r| == |items|
    ensures forall i :: 0 <= i < |items| ==> r[i] == RequestedId(items[i])
  {
    if items == [] then [] else [RequestedId(items[0])] + BatchRequests(items[1..])
  }
}
