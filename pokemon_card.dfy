/** A grid card (src/components/PokemonCard.tsx): the id badge, the type
    badges and the image, shown only when the entry has sprites. The card's
    own `formatPokemonId` and `getTypeColor` are the same code as the
    detail view's, so both use `PokemonDetail.FormatPokemonId` and
    `PokemonDetail.TypeColor`. */
module PokemonCard {
  import opened Text
  import opened PokemonService
  import opened PokemonDetail

  /** The badge in the corner of the card. */
  function CardBadge(p: Pokemon): (r: string)
    ensures |r| == Max(4, |IntToString(p.id)| + 1) && r[0] == '#'
    ensures r[|r| - |IntToString(p.id)|..] == IntToString(p.id)
  {
    FormatPokemonId(p.id)
  }

  /** The type badges' colour classes, one per type in order. */
  function TypeBadges(types: seq<string>): (r: seq<string>)
    ensures |r| == |types|
    ensures forall i :: 0 <= i < |types| ==> r[i] == TypeColor(types[i]) && r[i][8..] == types[i]
  {
    if types == [] then [] else [TypeColor(types[0])] + TypeBadges(types[1..])
  }

  /** `pokemon.sprites && <img src={artwork || front_default}>`. */
  function CardImage(p: Pokemon): (r: Option<string>)
    ensures r.None? <==> p.sprites.None?
    ensures r.Some? && p.sprites.value.officialArtwork != "" ==> r.value == p.sprites.value.officialArtwork
    ensures r.Some? && p.sprites.value.officialArtwork == "" ==> r.value == p.sprites.value.frontDefault
  {
    match p.sprites
    case None => None
    case Some(s) => Some(ImageSource(s))
  }
}
