/** The detail view's display helpers (src/components/PokemonDetail.tsx):
    the `#001` id badge, the stat labels and colours, the type colour class,
    the ability labels and the image source. */
module PokemonDetail {
  import opened Text
  import opened PokemonService

  /** `formatPokemonId`: `#` and the id's decimal text left-padded with `0`
      to three characters. */
  function FormatPokemonId(id: int): (r: string)
    ensures |r| >= 4 && r[0] == '#'
    ensures |r| == Max(4, |IntToString(id)| + 1)
    ensures r[|r| - |IntToString(id)|..] == IntToString(id)
    ensures forall i :: 1 <= i < |r| - |IntToString(id)| ==> r[i] == '0'
  {
    "#" + PadStart(IntToString(id), 3, '0')
  }

  /** The number of digits of `n` is at most three exactly when `n` is
      below 1000. */
  lemma ThreeDigitsBelow1000(n: nat)
    ensures |NatToString(n)| <= 3 <==> n < 1000
  {
    if n >= 10 {
      assert NatToString(n) == NatToString(n / 10) + [DigitChar(n % 10)];
      if n / 10 >= 10 {
        assert NatToString(n / 10) == NatToString(n / 100) + [DigitChar((n / 10) % 10)];
        if n / 100 >= 10 {
          assert NatToString(n / 100) == NatToString(n / 1000) + [DigitChar((n / 100) % 10)];
        }
      }
    }
  }

  /** The badge of a non-negative id is four characters below 1000 and
      carries no pad from 1000 on; after the `#` it is all digits whose
      value is the id. */
  lemma FormatPokemonIdReadsBack(id: nat)
    ensures var r := FormatPokemonId(id);
      (id < 1000 <==> |r| == 4) &&
      (id >= 1000 ==> r == "#" + NatToString(id)) &&
      IsDigits(r[1..]) && DecimalValue(r[1..]) == id
  {
    var digits := NatToString(id);
    assert IntToString(id) == digits;
    ThreeDigitsBelow1000(id);
    PaddedDigitsReadBack(digits);
    NatToStringRoundTrip(id);
    assert FormatPokemonId(id)[1..] == PadStart(digits, 3, '0');
  }

  lemma PaddedDigitsReadBack(digits: string)
    requires IsDigits(digits)
    ensures IsDigits(PadStart(digits, 3, '0'))
    ensures DecimalValue(PadStart(digits, 3, '0')) == DecimalValue(digits)
  {
    if |digits| < 3 {
      var zeros := Repeat('0', 3 - |digits|);
      assert PadStart(digits, 3, '0') == zeros + digits;
      DecimalValueLeadingZeros(zeros, digits);
    }
  }

  const StatNames: seq<string> := ["hp", "attack", "defense", "special-attack", "special-defense", "speed"]

  /** `formatStatName`: the six known stats get their short labels, any
      other name is shown as it is. */
  function FormatStatName(stat: string): (r: string)
    ensures stat !in StatNames ==> r == stat
  {
    match stat
    case "hp" => "HP"
    case "attack" => "Attack"
    case "defense" => "Defense"
    case "special-attack" => "Sp. Atk"
    case "special-defense" => "Sp. Def"
    case "speed" => "Speed"
    case _ => stat
  }

  const DefaultStatColor: string := "bg-gray-500"

  /** `getStatColor`: a colour class per known stat, grey for the rest. */
  function GetStatColor(statName: string): (r: string)
    ensures statName !in StatNames ==> r == DefaultStatColor
  {
    match statName
    case "hp" => "bg-green-500"
    case "attack" => "bg-red-500"
    case "defense" => "bg-blue-500"
    case "special-attack" => "bg-purple-500"
    case "special-defense" => "bg-teal-500"
    case "speed" => "bg-yellow-500"
    case _ => DefaultStatColor
  }

  /** Each known stat has its own colour, and none of them is the default. */
  lemma KnownStatColorsDistinct(i: nat, j: nat)
    requires i < |StatNames| && j < |StatNames|
    ensures GetStatColor(StatNames[i]) != DefaultStatColor
    ensures i != j ==> GetStatColor(StatNames[i]) != GetStatColor(StatNames[j])
  {
  }

  /** Each known stat has its own label, and no label is itself a known
      stat name. */
  lemma KnownStatLabelsDistinct(i: nat, j: nat)
    requires i < |StatNames| && j < |StatNames|
    ensures FormatStatName(StatNames[i]) !in StatNames
    ensures i != j ==> FormatStatName(StatNames[i]) != FormatStatName(StatNames[j])
  {
  }

  /** `getTypeColor` (here and in the card): the Tailwind class of a type. */
  function TypeColor(t: string): (r: string)
    ensures |r| == |t| + 8 && r[..8] == "bg-type-" && r[8..] == t
  {
    "bg-type-" + t
  }

  /** Different types get different classes. */
  lemma TypeColorInjective(a: string, b: string)
    requires TypeColor(a) == TypeColor(b)
    ensures a == b
  {
    assert a == TypeColor(a)[8..];
  }

  /** An ability's label: `name.replace('-', ' ')` turns only the first
      hyphen into a space. */
  function AbilityLabel(name: string): (r: string)
    ensures |r| == |name|
    ensures '-' !in name ==> r == name
    ensures '-' in name ==> r[IndexOf(name, '-')] == ' '
    ensures '-' in name ==> forall k :: 0 <= k < |name| && k != IndexOf(name, '-') ==> r[k] == name[k]
  {
    ReplaceFirst(name, '-', ' ')
  }

  /** A name with two hyphens keeps the second one. */
  lemma AbilityLabelKeepsLaterHyphens()
    ensures AbilityLabel("a-b-c") == "a b-c"
  {
    assert IndexOf("a-b-c", '-') == 1;
  }

  /** The image: the official artwork when that URL is truthy, the default
      sprite otherwise. The detail view reads the sprites without a guard
      and the entry's type declares them, so they are taken as present. */
  function ImageSource(sprites: Sprites): (r: string)
    ensures sprites.officialArtwork != "" ==> r == sprites.officialArtwork
    ensures sprites.officialArtwork == "" ==> r == sprites.frontDefault
  {
    if sprites.officialArtwork != "" then sprites.officialArtwork else sprites.frontDefault
  }

  /** One row of the stats table. */
  datatype StatRow = StatRow(title: string, value: int, color: string)

  /** The rows of the stats table, one per stat in order. */
  function StatRows(stats: seq<Stat>): (r: seq<StatRow>)
    ensures |r| == |stats|
    ensures forall i :: 0 <= i < |stats| ==>
      r[i] == StatRow(FormatStatName(stats[i].name), stats[i].baseStat, GetStatColor(stats[i].name))
  {
    if stats == [] then []
    else [StatRow(FormatStatName(stats[0].name), stats[0].baseStat, GetStatColor(stats[0].name))] + StatRows(stats[1..])
  }

  /** The ability chips, one per ability in order. */
  function AbilityLabels(abilities: seq<string>): (r: seq<string>)
    ensures |r| == |abilities|
    ensures forall i :: 0 <= i < |abilities| ==> r[i] == AbilityLabel(abilities[i])
  {
    if abilities == [] then [] else [AbilityLabel(abilities[0])] + AbilityLabels(abilities[1..])
  }
}
