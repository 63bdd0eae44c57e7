/**
 * The localised labels of `process_data`: the fixed English-token to Turkish-label tables,
 * the month's "first comma-separated token, trimmed" step, and the calendar-ordered month
 * categorical.
 */
module Labels {
  import opened Wrappers
  import opened Frames

  /** The categories of the month column, in calendar order. */
  const MonthOrder: seq<string> := ["Ocak", "Şubat", "Mart", "Nisan", "Mayıs", "Haziran",
                                    "Temmuz", "Ağustos", "Eylül", "Ekim", "Kasım", "Aralık"]

  /** A code of the ordered month categorical: 0 is "Ocak", 11 is "Aralık". */
  type MonthIndex = m: nat | m < 12

  const MonthTable: map<string, string> := map[
    "Jan" := "Ocak", "Feb" := "Şubat", "Mar" := "Mart", "Apr" := "Nisan", "May" := "Mayıs",
    "Jun" := "Haziran", "Jul" := "Temmuz", "Aug" := "Ağustos", "Sep" := "Eylül",
    "Oct" := "Ekim", "Nov" := "Kasım", "Dec" := "Aralık"]

  /**
   * The species dict, entry for entry, written as the union of its second and first halves:
   * the verifier does not see into a single 51-entry map display. The halves share no token, so
   * their union is the dict whichever half is written first.
   */
  const SpeciesTable: map<string, string> := SpeciesSecondHalf + SpeciesFirstHalf

  const SpeciesFirstHalf: map<string, string> := map[
    "Stork" := "Leylek", "Warder" := "Balıkçı", "Crane" := "Turna", "Hawk" := "Şahin",
    "Goose" := "Kaz", "Eagle" := "Kartal", "Owl" := "Baykuş", "Robin" := "Kızılgerdan",
    "Sparrow" := "Serçe", "Seagull" := "Martı", "Pelican" := "Pelikan", "Duck" := "Ördek",
    "Pigeon" := "Güvercin", "Crow" := "Karga", "Penguin" := "Penguen", "Ostrich" := "Devekuşu",
    "Kiwi" := "Kivi", "Parrot" := "Papağan", "Flamingo" := "Flamingo", "Swan" := "Kuğu",
    "Falcon" := "Atmaca", "Vulture" := "Akbaba", "Hummingbird" := "Sinekkuşu",
    "Woodpecker" := "Ağaçkakan", "Kingfisher" := "Yalıçapkını", "Osprey" := "Balık Kartalı"]

  const SpeciesSecondHalf: map<string, string> := map[
    "Albatross" := "Albatros", "Condor" := "Kondor", "Macaw" := "Ara", "Canary" := "Kanarya",
    "Quail" := "Bıldırcın", "Raven" := "Kuzgun", "Rooster" := "Horoz", "Sandpiper" := "Kumkuşu",
    "Skylark" := "Tarlakuşu", "Starling" := "Sığırcık", "Swallow" := "Kırlangıç", "Toucan" := "Tukan",
    "Turkey" := "Hindi", "Wren" := "Çitkuşu", "Puffin" := "Deniz Papağanı", "Cormorant" := "Karabatak",
    "Heron" := "Balıkçıl", "Ibis" := "İbis", "Plover" := "Kıyı Kuşu", "Teal" := "Çamurcun",
    "Wagtail" := "Kuyruksallayan", "Woodcock" := "Çulluk", "Pipit" := "İncirkuşu",
    "Other" := "Diğer", "Unknown" := "Bilinmeyen"]

  /** The region dict, written like the species dict as the union of its two halves. */
  const RegionTable: map<string, string> := RegionSecondHalf + RegionFirstHalf

  const RegionFirstHalf: map<string, string> := map[
    "North America" := "Kuzey Amerika", "South America" := "Güney Amerika", "Europe" := "Avrupa",
    "Asia" := "Asya", "Africa" := "Afrika", "Oceania" := "Okyanusya", "Arctic" := "Arktik",
    "Antarctic" := "Antarktika", "Grassland" := "Otlak", "Forest" := "Orman", "Urban" := "Kentsel",
    "Coastal" := "Kıyı", "Wetland" := "Sulak Alan", "Mountain" := "Dağlık Bölge", "Desert" := "Çöl",
    "Tundra" := "Tundra"]

  const RegionSecondHalf: map<string, string> := map[
    "Tropikal" := "Tropikal", "Temperate" := "Ilıman", "Polar" := "Kutup",
    "Continental" := "Kıtasal", "Ada" := "Ada", "Denizel" := "Denizel", "Riverine" := "Nehir Kıyısı",
    "Savanna" := "Savana", "Steppe" := "Step", "Taiga" := "Tayga", "Subtropical" := "Subtropikal",
    "Mediterranean" := "Akdeniz", "Boreal" := "Boreal", "Alpine" := "Alpin",
    "Other" := "Diğer", "Unknown" := "Bilinmeyen"]

  const ReasonTable: map<string, string> := map[
    "Feeding" := "Beslenme", "Breeding" := "Üreme", "Climate" := "İklim Koşulları",
    "Shelter" := "Barınma", "Predator Avoidance" := "Avcıdan Kaçınma",
    "Climate Change" := "İlim Değişikliği", "Resource Scarcity" := "Kaynak Kıtlığı",
    "Nesting Site" := "Yuvalama Alanı", "Safety" := "Güvenlik",
    "Seasonal Change" := "Mevsimsel Değişim", "Food Availability" := "Yiyecek Bulunabilirliği",
    "Water Availability" := "Su Bulunabilirliği", "Habitat Loss" := "Habitat Kaybı",
    "Other" := "Diğer", "Unknown" := "Bilinmeyen"]

  /** The fill values of `fillna`, one per derived column. */
  const UnknownMonth: string := "Bilinmeyen Ay"
  const UnknownSpecies: string := "Bilinmeyen Tür"
  const UnknownRegion: string := "Bilinmeyen Bölge"
  const UnknownReason: string := "Bilinmeyen Neden"

  /*
   * Proof helpers. The verifier handles a long map display of string literals slowly, entry by
   * entry; the species and region tables are therefore written as unions of two halves, and the
   * lemmas below state, one half at a time, the facts about them that the lemmas on labels need.
   * They say nothing about app.py beyond what the tables themselves say.
   */

  /** A species token of the first half has its first-half label. */
  lemma SpeciesFromFirstHalf(k: string)
    requires k in SpeciesFirstHalf
    ensures k in SpeciesTable && SpeciesTable[k] == SpeciesFirstHalf[k]
  {
  }

  /** A region token of the first half has its first-half label. */
  lemma RegionFromFirstHalf(k: string)
    requires k in RegionFirstHalf
    ensures k in RegionTable && RegionTable[k] == RegionFirstHalf[k]
  {
  }

  /** No species label of the first half is the species sentinel. */
  lemma SpeciesFirstHalfNotSentinel()
    ensures forall k :: k in SpeciesFirstHalf ==> SpeciesFirstHalf[k] != UnknownSpecies
  {
  }

  /** Nor of the second half. */
  lemma SpeciesSecondHalfNotSentinel()
    ensures forall k :: k in SpeciesSecondHalf ==> SpeciesSecondHalf[k] != UnknownSpecies
  {
  }

  /** No region label of the first half is the region sentinel. */
  lemma RegionFirstHalfNotSentinel()
    ensures forall k :: k in RegionFirstHalf ==> RegionFirstHalf[k] != UnknownRegion
  {
  }

  /** Nor of the second half. */
  lemma RegionSecondHalfNotSentinel()
    ensures forall k :: k in RegionSecondHalf ==> RegionSecondHalf[k] != UnknownRegion
  {
  }

  /** No reason label is the reason sentinel. */
  lemma ReasonsNotSentinel()
    ensures forall k :: k in ReasonTable ==> ReasonTable[k] != UnknownReason
  {
  }

  /** Python's `str.isspace`, the characters `str.strip()` removes. */
  predicate IsSpace(c: char): (b: bool)
    ensures c == ' ' || c == '\t' || c == '\n' || c == '\r' ==> b
    ensures '!' <= c <= '~' ==> !b
  {
    ('\t' <= c <= '\r') || ('\U{1C}' <= c <= ' ') || c == '\U{85}' || c == '\U{A0}' ||
    c == '\U{1680}' || ('\U{2000}' <= c <= '\U{200A}') || c == '\U{2028}' || c == '\U{2029}' ||
    c == '\U{202F}' || c == '\U{205F}' || c == '\U{3000}'
  }

  /** `s.split(',')[0]`: the text before the first comma, or all of `s` when it has none. */
  function FirstToken(s: string): (r: string)
    ensures |r| <= |s| && r == s[..|r|]
    ensures ',' !in r
    ensures |r| < |s| ==> s[|r|] == ','
  {
    if s == [] || s[0] == ',' then [] else [s[0]] + FirstToken(s[1..])
  }

  /** `s.lstrip()`: drop leading whitespace. */
  function TrimStart(s: string): (r: string)
    ensures |r| <= |s| && r == s[|s| - |r|..]
    ensures forall k :: 0 <= k < |s| - |r| ==> IsSpace(s[k])
    ensures r == [] || !IsSpace(r[0])
  {
    if s != [] && IsSpace(s[0]) then TrimStart(s[1..]) else s
  }

  /** `s.rstrip()`: drop trailing whitespace. */
  function TrimEnd(s: string): (r: string)
    ensures |r| <= |s| && r == s[..|r|]
    ensures forall k :: |r| <= k < |s| ==> IsSpace(s[k])
    ensures r == [] || !IsSpace(r[|r| - 1])
  {
    if s != [] && IsSpace(s[|s| - 1]) then TrimEnd(s[..|s| - 1]) else s
  }

  /** `s.strip()`. */
  function Strip(s: string): (r: string)
    ensures |r| <= |s|
    ensures r == [] || (!IsSpace(r[0]) && !IsSpace(r[|r| - 1]))
  {
    TrimEnd(TrimStart(s))
  }

  /**
   * `strip` keeps one contiguous stretch of `s` that neither starts nor ends with whitespace,
   * and everything it drops is whitespace.
   */
  lemma StripSpec(s: string)
    ensures var r, lead := Strip(s), |s| - |TrimStart(s)|;
      && lead + |r| <= |s| && r == s[lead..lead + |r|]
      && (r == [] || (!IsSpace(r[0]) && !IsSpace(r[|r| - 1])))
      && (forall k :: 0 <= k < lead ==> IsSpace(s[k]))
      && (forall k :: lead + |r| <= k < |s| ==> IsSpace(s[k]))
  {
    var t := TrimStart(s);
    var r := TrimEnd(t);
    var lead := |s| - |t|;
    assert t == s[lead..];
    assert r == t[..|r|];
    forall k | lead + |r| <= k < |s| ensures IsSpace(s[k]) {
      assert s[k] == t[k - lead];
    }
  }

  /** The month token a cell yields: the first comma-separated part of its text, trimmed. */
  function MonthToken(c: Cell): (r: Option<string>)
    ensures r.Some? <==> c.Text?
    ensures r.Some? ==> ',' !in r.value
    ensures r.Some? ==> r.value == [] || (!IsSpace(r.value[0]) && !IsSpace(r.value[|r.value| - 1]))
  {
    if c.Text? then
      StripAddsNothing(FirstToken(c.s), ',');
      Some(Strip(FirstToken(c.s)))
    else None
  }

  /** A text cell's month token is its first comma-separated part with surrounding whitespace stripped. */
  lemma MonthTokenOfText(s: string)
    ensures MonthToken(Text(s)) == Some(Strip(FirstToken(s)))
  {
  }

  /** `strip` adds no character: what `s` lacks, its stripped text lacks too. */
  lemma StripAddsNothing(s: string, ch: char)
    requires ch !in s
    ensures ch !in Strip(s)
  {
    StripSpec(s);
    var lead := |s| - |TrimStart(s)|;
    assert forall k :: 0 <= k < |Strip(s)| ==> Strip(s)[k] == s[lead + k];
  }

  /** The categorical code of a name: its position in `MonthOrder`, or none (NaN). */
  function MonthCode(name: string): (r: Option<MonthIndex>)
    ensures r.Some? <==> name in MonthOrder
    ensures r.Some? ==> MonthOrder[r.value] == name
  {
    CodeFrom(name, 0)
  }

  function CodeFrom(name: string, k: nat): (r: Option<MonthIndex>)
    requires k <= 12
    ensures r.Some? <==> name in MonthOrder[k..]
    ensures r.Some? ==> k <= r.value && MonthOrder[r.value] == name
    decreases 12 - k
  {
    if k == 12 then None
    else if MonthOrder[k] == name then Some(k)
    else CodeFrom(name, k + 1)
  }

  /**
   * The month label of one row: the token's Turkish name through `MonthTable`, "Bilinmeyen Ay"
   * when the token is not in it, and then the ordered categorical over `MonthOrder`, under which
   * every value that is not one of the twelve names becomes missing. A number or NaN in the
   * month column turns into text ("4.0", "nan") that is no key of `MonthTable`.
   */
  function MonthLabel(c: Cell): (r: Option<MonthIndex>)
    ensures r.Some? <==> MonthToken(c).Some? && MonthToken(c).value in MonthTable
    ensures r.Some? ==> MonthOrder[r.value] == MonthTable[MonthToken(c).value]
  {
    var tok := MonthToken(c);
    var name := if tok.Some? && tok.value in MonthTable then MonthTable[tok.value] else UnknownMonth;
    MonthTableValues();
    MonthCode(name)
  }

  /** Every value of `MonthTable` is one of the twelve categories; its fallback is not. */
  lemma MonthTableValues()
    ensures forall k :: k in MonthTable ==> MonthTable[k] in MonthOrder
    ensures UnknownMonth !in MonthOrder
  {
  }

  /** The twelve categories are distinct, so each month has exactly one code. */
  lemma MonthOrderDistinct()
    ensures forall i, j :: 0 <= i < j < |MonthOrder| ==> MonthOrder[i] != MonthOrder[j]
  {
  }

  /** `series.map(table).fillna(sentinel)` on one cell: exact lookup of its text, else the sentinel. */
  function CategoryLabel(table: map<string, string>, sentinel: string, c: Cell): (r: string)
    ensures c.Text? && c.s in table ==> r == table[c.s]
    ensures !(c.Text? && c.s in table) ==> r == sentinel
  {
    if c.Text? && c.s in table then table[c.s] else sentinel
  }

  /** The species label of a cell: its entry in the species dict, or "Bilinmeyen Tür". */
  function SpeciesLabel(c: Cell): (r: string)
    ensures c.Text? && c.s in SpeciesTable ==> r == SpeciesTable[c.s]
    ensures !(c.Text? && c.s in SpeciesTable) ==> r == UnknownSpecies
  {
    CategoryLabel(SpeciesTable, UnknownSpecies, c)
  }

  /** The region label of a cell: its entry in the region dict, or "Bilinmeyen Bölge". */
  function RegionLabel(c: Cell): (r: string)
    ensures c.Text? && c.s in RegionTable ==> r == RegionTable[c.s]
    ensures !(c.Text? && c.s in RegionTable) ==> r == UnknownRegion
  {
    CategoryLabel(RegionTable, UnknownRegion, c)
  }

  /** The reason label of a cell: its entry in the reason dict, or "Bilinmeyen Neden". */
  function ReasonLabel(c: Cell): (r: string)
    ensures c.Text? && c.s in ReasonTable ==> r == ReasonTable[c.s]
    ensures !(c.Text? && c.s in ReasonTable) ==> r == UnknownReason
  {
    CategoryLabel(ReasonTable, UnknownReason, c)
  }

  /**
   * A derived species label is the sentinel exactly when the cell is not one of the table's
   * tokens: no value of the species table is the sentinel.
   */
  lemma SpeciesSentinelIffUnmatched(c: Cell)
    ensures SpeciesLabel(c) == UnknownSpecies <==> !(c.Text? && c.s in SpeciesTable)
  {
    SpeciesFirstHalfNotSentinel();
    SpeciesSecondHalfNotSentinel();
  }

  /** The same for regions. */
  lemma RegionSentinelIffUnmatched(c: Cell)
    ensures RegionLabel(c) == UnknownRegion <==> !(c.Text? && c.s in RegionTable)
  {
    RegionFirstHalfNotSentinel();
    RegionSecondHalfNotSentinel();
  }

  /** The same for migration reasons. */
  lemma ReasonSentinelIffUnmatched(c: Cell)
    ensures ReasonLabel(c) == UnknownReason <==> !(c.Text? && c.s in ReasonTable)
  {
    ReasonsNotSentinel();
  }

  /**
   * The literal token "Unknown" gets the generic "Bilinmeyen", not the category's sentinel: a
   * species written "Unknown" and a species that matches nothing end up under different labels.
   */
  lemma UnknownSpeciesToken()
    ensures SpeciesLabel(Text("Unknown")) == "Bilinmeyen" != UnknownSpecies
  {
  }

  /** The same for regions. */
  lemma UnknownRegionToken()
    ensures RegionLabel(Text("Unknown")) == "Bilinmeyen" != UnknownRegion
  {
  }

  /** The same for migration reasons. */
  lemma UnknownReasonToken()
    ensures ReasonLabel(Text("Unknown")) == "Bilinmeyen" != UnknownReason
  {
  }

  /** A text without commas is its own first token. */
  lemma {:induction false} FirstTokenWithoutComma(s: string)
    requires ',' !in s
    ensures FirstToken(s) == s
  {
    if s != [] {
      assert ',' !in s[1..] by {
        assert forall k :: 0 <= k < |s| - 1 ==> s[1..][k] == s[k + 1];
      }
      FirstTokenWithoutComma(s[1..]);
    }
  }

  /**
   * A text without commas that neither starts nor ends with whitespace is its own month token:
   * split and strip leave it alone.
   */
  lemma CleanToken(s: string)
    requires ',' !in s
    requires s == [] || (!IsSpace(s[0]) && !IsSpace(s[|s| - 1]))
    ensures MonthToken(Text(s)) == Some(s)
  {
    FirstTokenWithoutComma(s);
  }

  /** The month token of the cell "Apr" is "Apr": it has no comma and no surrounding space. */
  lemma AprilToken()
    ensures MonthToken(Text("Apr")) == Some("Apr")
  {
    CleanToken("Apr");
  }

  /** The month label of a stork flying from Europe in April: "Apr" becomes "Nisan", code 3. */
  lemma AprilLabel()
    ensures MonthLabel(Text("Apr")) == Some(3) && MonthOrder[3] == "Nisan"
  {
    AprilToken();
    assert "Apr" in MonthTable && MonthTable["Apr"] == "Nisan";
    var m := MonthLabel(Text("Apr"));
    assert m.Some? && MonthOrder[m.value] == "Nisan";
    assert MonthOrder[3] == "Nisan";
    MonthOrderDistinct();
  }

  /** The species label of a stork. */
  lemma StorkLabel()
    ensures SpeciesLabel(Text("Stork")) == "Leylek"
  {
    SpeciesFromFirstHalf("Stork");
  }

  /** The region label of Europe. */
  lemma EuropeLabel()
    ensures RegionLabel(Text("Europe")) == "Avrupa"
  {
  }

  /** The reason label of breeding. */
  lemma BreedingLabel()
    ensures ReasonLabel(Text("Breeding")) == "Üreme"
  {
  }
}
