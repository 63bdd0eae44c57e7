/**
 * The prediction panel of app.py: the Turkish options the panel offers, the dictionaries that
 * translate them into the English vocabulary the classifier was fitted on, the one-row request
 * with its nine columns in the classifier's order, and the verdict shown from its answer.
 */
module Prediction {
  import opened Frames
  import opened Labels

  const WeatherOptions: seq<string> := ["Güneşli", "Bulutlu", "Yağmurlu", "Rüzgarlı", "Sisli"]
  const SpeciesOptions: seq<string> :=
    ["Leylek", "Kaz", "Turna", "Şahin", "Kızılgerdan", "Serçe", "Kartal", "Baykuş", "Pelikan", "Ördek"]
  const RegionOptions: seq<string> := ["Avrupa", "Asya", "Kuzey Amerika", "Afrika", "Güney Amerika", "Okyanusya"]
  const MonthOptions: seq<string> := ["Ocak", "Şubat", "Mart", "Nisan", "Mayıs", "Haziran",
                                      "Temmuz", "Ağustos", "Eylül", "Ekim", "Kasım", "Aralık"]
  const FlockOptions: seq<string> := ["Evet", "Hayır"]

  const WeatherMap: map<string, string> :=
    map["Güneşli" := "Sunny", "Bulutlu" := "Cloudy", "Yağmurlu" := "Rainy", "Rüzgarlı" := "Windy", "Sisli" := "Foggy"]

  const SpeciesMap: map<string, string> := map[
    "Leylek" := "Stork", "Kaz" := "Goose", "Turna" := "Crane", "Şahin" := "Hawk",
    "Kızılgerdan" := "Robin", "Serçe" := "Sparrow", "Kartal" := "Eagle", "Baykuş" := "Owl",
    "Pelikan" := "Pelican", "Ördek" := "Duck"]

  /** `region_map`, written as the union of its two halves. */
  const RegionMap: map<string, string> := RegionMapSecondHalf + RegionMapFirstHalf

  const RegionMapFirstHalf: map<string, string> := map[
    "Kuzey Amerika" := "North America", "Güney Amerika" := "South America", "Avrupa" := "Europe",
    "Asya" := "Asia", "Afrika" := "Africa", "Okyanusya" := "Oceania", "Arktik" := "Arctic",
    "Antarktika" := "Antarctic", "Otlak" := "Grassland", "Orman" := "Forest", "Kentsel" := "Urban",
    "Kıyı" := "Coastal", "Sulak Alan" := "Wetland", "Dağlık Bölge" := "Mountain", "Çöl" := "Desert",
    "Tundra" := "Tundra"]

  const RegionMapSecondHalf: map<string, string> := map[
    "Tropikal" := "Tropical", "Ilıman" := "Temperate", "Kutup" := "Polar",
    "Kıtasal" := "Continental", "Ada" := "Island", "Denizel" := "Marine", "Nehir Kıyısı" := "Riverine",
    "Savana" := "Savanna", "Steppe" := "Steppe", "Tayga" := "Taiga", "Subtropikal" := "Subtropical",
    "Akdeniz" := "Mediterranean", "Boreal" := "Boreal", "Alpine" := "Alpine",
    "Diğer" := "Other", "Bilinmeyen" := "Unknown"]

  const MonthsMap: map<string, string> := map[
    "Ocak" := "Jan", "Şubat" := "Feb", "Mart" := "Mar", "Nisan" := "Apr", "Mayıs" := "May",
    "Haziran" := "Jun", "Temmuz" := "Jul", "Ağustos" := "Aug", "Eylül" := "Sep", "Ekim" := "Oct",
    "Kasım" := "Nov", "Aralık" := "Dec"]

  const FlockMap: map<string, string> := map["Evet" := "Yes", "Hayır" := "No"]

  /** The columns of the request, each with the name the classifier was fitted with. */
  datatype Column = Weather | Pressure | Month | Species | Region | Flock | Distance | Temperature | Wind {
    function Name(): (r: string)
      ensures r in InputDataColumns
    {
      match this
      case Weather => "Weather_Condition"
      case Pressure => "Pressure_hPa"
      case Month => "Migration_Start_Month"
      case Species => "Species"
      case Region => "Region"
      case Flock => "Migrated_in_Flock"
      case Distance => "Flight_Distance_km"
      case Temperature => "Temperature_C"
      case Wind => "Wind_Speed_kmh"
    }
  }

  /** `input_data_columns`: the header of the request, in the order the classifier reads it. */
  const InputDataColumns: seq<string> := [
    "Weather_Condition", "Pressure_hPa", "Migration_Start_Month",
    "Species", "Region", "Migrated_in_Flock", "Flight_Distance_km",
    "Temperature_C", "Wind_Speed_kmh"]

  /** The nine columns of the request, in the order the classifier reads them. */
  const InputColumns: seq<Column> :=
    [Weather, Pressure, Month, Species, Region, Flock, Distance, Temperature, Wind]

  /** `m.get(x, x)`: the translation of `x`, or `x` itself when the dictionary has no entry. */
  function Translate(m: map<string, string>, x: string): (r: string)
    ensures x in m ==> r == m[x]
    ensures x !in m ==> r == x
  {
    if x in m then m[x] else x
  }

  /**
   * A value of the request row: a categorical token, a float from a slider, or the integer of
   * the distance input (its bounds and step are integers).
   */
  datatype Feature = Token(s: string) | Decimal(x: real) | Whole(n: int)

  /** The panel's inputs as the widgets return them. */
  datatype Choices = Choices(
    weather: string, species: string, month: string, region: string, flock: string,
    pressure: real, distance: int, temperature: real, wind: real)

  /** The one-row DataFrame handed to the classifier: its columns and its row. */
  datatype Request = Request(columns: seq<Column>, row: seq<Feature>)

  /** The request holds `v` under the column `column`. */
  predicate Holds(r: Request, column: Column, v: Feature) {
    exists k :: 0 <= k < |r.columns| && k < |r.row| && r.columns[k] == column && r.row[k] == v
  }

  /** The request's columns, named, are exactly `input_data_columns`, position by position. */
  lemma ColumnNamesInOrder()
    ensures |InputColumns| == |InputDataColumns|
    ensures forall i :: 0 <= i < |InputColumns| ==> InputColumns[i].Name() == InputDataColumns[i]
  {
  }

  /** Every column is in the request, once, and no two share a name. */
  lemma InputColumnsExact()
    ensures forall c: Column :: c in InputColumns
    ensures forall i, j :: 0 <= i < j < |InputColumns| ==> InputColumns[i] != InputColumns[j]
    ensures forall i, j :: 0 <= i < j < |InputColumns| ==> InputColumns[i].Name() != InputColumns[j].Name()
  {
    forall c: Column
      ensures c in InputColumns
    {
      match c
      case Weather => assert InputColumns[0] == c;
      case Pressure => assert InputColumns[1] == c;
      case Month => assert InputColumns[2] == c;
      case Species => assert InputColumns[3] == c;
      case Region => assert InputColumns[4] == c;
      case Flock => assert InputColumns[5] == c;
      case Distance => assert InputColumns[6] == c;
      case Temperature => assert InputColumns[7] == c;
      case Wind => assert InputColumns[8] == c;
    }
  }

  /** Each column of a request built over the classifier's columns holds one value. */
  lemma HoldsOne(r: Request, column: Column, v: Feature, w: Feature)
    requires r.columns == InputColumns
    requires Holds(r, column, v) && Holds(r, column, w)
    ensures v == w
  {
    var i :| 0 <= i < |r.columns| && i < |r.row| && r.columns[i] == column && r.row[i] == v;
    var j :| 0 <= j < |r.columns| && j < |r.row| && r.columns[j] == column && r.row[j] == w;
    InputColumnsExact();
    assert !(i < j) && !(j < i);
  }

  /**
   * `pd.DataFrame([[...]], columns=input_data_columns)`: the nine values, already translated,
   * placed under the classifier's columns.
   */
  function RequestRow(weather: string, pressure: real, month: string, species: string, region: string,
                      flock: string, distance: int, temperature: real, wind: real): (r: Request)
    ensures r.columns == InputColumns && |r.row| == |InputColumns|
    ensures Holds(r, Weather, Token(weather)) && Holds(r, Pressure, Decimal(pressure))
    ensures Holds(r, Month, Token(month)) && Holds(r, Species, Token(species))
    ensures Holds(r, Region, Token(region)) && Holds(r, Flock, Token(flock))
    ensures Holds(r, Distance, Whole(distance)) && Holds(r, Temperature, Decimal(temperature))
    ensures Holds(r, Wind, Decimal(wind))
  {
    var r := Request(InputColumns, [Token(weather), Decimal(pressure), Token(month), Token(species),
                                    Token(region), Token(flock), Whole(distance), Decimal(temperature),
                                    Decimal(wind)]);
    assert r.columns[0] == Weather && r.columns[1] == Pressure && r.columns[2] == Month;
    assert r.columns[3] == Species && r.columns[4] == Region && r.columns[5] == Flock;
    assert r.columns[6] == Distance && r.columns[7] == Temperature && r.columns[8] == Wind;
    r
  }

  /**
   * `input_df_for_prediction`: each categorical choice under its column as its dictionary's
   * translation (or itself when the dictionary lacks it), each number as the widget gave it.
   */
  function BuildRequest(c: Choices): (r: Request)
    ensures r.columns == InputColumns && |r.row| == |InputColumns|
    ensures Holds(r, Weather, Token(Translate(WeatherMap, c.weather)))
    ensures Holds(r, Pressure, Decimal(c.pressure))
    ensures Holds(r, Month, Token(Translate(MonthsMap, c.month)))
    ensures Holds(r, Species, Token(Translate(SpeciesMap, c.species)))
    ensures Holds(r, Region, Token(Translate(RegionMap, c.region)))
    ensures Holds(r, Flock, Token(Translate(FlockMap, c.flock)))
    ensures Holds(r, Distance, Whole(c.distance))
    ensures Holds(r, Temperature, Decimal(c.temperature))
    ensures Holds(r, Wind, Decimal(c.wind))
  {
    RequestRow(Translate(WeatherMap, c.weather), c.pressure, Translate(MonthsMap, c.month),
               Translate(SpeciesMap, c.species), Translate(RegionMap, c.region),
               Translate(FlockMap, c.flock), c.distance, c.temperature, c.wind)
  }

  /** Every option the panel offers has an entry in its dictionary: none is passed through. */
  lemma OptionsTranslated()
    ensures forall o :: o in WeatherOptions ==> o in WeatherMap
    ensures forall o :: o in SpeciesOptions ==> o in SpeciesMap
    ensures forall o :: o in MonthOptions ==> o in MonthsMap
    ensures forall o :: o in FlockOptions ==> o in FlockMap
  {
  }

  /** Nor any region option: each is a key of the region dictionary. */
  lemma RegionOptionsTranslated()
    ensures forall o :: o in RegionOptions ==> o in RegionMap
  {
  }

  /** Every species option translates to a token of the first half of the species labels, which labels it back. */
  lemma SpeciesMapInvertsFirstHalf()
    ensures forall o :: o in SpeciesMap ==>
      SpeciesMap[o] in SpeciesFirstHalf && SpeciesFirstHalf[SpeciesMap[o]] == o
  {
  }

  /**
   * A species option, translated for the classifier and labelled again the way uploaded rows
   * are, comes back as the same option.
   */
  lemma SpeciesOptionRoundTrip(o: string)
    requires o in SpeciesOptions
    ensures SpeciesLabel(Text(Translate(SpeciesMap, o))) == o
  {
    OptionsTranslated();
    SpeciesMapInvertsFirstHalf();
    SpeciesFromFirstHalf(SpeciesMap[o]);
  }

  /** The first three region options translate to region tokens that label them back. */
  lemma RegionOptionsInvertedHead()
    ensures forall o :: o in RegionOptions[..3] ==>
      o in RegionMapFirstHalf && RegionMapFirstHalf[o] in RegionFirstHalf &&
      RegionFirstHalf[RegionMapFirstHalf[o]] == o
  {
  }

  /** The last three region options translate to region tokens that label them back. */
  lemma RegionOptionsInvertedTail()
    ensures forall o :: o in RegionOptions[3..] ==>
      o in RegionMapFirstHalf && RegionMapFirstHalf[o] in RegionFirstHalf &&
      RegionFirstHalf[RegionMapFirstHalf[o]] == o
  {
  }

  /** The same round trip for the region options. */
  lemma RegionOptionRoundTrip(o: string)
    requires o in RegionOptions
    ensures RegionLabel(Text(Translate(RegionMap, o))) == o
  {
    assert RegionOptions == RegionOptions[..3] + RegionOptions[3..];
    RegionOptionsInvertedHead();
    RegionOptionsInvertedTail();
    RegionFromFirstHalf(RegionMapFirstHalf[o]);
  }

  /**
   * The same for the month options, through the month token and its categorical code: each
   * option translates to the token whose category carries it.
   */
  lemma MonthOptionsRoundTrip()
    ensures forall o :: o in MonthOptions ==>
      o in MonthsMap && MonthsMap[o] in MonthTable && MonthTable[MonthsMap[o]] == o
  {
  }

  /*
   * Proof helpers. The verifier proves lookups in the long region tables slowly, entry by entry;
   * the lemmas below single out, by length and initial, the entries that the Tropikal and Steppe
   * lemmas after them need. They state nothing about app.py beyond what the tables say.
   */

  /** The only eight-letter first-half region token is "Mountain". */
  lemma FirstTokensOfEight()
    ensures forall k :: k in RegionFirstHalf ==> |k| != 8 || k[0] == 'M'
  {
  }

  /** The only eight-letter second-half region token starting with 'T' is "Tropikal". */
  lemma SecondTokensOfEight()
    ensures forall k :: k in RegionSecondHalf && |k| == 8 && k[0] == 'T' ==> k[5] == 'k'
  {
  }

  /** No six-letter first-half region token starts with 'S'. */
  lemma FirstTokensOfSix()
    ensures forall k :: k in RegionFirstHalf ==> |k| != 6 || k[0] != 'S'
  {
  }

  /** The only six-letter second-half token starting with 'S' is "Steppe", labelled "Step". */
  lemma SecondTokensOfSix()
    ensures forall k :: k in RegionSecondHalf && |k| == 6 && k[0] == 'S' ==> RegionSecondHalf[k] == "Step"
  {
  }

  /** No eight-letter key of the dictionary's first half starts with 'T'. */
  lemma FirstKeysOfEight()
    ensures forall k :: k in RegionMapFirstHalf ==> |k| != 8 || k[0] != 'T'
  {
  }

  /** The only eight-letter second-half key starting with 'T' is "Tropikal", sent as "Tropical". */
  lemma SecondKeysOfEight()
    ensures forall k :: k in RegionMapSecondHalf && |k| == 8 && k[0] == 'T' ==> RegionMapSecondHalf[k] == "Tropical"
  {
  }

  /** No four-letter key of the dictionary's first half starts with 'S'. */
  lemma FirstKeysOfFour()
    ensures forall k :: k in RegionMapFirstHalf ==> |k| != 4 || k[0] != 'S'
  {
  }

  /** Nor of its second half. */
  lemma SecondKeysOfFour()
    ensures forall k :: k in RegionMapSecondHalf ==> |k| != 4 || k[0] != 'S'
  {
  }

  /** "Tropikal" is sent as "Tropical". */
  lemma TropikalSent()
    ensures Translate(RegionMap, "Tropikal") == "Tropical"
  {
    assert "Tropikal" in RegionMapSecondHalf;
    FirstKeysOfEight();
    SecondKeysOfEight();
  }

  /** "Tropical" is not in the first half of the upload region labels. */
  lemma TropicalNotFirst()
    ensures "Tropical" !in RegionFirstHalf
  {
    FirstTokensOfEight();
  }

  /** Nor in the second half. */
  lemma TropicalNotSecond()
    ensures "Tropical" !in RegionSecondHalf
  {
    SecondTokensOfEight();
  }

  /**
   * The round trip does not hold for the whole region dictionary. "Tropikal" is sent as
   * "Tropical", which the upload labels do not know: it comes back as the region sentinel.
   */
  lemma TropicalNotLabelled()
    ensures RegionLabel(Text(Translate(RegionMap, "Tropikal"))) == UnknownRegion
  {
    TropikalSent();
    TropicalNotFirst();
    TropicalNotSecond();
  }

  /** The upload labels turn "Steppe" into "Step". */
  lemma SteppeLabelled()
    ensures RegionLabel(Text("Steppe")) == "Step"
  {
    assert "Steppe" in RegionSecondHalf;
    FirstTokensOfSix();
    SecondTokensOfSix();
  }

  /** "Step" is not a key of the dictionary: it is sent as it is. */
  lemma StepNotTranslated()
    ensures Translate(RegionMap, "Step") == "Step"
  {
    FirstKeysOfFour();
    SecondKeysOfFour();
  }

  /**
   * Nor does it hold the other way: an uploaded "Steppe" is labelled "Step", which the
   * dictionary does not translate, so it is sent as "Step" rather than as "Steppe".
   */
  lemma SteppeNotRoundTrip()
    ensures Translate(RegionMap, RegionLabel(Text("Steppe"))) == "Step" != "Steppe"
  {
    SteppeLabelled();
    StepNotTranslated();
  }

  /**
   * The panel's defaults are sent as the English tokens and numbers the classifier knows. A
   * selectbox without an `index` starts on its first option, so the defaults are the first
   * weather, species, month, region and flock options and the sliders' and the distance input's
   * `value`s.
   */
  lemma DefaultRequest()
    ensures var c := Choices(WeatherOptions[0], SpeciesOptions[0], MonthOptions[0], RegionOptions[0],
                             FlockOptions[0], 1010.0, 2500, 15.0, 20.0);
      BuildRequest(c).row ==
      [Token("Sunny"), Decimal(1010.0), Token("Jan"), Token("Stork"), Token("Europe"), Token("Yes"),
       Whole(2500), Decimal(15.0), Decimal(20.0)]
  {
    DefaultTokens();
    DefaultRegionToken();
  }

  /** The English tokens of the panel's default weather, month, species and flock choices. */
  lemma DefaultTokens()
    ensures Translate(WeatherMap, "Güneşli") == "Sunny" && Translate(MonthsMap, "Ocak") == "Jan"
    ensures Translate(SpeciesMap, "Leylek") == "Stork" && Translate(FlockMap, "Evet") == "Yes"
  {
  }

  /** The English token of the panel's default region. */
  lemma DefaultRegionToken()
    ensures Translate(RegionMap, "Avrupa") == "Europe"
  {
    assert "Avrupa" in RegionMapFirstHalf;
  }

  /** What the panel shows after the button: the verdict and the probability shown with it. */
  datatype Verdict = Succeeds(probability: real) | Fails(probability: real)

  /**
   * The verdict from `predict` and `predict_proba` for the single row: class 1 is success, any
   * other class failure, and the probability shown is the one at the predicted class's column
   * (column 1 for success, column 0 otherwise), which app.py indexes without a check.
   */
  function ShowVerdict(predicted: int, proba: seq<real>): (v: Verdict)
    requires VerdictIndexable(predicted, proba)
    ensures v.Succeeds? <==> predicted == 1
    ensures v.Succeeds? ==> v.probability == proba[1]
    ensures v.Fails? ==> v.probability == proba[0]
  {
    if predicted == 1 then Succeeds(proba[1]) else Fails(proba[0])
  }

  /** The probability row has the column the verdict reads: otherwise the indexing raises. */
  predicate VerdictIndexable(predicted: int, proba: seq<real>): (r: bool)
    ensures r <==> |proba| >= 1 && (predicted == 1 ==> |proba| >= 2)
    ensures |proba| >= 2 ==> r
    ensures proba == [] ==> !r
  {
    if predicted == 1 then |proba| > 1 else |proba| > 0
  }

  /** The classifier's answer for one row: its class and its class probabilities, or an exception. */
  datatype Answer = Answered(predicted: int, proba: seq<real>) | Raised

  /** The prediction panel after the button. */
  datatype Panel =
    | Idle                         // the button was not pressed
    | NoModel                      // the pipeline is missing
    | Reported(verdict: Verdict)
    | Failed(sent: Request)        // the error, with the columns and the row that were sent

  /**
   * The button's handler: without a pipeline it warns; otherwise it asks the classifier and
   * shows the verdict, or reports the exception, from the classifier or from reading a
   * probability column it did not return, together with the request it sent.
   */
  function PredictionPanel(pressed: bool, hasModel: bool, c: Choices, answer: Answer): (p: Panel)
    ensures !pressed <==> p.Idle?
    ensures p.NoModel? <==> pressed && !hasModel
    ensures p.Reported? <==> pressed && hasModel && answer.Answered? &&
                             VerdictIndexable(answer.predicted, answer.proba)
    ensures p.Reported? ==> p.verdict == ShowVerdict(answer.predicted, answer.proba)
    ensures p.Failed? ==> p.sent == BuildRequest(c) && p.sent.columns == InputColumns
  {
    if !pressed then Idle
    else if !hasModel then NoModel
    else match answer
      case Answered(k, proba) =>
        if VerdictIndexable(k, proba) then Reported(ShowVerdict(k, proba)) else Failed(BuildRequest(c))
      case Raised => Failed(BuildRequest(c))
  }
}
