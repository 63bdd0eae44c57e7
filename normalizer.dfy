/**
 * `process_data` of app.py: the required-column check, the numeric coercion of the coordinate
 * and distance columns, the `dropna` on the coordinates and the derived labels; and the upload
 * handler around it, which turns its outcomes and pandas' parse errors into sidebar messages.
 */
module Normalizer {
  import opened Wrappers
  import opened Frames
  import opened Labels

  const StartLat: string := "Start_Latitude"
  const StartLon: string := "Start_Longitude"
  const EndLat: string := "End_Latitude"
  const EndLon: string := "End_Longitude"
  const Distance: string := "Flight_Distance_km"
  const MonthColumn: string := "Migration_Start_Month"
  const SpeciesColumn: string := "Species"
  const RegionColumn: string := "Region"
  const ReasonColumn: string := "Migration_Reason"

  /** The columns the map needs; without any of them processing stops with an empty table. */
  const RequiredColumns: seq<string> := [StartLat, StartLon, EndLat, EndLon, Distance]

  /** The columns the labels are derived from, in the order `process_data` reads them. */
  const OptionalColumns: seq<string> := [MonthColumn, SpeciesColumn, RegionColumn, ReasonColumn]

  /**
   * One row of the processed table, as far as the map, the filters and the tooltip use it:
   * the pandas index label of the row it came from, the four coordinates (never missing), the
   * distance (number or missing), the month code (missing unless one of the twelve months) and
   * the three localised labels.
   */
  datatype Record = Record(
    index: nat,
    startLat: real, startLon: real, endLat: real, endLon: real,
    distance: Option<real>,
    month: Option<MonthIndex>,
    species: string, region: string, reason: string)

  /**
   * What `process_data` hands back: the empty DataFrame of the failed column check, the
   * exception raised when an optional column is absent (`df.get(col, 'Unknown')` then returns
   * the string 'Unknown', which has no `.astype` / `.map`), or the processed rows.
   */
  datatype Processed = EmptyTable | Raised(column: string) | Table(rows: seq<Record>)

  predicate HasColumns(f: Frame, cols: seq<string>): (b: bool)
    ensures b <==> (set c | c in cols) <= f.columns.Keys
  {
    forall c :: c in cols ==> c in f.columns
  }

  /** The position of the first of `cols[k..]` that the table lacks. */
  function AbsentFrom(f: Frame, cols: seq<string>, k: nat): (r: Option<nat>)
    requires k <= |cols|
    ensures r.None? <==> forall j :: k <= j < |cols| ==> cols[j] in f.columns
    ensures r.Some? ==> k <= r.value < |cols| && cols[r.value] !in f.columns
    ensures r.Some? ==> forall j :: k <= j < r.value ==> cols[j] in f.columns
    decreases |cols| - k
  {
    if k == |cols| then None
    else if cols[k] !in f.columns then Some(k)
    else AbsentFrom(f, cols, k + 1)
  }

  /** The first of `cols` that the table lacks: every column before it is present. */
  function FirstAbsent(f: Frame, cols: seq<string>): (r: Option<string>)
    ensures r.None? <==> HasColumns(f, cols)
    ensures r.Some? ==> exists k :: 0 <= k < |cols| && cols[k] == r.value && r.value !in f.columns &&
                                    forall j :: 0 <= j < k ==> cols[j] in f.columns
  {
    var k := AbsentFrom(f, cols, 0);
    if k.Some? then Some(cols[k.value]) else None
  }

  /**
   * The table after the loop `for col in [...]: df[col] = pd.to_numeric(df[col], errors='coerce')`:
   * the five required columns coerced cell by cell, every other column as read.
   */
  function Coerced(f: Frame, parse: string -> Option<real>): (g: Frame)
    requires WellFormed(f)
    ensures WellFormed(g) && g.height == f.height && g.columns.Keys == f.columns.Keys
    ensures forall c :: c in f.columns && c in RequiredColumns ==> g.columns[c] == CoerceColumn(f.columns[c], parse)
    ensures forall c :: c in f.columns && c !in RequiredColumns ==> g.columns[c] == f.columns[c]
  {
    Frame(map c | c in f.columns :: if c in RequiredColumns then CoerceColumn(f.columns[c], parse) else f.columns[c],
          f.height)
  }

  /** Row `i` of the coerced table survives `dropna`: all four coordinates are numbers. */
  predicate KeepRow(g: Frame, i: nat): (b: bool)
    requires WellFormed(g) && HasColumns(g, RequiredColumns) && i < g.height
    ensures b <==> forall c :: c in RequiredColumns[..4] ==> g.columns[c][i].Num?
  {
    assert RequiredColumns[..4] == [StartLat, StartLon, EndLat, EndLon];
    && g.columns[StartLat][i].Num?
    && g.columns[StartLon][i].Num?
    && g.columns[EndLat][i].Num?
    && g.columns[EndLon][i].Num?
  }

  /**
   * `dropna(subset=[the four coordinates])` on the first `n` rows of the coerced table: the
   * index labels it keeps, in table order.
   */
  function KeptIndices(g: Frame, n: nat): (r: seq<nat>)
    requires WellFormed(g) && HasColumns(g, RequiredColumns) && n <= g.height
    ensures forall t :: 0 <= t < |r| ==> r[t] < n && KeepRow(g, r[t])
  {
    if n == 0 then []
    else if KeepRow(g, n - 1) then KeptIndices(g, n - 1) + [n - 1]
    else KeptIndices(g, n - 1)
  }

  /** The processed record of surviving row `i`: its numbers and the labels of its text columns. */
  function MakeRecord(g: Frame, i: nat): (r: Record)
    requires WellFormed(g) && HasColumns(g, RequiredColumns) && HasColumns(g, OptionalColumns)
    requires i < g.height && KeepRow(g, i)
    ensures r.index == i
    ensures r.startLat == g.columns[StartLat][i].x && r.startLon == g.columns[StartLon][i].x
    ensures r.endLat == g.columns[EndLat][i].x && r.endLon == g.columns[EndLon][i].x
    ensures r.distance.Some? <==> g.columns[Distance][i].Num?
    ensures r.distance == AsNumber(g.columns[Distance][i])
    ensures r.month == MonthLabel(g.columns[MonthColumn][i])
    ensures r.species == SpeciesLabel(g.columns[SpeciesColumn][i])
    ensures r.region == RegionLabel(g.columns[RegionColumn][i])
    ensures r.reason == ReasonLabel(g.columns[ReasonColumn][i])
  {
    Record(i,
      g.columns[StartLat][i].x, g.columns[StartLon][i].x, g.columns[EndLat][i].x, g.columns[EndLon][i].x,
      AsNumber(g.columns[Distance][i]),
      MonthLabel(g.columns[MonthColumn][i]),
      SpeciesLabel(g.columns[SpeciesColumn][i]),
      RegionLabel(g.columns[RegionColumn][i]),
      ReasonLabel(g.columns[ReasonColumn][i]))
  }

  /**
   * The column assignments of the four labels (and the row-wise coordinate strings, which this
   * model leaves out) over the rows `dropna` kept.
   */
  function DeriveRecords(g: Frame, kept: seq<nat>): (rows: seq<Record>)
    requires WellFormed(g) && HasColumns(g, RequiredColumns) && HasColumns(g, OptionalColumns)
    requires forall t :: 0 <= t < |kept| ==> kept[t] < g.height && KeepRow(g, kept[t])
    ensures |rows| == |kept|
    ensures forall t :: 0 <= t < |kept| ==> rows[t] == MakeRecord(g, kept[t]) && rows[t].index == kept[t]
  {
    seq(|kept|, t requires 0 <= t < |kept| => MakeRecord(g, kept[t]))
  }

  /** What `process_data` computes. */
  function Normalize(f: Frame, parse: string -> Option<real>): (r: Processed)
    requires WellFormed(f)
    ensures r.EmptyTable? <==> !HasColumns(f, RequiredColumns)
    ensures r.Raised? <==> HasColumns(f, RequiredColumns) && !HasColumns(f, OptionalColumns)
    ensures r.Raised? ==> r.column in OptionalColumns && r.column !in f.columns
  {
    if !HasColumns(f, RequiredColumns) then EmptyTable
    else
      var g := Coerced(f, parse);
      var kept := KeptIndices(g, g.height);
      var absent := FirstAbsent(g, OptionalColumns);
      if absent.Some? then Raised(absent.value)
      else Table(DeriveRecords(g, kept))
  }

  /** The coercion loop: each pass replaces one required column by its coerced cells. */
  method CoerceRequired(f: Frame, parse: string -> Option<real>) returns (cols: map<string, seq<Cell>>)
    requires WellFormed(f) && HasColumns(f, RequiredColumns)
    ensures Frame(cols, f.height) == Coerced(f, parse)
  {
    cols := f.columns;
    for k := 0 to |RequiredColumns|
      invariant cols.Keys == f.columns.Keys
      invariant forall c :: c in RequiredColumns[..k] ==> cols[c] == CoerceColumn(f.columns[c], parse)
      invariant forall c :: c in cols && c !in RequiredColumns[..k] ==> cols[c] == f.columns[c]
    {
      var c := RequiredColumns[k];
      assert RequiredColumns[..k + 1] == RequiredColumns[..k] + [c];
      cols := cols[c := CoerceColumn(cols[c], parse)];
    }
    assert RequiredColumns[..|RequiredColumns|] == RequiredColumns;
    assert cols == Coerced(f, parse).columns;
  }

  /**
   * `process_data` as app.py runs it on its copy of the table: the column check, the loop
   * that coerces the five columns in place, `dropna`, and the column assignments of the labels,
   * the first of which raises when its column is absent.
   */
  method ProcessData(f: Frame, parse: string -> Option<real>) returns (r: Processed)
    requires WellFormed(f)
    ensures r == Normalize(f, parse)
  {
    if !HasColumns(f, RequiredColumns) {
      return EmptyTable;
    }
    var cols := CoerceRequired(f, parse);
    var g := Frame(cols, f.height);
    var kept := KeptIndices(g, g.height);
    var absent := FirstAbsent(g, OptionalColumns);
    if absent.Some? {
      return Raised(absent.value);
    }
    return Table(DeriveRecords(g, kept));
  }

  /**
   * `dropna` keeps exactly the rows whose four coordinates are numbers, in their table order,
   * whatever their distance holds.
   */
  lemma KeptIndicesExact(g: Frame, n: nat)
    requires WellFormed(g) && HasColumns(g, RequiredColumns) && n <= g.height
    ensures var r := KeptIndices(g, n);
      && (forall t, u :: 0 <= t < u < |r| ==> r[t] < r[u])
      && (forall i :: 0 <= i < n && KeepRow(g, i) ==> i in r)
  {
    KeptIndicesIncrease(g, n);
    KeptIndicesComplete(g, n);
  }

  lemma {:induction false} KeptIndicesIncrease(g: Frame, n: nat)
    requires WellFormed(g) && HasColumns(g, RequiredColumns) && n <= g.height
    ensures forall t, u :: 0 <= t < u < |KeptIndices(g, n)| ==> KeptIndices(g, n)[t] < KeptIndices(g, n)[u]
  {
    if n > 0 {
      KeptIndicesIncrease(g, n - 1);
    }
  }

  lemma {:induction false} KeptIndicesComplete(g: Frame, n: nat)
    requires WellFormed(g) && HasColumns(g, RequiredColumns) && n <= g.height
    ensures forall i :: 0 <= i < n && KeepRow(g, i) ==> i in KeptIndices(g, n)
  {
    if n > 0 {
      KeptIndicesComplete(g, n - 1);
      var r, p := KeptIndices(g, n), KeptIndices(g, n - 1);
      assert r == p || r == p + [n - 1];
    }
  }

  /**
   * A row survives exactly when each coordinate is a number as read or text that pandas parses
   * as one; a row's record carries the coerced numbers of its own row.
   */
  lemma CoercedRow(f: Frame, parse: string -> Option<real>, i: nat)
    requires WellFormed(f) && HasColumns(f, RequiredColumns) && i < f.height
    ensures var g := Coerced(f, parse);
      && HasColumns(g, RequiredColumns)
      && (KeepRow(g, i) <==>
            forall c :: c in RequiredColumns[..4] ==> Coerce(f.columns[c][i], parse).Num?)
      && (forall c :: c in RequiredColumns ==> g.columns[c][i] == Coerce(f.columns[c][i], parse))
  {
    var g := Coerced(f, parse);
    assert RequiredColumns[..4] == [StartLat, StartLon, EndLat, EndLon];
  }

  /**
   * The rows of a processed table: their index labels increase, each is the record of a row
   * whose four coordinates are numbers after coercion, and each such row has its record.
   */
  lemma NormalizedRows(f: Frame, parse: string -> Option<real>)
    requires WellFormed(f) && HasColumns(f, RequiredColumns) && HasColumns(f, OptionalColumns)
    ensures Normalize(f, parse).Table?
    ensures var g := Coerced(f, parse);
      var rows := Normalize(f, parse).rows;
      && HasColumns(g, RequiredColumns) && HasColumns(g, OptionalColumns)
      && (forall t, u :: 0 <= t < u < |rows| ==> rows[t].index < rows[u].index)
      && (forall t :: 0 <= t < |rows| ==>
            rows[t].index < f.height && KeepRow(g, rows[t].index) &&
            rows[t] == MakeRecord(g, rows[t].index))
      && (forall i :: 0 <= i < f.height && KeepRow(g, i) ==>
            exists t :: 0 <= t < |rows| && rows[t].index == i)
  {
    var g := Coerced(f, parse);
    assert HasColumns(g, OptionalColumns);
    var kept := KeptIndices(g, g.height);
    KeptIndicesExact(g, g.height);
    var rows := Normalize(f, parse).rows;
    assert rows == DeriveRecords(g, kept);
    forall i | 0 <= i < f.height && KeepRow(g, i)
      ensures exists t :: 0 <= t < |rows| && rows[t].index == i
    {
      var t :| 0 <= t < |kept| && kept[t] == i;
      assert rows[t].index == i;
    }
  }

  /**
   * With the required columns present, `process_data` raises at the first label column it
   * derives that the table lacks, whatever the rows hold.
   */
  lemma RaisesAtFirstAbsent(f: Frame, parse: string -> Option<real>, k: nat)
    requires WellFormed(f) && HasColumns(f, RequiredColumns)
    requires k < |OptionalColumns| && OptionalColumns[k] !in f.columns
    requires forall j :: 0 <= j < k ==> OptionalColumns[j] in f.columns
    ensures Normalize(f, parse) == Raised(OptionalColumns[k])
  {
    var g := Coerced(f, parse);
    var absent := FirstAbsent(g, OptionalColumns);
    var t :| 0 <= t < |OptionalColumns| && OptionalColumns[t] == absent.value && absent.value !in g.columns &&
             forall j :: 0 <= j < t ==> OptionalColumns[j] in g.columns;
    assert t == k;
  }

  /**
   * A row whose coordinates are numbers but whose distance is not stays in the table, with its
   * distance missing: the distance never decides whether a row is dropped.
   */
  lemma MissingDistanceKept(f: Frame, parse: string -> Option<real>, i: nat)
    requires WellFormed(f) && HasColumns(f, RequiredColumns) && HasColumns(f, OptionalColumns)
    requires i < f.height
    requires forall c :: c in RequiredColumns[..4] ==> Coerce(f.columns[c][i], parse).Num?
    requires !Coerce(f.columns[Distance][i], parse).Num?
    ensures var rows := Normalize(f, parse).rows;
      exists t :: 0 <= t < |rows| && rows[t].index == i && rows[t].distance == None
  {
    CoercedRow(f, parse, i);
    NormalizedRows(f, parse);
  }

  /**
   * pandas' reading of the uploaded file, which is not part of this model: no file yet, an empty
   * file (`EmptyDataError`), a malformed one (`ParserError`), any other exception `read_csv`
   * raises (a file that is not UTF-8, say), or the table it read.
   */
  datatype Upload = NoFile | EmptyFile | Unparsable | ReadFailed | Parsed(frame: Frame)

  /** The verdict on an upload, as its message says it, and the rows the map section then works on. */
  datatype UploadStatus =
    | AwaitingFile            // no file uploaded yet
    | FileEmpty               // pd.errors.EmptyDataError
    | FileUnreadable          // pd.errors.ParserError
    | UnexpectedError(absent: Option<string>)
                              // the generic handler. `absent` records which label column's
                              // derivation raised inside process_data (none when read_csv itself
                              // raised); the message does not show it, only the exception's text
                              // ("'str' object has no attribute 'astype'" or "... 'map'")
    | MissingColumns          // process_data's own error on the required columns, then "no usable data"
    | NoUsableData            // process_data returned a table without rows
    | Loaded(rows: seq<Record>)

  /**
   * The upload handler: parse errors get their own messages, a table without the required
   * columns gets `process_data`'s error and then "no usable data", a processed table without rows
   * gets "no usable data" alone, and any other exception the generic message; only a non-empty
   * table reaches the map section.
   */
  function LoadUpload(u: Upload, parse: string -> Option<real>): (s: UploadStatus)
    requires u.Parsed? ==> WellFormed(u.frame)
    ensures s.Loaded? <==> u.Parsed? && Normalize(u.frame, parse).Table? && |Normalize(u.frame, parse).rows| > 0
    ensures s.Loaded? ==> s.rows == Normalize(u.frame, parse).rows
    ensures s.MissingColumns? <==> u.Parsed? && !HasColumns(u.frame, RequiredColumns)
    ensures s.NoUsableData? <==> u.Parsed? && Normalize(u.frame, parse) == Table([])
    ensures s.UnexpectedError? <==> u.ReadFailed? || (u.Parsed? && Normalize(u.frame, parse).Raised?)
    ensures s.UnexpectedError? ==>
      s.absent == if u.Parsed? then Some(Normalize(u.frame, parse).column) else None
    ensures u.NoFile? <==> s.AwaitingFile?
    ensures u.EmptyFile? <==> s.FileEmpty?
    ensures u.Unparsable? <==> s.FileUnreadable?
  {
    match u
    case NoFile => AwaitingFile
    case EmptyFile => FileEmpty
    case Unparsable => FileUnreadable
    case ReadFailed => UnexpectedError(None)
    case Parsed(f) =>
      match Normalize(f, parse)
      case EmptyTable => MissingColumns
      case Raised(c) => UnexpectedError(Some(c))
      case Table(rows) => if |rows| == 0 then NoUsableData else Loaded(rows)
  }

  /** A number parser that accepts nothing; the example below stores its numbers as numbers. */
  function NoParse(s: string): Option<real> { None }

  /** A one-row upload: a stork flying from Europe in April, its numbers stored as numbers. */
  function StorkFrame(): (f: Frame)
    ensures WellFormed(f) && f.height == 1
    ensures f.columns.Keys ==
      {SpeciesColumn, RegionColumn, MonthColumn, ReasonColumn, StartLat, StartLon, EndLat, EndLon, Distance}
    ensures && f.columns[StartLat] == [Num(52.0)] && f.columns[StartLon] == [Num(13.0)]
            && f.columns[EndLat] == [Num(30.0)] && f.columns[EndLon] == [Num(31.0)]
            && f.columns[Distance] == [Num(3000.0)]
            && f.columns[SpeciesColumn] == [Text("Stork")] && f.columns[RegionColumn] == [Text("Europe")]
            && f.columns[MonthColumn] == [Text("Apr")] && f.columns[ReasonColumn] == [Text("Breeding")]
  {
    Frame(map[
      SpeciesColumn := [Text("Stork")], RegionColumn := [Text("Europe")],
      MonthColumn := [Text("Apr")], ReasonColumn := [Text("Breeding")],
      StartLat := [Num(52.0)], StartLon := [Num(13.0)], EndLat := [Num(30.0)], EndLon := [Num(31.0)],
      Distance := [Num(3000.0)]], 1)
  }

  /** Coercion leaves a table alone when its required columns hold no text: it only parses text. */
  lemma CoercionKeepsNumbers(f: Frame, parse: string -> Option<real>)
    requires WellFormed(f) && HasColumns(f, RequiredColumns)
    requires forall c, i :: c in RequiredColumns && 0 <= i < f.height ==> !f.columns[c][i].Text?
    ensures Coerced(f, parse) == f
  {
    var g := Coerced(f, parse);
    forall c | c in f.columns
      ensures g.columns[c] == f.columns[c]
    {
      if c in RequiredColumns {
        assert forall i :: 0 <= i < f.height ==> Coerce(f.columns[c][i], parse) == f.columns[c][i];
      }
    }
    assert g.columns == f.columns;
  }

  /** The one-row upload has every column `process_data` reads, and coercion leaves it alone. */
  lemma StorkShape()
    ensures WellFormed(StorkFrame())
    ensures HasColumns(StorkFrame(), RequiredColumns) && HasColumns(StorkFrame(), OptionalColumns)
    ensures Coerced(StorkFrame(), NoParse) == StorkFrame()
    ensures KeepRow(StorkFrame(), 0)
  {
    CoercionKeepsNumbers(StorkFrame(), NoParse);
  }

  /** The record of the stork's row. */
  lemma StorkRecord()
    ensures && WellFormed(StorkFrame())
            && HasColumns(StorkFrame(), RequiredColumns) && HasColumns(StorkFrame(), OptionalColumns)
            && KeepRow(StorkFrame(), 0)
            && MakeRecord(StorkFrame(), 0) == Record(0, 52.0, 13.0, 30.0, 31.0, Some(3000.0), Some(3), "Leylek", "Avrupa", "Üreme")
  {
    StorkShape();
    StorkLabel();
    EuropeLabel();
    BreedingLabel();
    AprilLabel();
  }

  /**
   * One stork flying from Europe in April: its row survives with the labels "Leylek", "Avrupa"
   * and "Nisan", and its coordinates and distance unchanged.
   */
  lemma StorkExample()
    ensures Normalize(StorkFrame(), NoParse) ==
      Table([Record(0, 52.0, 13.0, 30.0, 31.0, Some(3000.0), Some(3), "Leylek", "Avrupa", "Üreme")])
  {
    StorkRows();
    StorkDerived();
    StorkRecord();
  }

  /** The derived rows of the kept index 0 are the record of row 0. */
  lemma StorkDerived()
    ensures && WellFormed(StorkFrame())
            && HasColumns(StorkFrame(), RequiredColumns) && HasColumns(StorkFrame(), OptionalColumns)
            && KeepRow(StorkFrame(), 0)
            && DeriveRecords(StorkFrame(), [0]) == [MakeRecord(StorkFrame(), 0)]
  {
    StorkShape();
    DeriveOne(StorkFrame(), 0);
  }

  /** The records of a single kept row are that row's record. */
  lemma DeriveOne(g: Frame, i: nat)
    requires WellFormed(g) && HasColumns(g, RequiredColumns) && HasColumns(g, OptionalColumns)
    requires i < g.height && KeepRow(g, i)
    ensures DeriveRecords(g, [i]) == [MakeRecord(g, i)]
  {
  }

  /** `process_data` keeps the stork's one row: `dropna` keeps index 0 and no label column is absent. */
  lemma StorkRows()
    ensures && WellFormed(StorkFrame())
            && HasColumns(StorkFrame(), RequiredColumns) && HasColumns(StorkFrame(), OptionalColumns)
            && KeepRow(StorkFrame(), 0)
            && Normalize(StorkFrame(), NoParse) == Table(DeriveRecords(StorkFrame(), [0]))
  {
    var f := StorkFrame();
    StorkShape();
    assert KeptIndices(f, 1) == [0];
  }

  /**
   * The same stork upload without its `Migration_Reason` column: eight columns, the five
   * required ones among them.
   */
  function StorkWithoutReason(): (f: Frame)
    ensures WellFormed(f) && f.height == 1
    ensures f.columns.Keys == StorkFrame().columns.Keys - {ReasonColumn}
    ensures forall c :: c in f.columns ==> f.columns[c] == StorkFrame().columns[c]
  {
    Frame(StorkFrame().columns - {ReasonColumn}, 1)
  }

  /**
   * Without the reason column `process_data` does not return the stork's row: `df.get` hands
   * the reason assignment the string 'Unknown', whose `.map` raises.
   */
  lemma StorkWithoutReasonRaises()
    ensures Normalize(StorkWithoutReason(), NoParse) == Raised(ReasonColumn)
  {
    StorkWithoutReasonColumns();
    RaisesAtFirstAbsent(StorkWithoutReason(), NoParse, 3);
  }

  /**
   * The eight-column upload ends in the generic error message, raised by the reason column's
   * derivation (the message itself shows only "'str' object has no attribute 'map'").
   */
  lemma StorkWithoutReasonRejected()
    ensures LoadUpload(Parsed(StorkWithoutReason()), NoParse) == UnexpectedError(Some(ReasonColumn))
  {
    StorkWithoutReasonRaises();
  }

  /** The eight-column upload has the required columns and the month, species and region columns. */
  lemma StorkWithoutReasonColumns()
    ensures HasColumns(StorkWithoutReason(), RequiredColumns)
    ensures MonthColumn in StorkWithoutReason().columns && SpeciesColumn in StorkWithoutReason().columns
    ensures RegionColumn in StorkWithoutReason().columns && ReasonColumn !in StorkWithoutReason().columns
  {
  }
}
