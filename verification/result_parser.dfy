/** The result-file reader: a latency file is split at its two marker lines into
    a subscriptions section and a publishers section, each parsed as `;`-separated
    records under a fixed 13-column schema and tagged with its role; a resources
    file is one whitespace-separated table under a fixed 7-column schema. */
module ResultParser {
  import opened Wrappers
  import opened Seqs
  import opened Text
  import opened Frame

  const SUBSCRIPTIONS_MARKER: string := "Subscriptions stats:\n"
  const PUBLISHERS_MARKER: string := "Publishers stats:\n"

  /** The column names the benchmark prints; kept by the reader for reference only. */
  const ORIGINAL_LATENCY_HEADER: seq<string> := [
    "node", "topic", "size[b]", "received[#]", "late[#]", "too_late[#]", "lost[#]",
    "mean[us]", "sd[us]", "min[us]", "max[us]", "freq[hz]", "throughput[Kb/s]"]

  /** The schema applied by position to every latency record. */
  function LatencyColumns(): seq<string>
  {
    [
    "Node", "Topic", "Size", "Msg Received", "Msg Late", "Msg Too Late", "Msg Lost",
    "Mean", "Std", "Min", "Max", "Freq", "Throughput"]
  }

  /** The schema applied by position to every resources record. */
  function ResourcesColumns(): seq<string>
  {
    ["Time", "CPU", "arena", "in_use", "mmap", "rss", "vsz"]
  }

  const ROLE_COLUMN: string := "Pub/Sub Type"
  const SUBSCRIPTION_ROLE: string := "Subscription"
  const PUBLISHER_ROLE: string := "Publisher"

  /** Why reading a result file fails: `open` on a missing file, `list.index` on a
      missing marker, or pandas on a record with more fields than the schema has
      names. */
  datatype ReadError =
    | FileNotFound(path: string)
    | MarkerNotFound(marker: string)
    | TooManyFields(expected: nat, found: nat)

  datatype Delimiter = Semicolon | Whitespace

  /** The fields of one line under a delimiter. */
  function Fields(d: Delimiter, line: string): seq<string>
  {
    match d
    case Semicolon => Split(StripNewline(line), ';')
    case Whitespace => SplitWhitespace(StripNewline(line))
  }

  /** A line pandas skips (`skip_blank_lines=True`): nothing but blanks before
      its newline, whichever the separator. */
  predicate IsBlank(d: Delimiter, line: string)
  {
    forall i :: 0 <= i < |StripNewline(line)| ==> IsSpace(StripNewline(line)[i])
  }

  /** The record one line contributes: none for a blank line. */
  function RecordOf(d: Delimiter, line: string): (r: seq<seq<string>>)
    ensures |r| <= 1
  {
    if IsBlank(d, line) then [] else [Fields(d, line)]
  }

  /** The fields of every non-blank line, in order. */
  function Records(d: Delimiter, lines: seq<string>): (r: seq<seq<string>>)
    ensures |r| <= |lines|
  {
    if |lines| == 0 then [] else RecordOf(d, lines[0]) + Records(d, lines[1..])
  }

  /** One record under a schema of `width` names: the fields by position, NaN for
      the missing trailing ones, an error for surplus fields. */
  function RowOf(fields: seq<string>, width: nat): (r: Result<seq<Value>, ReadError>)
    ensures r.Err? <==> |fields| > width
    ensures r.Ok? ==> |r.value| == width
    ensures r.Ok? ==> forall i :: 0 <= i < |fields| ==> r.value[i] == Str(fields[i])
    ensures r.Ok? ==> forall i :: |fields| <= i < width ==> r.value[i] == Missing
  {
    if |fields| > width then Err(TooManyFields(width, |fields|))
    else Ok(seq(width, i requires 0 <= i < width => if i < |fields| then Str(fields[i]) else Missing))
  }

  /** Every record under the schema; the first surplus record is the error. */
  function RowsOf(records: seq<seq<string>>, width: nat): (r: Result<seq<seq<Value>>, ReadError>)
    ensures r.Ok? <==> forall k :: 0 <= k < |records| ==> |records[k]| <= width
    ensures r.Ok? ==> |r.value| == |records|
    ensures r.Ok? ==> forall k :: 0 <= k < |records| ==> RowOf(records[k], width) == Ok(r.value[k])
  {
    if |records| == 0 then Ok([])
    else
      var row :- RowOf(records[0], width);
      var rest :- RowsOf(records[1..], width);
      assert forall k :: 1 <= k < |records| ==> records[k] == records[1..][k - 1];
      Ok([row] + rest)
  }

  /** A failed read names the first record that is too long. */
  lemma {:induction false} RowsOfFirstError(records: seq<seq<string>>, width: nat) returns (k: nat)
    requires RowsOf(records, width).Err?
    ensures k < |records| && |records[k]| > width
    ensures forall k' :: 0 <= k' < k ==> |records[k']| <= width
    ensures RowsOf(records, width).error == TooManyFields(width, |records[k]|)
  {
    if |records[0]| > width {
      k := 0;
    } else {
      var k0 := RowsOfFirstError(records[1..], width);
      k := k0 + 1;
      assert forall k' :: 1 <= k' < k ==> records[k'] == records[1..][k' - 1];
    }
  }

  /** Every record after the header has at most `width` fields. */
  predicate BodyFits(records: seq<seq<string>>, width: nat)
  {
    forall k :: 1 <= k < |records| ==> |records[k]| <= width
  }

  predicate DistinctNames(names: seq<string>)
  {
    forall i, j :: 0 <= i < j < |names| ==> names[i] != names[j]
  }

  /** `pd.read_csv(text, sep=..., names=names, header=0)`: the first non-blank
      line is a header and is discarded whatever it says; every later non-blank
      line becomes a row under `names`. With `names` given, a text without any
      record is an empty table under those names. */
  function ReadCsv(text: string, d: Delimiter, names: seq<string>): (r: Result<DataFrame, ReadError>)
    requires DistinctNames(names)
    ensures r.Ok? <==> BodyFits(Records(d, ReadLines(text)), |names|)
    ensures var records := Records(d, ReadLines(text));
            r.Ok? ==> r.value.columns == names && |r.value.rows| == BodyCount(records)
    ensures var records := Records(d, ReadLines(text));
            r.Ok? ==> forall k :: 0 <= k < |r.value.rows| ==> RowOf(records[k + 1], |names|) == Ok(r.value.rows[k])
  {
    var records := Records(d, ReadLines(text));
    if |records| == 0 then
      assert WellFormed(Table(names, []));
      Ok(Table(names, []))
    else
      RowsAfterHeader(records, |names|);
      match RowsOf(records[1..], |names|)
      case Err(e) =>
        Err(e)
      case Ok(rows) =>
        assert WellFormed(Table(names, rows));
        Ok(Table(names, rows))
  }

  /** A failed read is the error of the first record after the header with
      more fields than there are names. */
  lemma ReadCsvFirstError(text: string, d: Delimiter, names: seq<string>) returns (k: nat)
    requires DistinctNames(names)
    requires ReadCsv(text, d, names).Err?
    ensures var records := Records(d, ReadLines(text));
            && 1 <= k < |records| && |records[k]| > |names|
            && (forall k' :: 1 <= k' < k ==> |records[k']| <= |names|)
            && ReadCsv(text, d, names).error == TooManyFields(|names|, |records[k]|)
  {
    var records := Records(d, ReadLines(text));
    assert |records| > 0 && RowsOf(records[1..], |names|).Err?;
    assert ReadCsv(text, d, names).error == RowsOf(records[1..], |names|).error;
    var k0 := RowsOfFirstError(records[1..], |names|);
    k := k0 + 1;
    assert forall k' :: 1 <= k' < k ==> records[k'] == records[1..][k' - 1];
  }

  /** How many records follow the header record. */
  function BodyCount(records: seq<seq<string>>): nat
  {
    if |records| == 0 then 0 else |records| - 1
  }

  /** The records after the first, under a schema of `width` names. */
  lemma RowsAfterHeader(records: seq<seq<string>>, width: nat)
    requires |records| > 0
    ensures RowsOf(records[1..], width).Ok? <==> BodyFits(records, width)
    ensures RowsOf(records[1..], width).Ok? ==>
              && |RowsOf(records[1..], width).value| == |records| - 1
              && forall k :: 0 <= k < |records| - 1 ==>
                   RowOf(records[k + 1], width) == Ok(RowsOf(records[1..], width).value[k])
  {
    assert forall k :: 1 <= k < |records| ==> records[k] == records[1..][k - 1];
  }

  lemma SchemasDistinct()
    ensures DistinctNames(LatencyColumns())
    ensures ROLE_COLUMN !in LatencyColumns()
    ensures DistinctNames(ResourcesColumns())
  {
  }

  /** `file_lines[subs_idx + 1 : pubs_idx - 1]`. */
  function SubscriberSection(lines: seq<string>, subsIdx: nat, pubsIdx: nat): seq<string>
  {
    PySlice(lines, subsIdx + 1, pubsIdx - 1)
  }

  /** `file_lines[pubs_idx + 1:]`. */
  function PublisherSection(lines: seq<string>, pubsIdx: nat): seq<string>
    requires pubsIdx < |lines|
  {
    lines[pubsIdx + 1..]
  }

  /** The two section texts of a file with both markers: the lines strictly
      between the markers (less the one before the publishers marker) and the
      lines after the publishers marker. */
  function SectionTexts(lines: seq<string>): (string, string)
    requires SUBSCRIPTIONS_MARKER in lines && PUBLISHERS_MARKER in lines
  {
    var s := IndexOf(lines, SUBSCRIPTIONS_MARKER).value;
    var p := IndexOf(lines, PUBLISHERS_MARKER).value;
    (Concat(SubscriberSection(lines, s, p)), Concat(PublisherSection(lines, p)))
  }

  /** Both sections parsed under `schema`, tagged with their role and
      concatenated, subscriptions first. */
  function TaggedSections(subsText: string, pubsText: string, schema: seq<string>): (r: Result<DataFrame, ReadError>)
    requires DistinctNames(schema) && ROLE_COLUMN !in schema
    ensures r.Ok? ==> r.value.columns == schema + [ROLE_COLUMN]
  {
    var subs :- ReadCsv(subsText, Semicolon, schema);
    var pubs :- ReadCsv(pubsText, Semicolon, schema);
    Ok(ConcatFrames(SetColumn(subs, ROLE_COLUMN, Str(SUBSCRIPTION_ROLE)),
                    SetColumn(pubs, ROLE_COLUMN, Str(PUBLISHER_ROLE))))
  }

  /** The frame `read_latency_file` builds before adding extra columns: both
      markers located by their first whole-line occurrence, both sections parsed,
      tagged with their role and concatenated. */
  function LatencyData(lines: seq<string>): (r: Result<DataFrame, ReadError>)
    ensures SUBSCRIPTIONS_MARKER !in lines ==> r == Err(MarkerNotFound(SUBSCRIPTIONS_MARKER))
    ensures SUBSCRIPTIONS_MARKER in lines && PUBLISHERS_MARKER !in lines ==> r == Err(MarkerNotFound(PUBLISHERS_MARKER))
    ensures r.Ok? ==> r.value.columns == LatencyColumns() + [ROLE_COLUMN]
  {
    if SUBSCRIPTIONS_MARKER !in lines then Err(MarkerNotFound(SUBSCRIPTIONS_MARKER))
    else if PUBLISHERS_MARKER !in lines then Err(MarkerNotFound(PUBLISHERS_MARKER))
    else
      SchemasDistinct();
      TaggedSections(SectionTexts(lines).0, SectionTexts(lines).1, LatencyColumns())
  }

  /** `read_latency_file` after `readlines`: the tagged sections with the extra
      columns set. */
  function ReadLatencyLines(lines: seq<string>, extras: Dict<Value>): (r: Result<DataFrame, ReadError>)
    ensures SUBSCRIPTIONS_MARKER !in lines ==> r == Err(MarkerNotFound(SUBSCRIPTIONS_MARKER))
    ensures SUBSCRIPTIONS_MARKER in lines && PUBLISHERS_MARKER !in lines ==> r == Err(MarkerNotFound(PUBLISHERS_MARKER))
    ensures r.Ok? ==> r.value.columns == ExtendColumns(LatencyColumns() + [ROLE_COLUMN], Keys(extras))
  {
    var data :- LatencyData(lines);
    Ok(AddExtraCols(data, extras))
  }

  /** `read_latency_file`: a missing file is reported and then fails at `open`. */
  function ReadLatencyFile(files: map<string, string>, path: string, extras: Dict<Value>): (r: Result<DataFrame, ReadError>)
    ensures path !in files ==> r == Err(FileNotFound(path))
    ensures r.Ok? ==> path in files && r.value.columns == ExtendColumns(LatencyColumns() + [ROLE_COLUMN], Keys(extras))
  {
    if path !in files then Err(FileNotFound(path))
    else ReadLatencyLines(ReadLines(files[path]), extras)
  }

  /** `read_resources_file`: the whole file is one table under the resources schema. */
  function ReadResourcesFile(files: map<string, string>, path: string, extras: Dict<Value>): (r: Result<DataFrame, ReadError>)
    ensures path !in files ==> r == Err(FileNotFound(path))
    ensures r.Ok? ==> path in files && r.value.columns == ExtendColumns(ResourcesColumns(), Keys(extras))
    ensures r.Ok? ==> |r.value.rows| == BodyCount(Records(Whitespace, ReadLines(files[path])))
  {
    if path !in files then Err(FileNotFound(path))
    else
      SchemasDistinct();
      var data :- ReadCsv(files[path], Whitespace, ResourcesColumns());
      Ok(AddExtraCols(data, extras))
  }

  /** The subscriptions section is exactly the lines strictly after the
      subscriptions marker and strictly before the line that precedes the
      publishers marker. */
  lemma SubscriberSectionSpan(lines: seq<string>, subsIdx: nat, pubsIdx: nat)
    requires 1 <= pubsIdx <= |lines|
    ensures var section := SubscriberSection(lines, subsIdx, pubsIdx);
            && |section| == (if subsIdx + 1 < pubsIdx - 1 then pubsIdx - 1 - (subsIdx + 1) else 0)
            && forall k :: 0 <= k < |section| ==> section[k] == lines[subsIdx + 1 + k]
  {
  }

  /** With the publishers marker on the first line, `pubs_idx - 1` is `-1` and the
      slice runs to the line before the last instead. */
  lemma SubscriberSectionWrapsAround(lines: seq<string>, subsIdx: nat)
    requires subsIdx + 1 < |lines| - 1
    ensures SubscriberSection(lines, subsIdx, 0) == lines[subsIdx + 1..|lines| - 1]
  {
  }

  /** The publishers section is every line after the publishers marker. */
  lemma PublisherSectionSpan(lines: seq<string>, pubsIdx: nat)
    requires pubsIdx < |lines|
    ensures |PublisherSection(lines, pubsIdx)| == |lines| - pubsIdx - 1
    ensures forall k :: pubsIdx < k < |lines| ==> PublisherSection(lines, pubsIdx)[k - pubsIdx - 1] == lines[k]
  {
  }

  /** The cell a record yields in schema position `i`. */
  function FieldValue(record: seq<string>, i: nat): Value
  {
    if i < |record| then Str(record[i]) else Missing
  }

  /** The records of a section after the one pandas takes as its header. */
  function BodyRecords(text: string): seq<seq<string>>
  {
    var records := Records(Semicolon, ReadLines(text));
    if |records| == 0 then [] else records[1..]
  }

  /** A cell of a parsed table is the record's field at the column's position. */
  lemma CellOfCsv(t: DataFrame, names: seq<string>, record: seq<string>, k: nat, i: nat)
    requires DistinctNames(names)
    requires t.columns == names && k < |t.rows| && i < |names|
    requires RowOf(record, |names|) == Ok(t.rows[k])
    ensures Cell(t, k, names[i]) == Some(FieldValue(record, i))
  {
    IndexOfDistinct(names, i);
  }

  /** A parsed section has one row per record after the header, each the
      record's fields under the schema. */
  lemma BodyRows(text: string, schema: seq<string>)
    requires DistinctNames(schema)
    requires ReadCsv(text, Semicolon, schema).Ok?
    ensures var t := ReadCsv(text, Semicolon, schema).value;
            && |t.rows| == |BodyRecords(text)|
            && forall k :: 0 <= k < |t.rows| ==> RowOf(BodyRecords(text)[k], |schema|) == Ok(t.rows[k])
  {
    var records := Records(Semicolon, ReadLines(text));
    if |records| > 0 {
      assert BodyRecords(text) == records[1..];
    }
  }

  /** `t` holds the records `subs`, tagged `Subscription`, then the records
      `pubs`, tagged `Publisher`, each record's fields filled into `schema` by
      position. */
  predicate RowsByRole(t: DataFrame, schema: seq<string>, subs: seq<seq<string>>, pubs: seq<seq<string>>)
  {
    && |t.rows| == |subs| + |pubs|
    && (forall k :: 0 <= k < |subs| ==> Cell(t, k, ROLE_COLUMN) == Some(Str(SUBSCRIPTION_ROLE)))
    && (forall k :: |subs| <= k < |t.rows| ==> Cell(t, k, ROLE_COLUMN) == Some(Str(PUBLISHER_ROLE)))
    && (forall k, i :: 0 <= k < |subs| && 0 <= i < |schema| ==>
          Cell(t, k, schema[i]) == Some(FieldValue(subs[k], i)))
    && (forall k, i :: |subs| <= k < |t.rows| && 0 <= i < |schema| ==>
          Cell(t, k, schema[i]) == Some(FieldValue(pubs[k - |subs|], i)))
  }

  /** The rows of a tagged concatenation that come from the first section. */
  lemma TaggedFirstCells(a: DataFrame, b: DataFrame, names: seq<string>, sa: seq<seq<string>>, t: DataFrame)
    requires DistinctNames(names) && ROLE_COLUMN !in names
    requires a.columns == names && b.columns == names && |sa| == |a.rows|
    requires forall k :: 0 <= k < |a.rows| ==> RowOf(sa[k], |names|) == Ok(a.rows[k])
    requires t == ConcatFrames(SetColumn(a, ROLE_COLUMN, Str(SUBSCRIPTION_ROLE)), SetColumn(b, ROLE_COLUMN, Str(PUBLISHER_ROLE)))
    ensures |t.rows| == |a.rows| + |b.rows|
    ensures forall k :: 0 <= k < |sa| ==> Cell(t, k, ROLE_COLUMN) == Some(Str(SUBSCRIPTION_ROLE))
    ensures forall k, i :: 0 <= k < |sa| && 0 <= i < |names| ==>
              Cell(t, k, names[i]) == Some(FieldValue(sa[k], i))
  {
    var va, vb := Str(SUBSCRIPTION_ROLE), Str(PUBLISHER_ROLE);
    forall k | 0 <= k < |sa|
      ensures Cell(t, k, ROLE_COLUMN) == Some(va)
    {
      CellOfTaggedConcat(a, b, ROLE_COLUMN, va, vb, k, ROLE_COLUMN);
    }
    forall k, i | 0 <= k < |sa| && 0 <= i < |names|
      ensures Cell(t, k, names[i]) == Some(FieldValue(sa[k], i))
    {
      CellOfTaggedConcat(a, b, ROLE_COLUMN, va, vb, k, names[i]);
      CellOfCsv(a, names, sa[k], k, i);
    }
  }

  /** The rows of a tagged concatenation that come from the second section. */
  lemma TaggedSecondCells(a: DataFrame, b: DataFrame, names: seq<string>, sb: seq<seq<string>>, t: DataFrame)
    requires DistinctNames(names) && ROLE_COLUMN !in names
    requires a.columns == names && b.columns == names && |sb| == |b.rows|
    requires forall k :: 0 <= k < |b.rows| ==> RowOf(sb[k], |names|) == Ok(b.rows[k])
    requires t == ConcatFrames(SetColumn(a, ROLE_COLUMN, Str(SUBSCRIPTION_ROLE)), SetColumn(b, ROLE_COLUMN, Str(PUBLISHER_ROLE)))
    ensures |t.rows| == |a.rows| + |b.rows|
    ensures forall k :: |a.rows| <= k < |t.rows| ==> Cell(t, k, ROLE_COLUMN) == Some(Str(PUBLISHER_ROLE))
    ensures forall k, i :: |a.rows| <= k < |t.rows| && 0 <= i < |names| ==>
              Cell(t, k, names[i]) == Some(FieldValue(sb[k - |a.rows|], i))
  {
    var va, vb := Str(SUBSCRIPTION_ROLE), Str(PUBLISHER_ROLE);
    forall k | |a.rows| <= k < |t.rows|
      ensures Cell(t, k, ROLE_COLUMN) == Some(vb)
    {
      CellOfTaggedConcat(a, b, ROLE_COLUMN, va, vb, k, ROLE_COLUMN);
    }
    forall k, i | |a.rows| <= k < |t.rows| && 0 <= i < |names|
      ensures Cell(t, k, names[i]) == Some(FieldValue(sb[k - |a.rows|], i))
    {
      TaggedSecondCell(a, b, names, sb, t, k - |a.rows|, i);
    }
  }

  /** One cell of a row from the second section. */
  lemma TaggedSecondCell(a: DataFrame, b: DataFrame, names: seq<string>, sb: seq<seq<string>>, t: DataFrame, k: nat, i: nat)
    requires DistinctNames(names) && ROLE_COLUMN !in names
    requires a.columns == names && b.columns == names && |sb| == |b.rows|
    requires k < |b.rows| && i < |names|
    requires RowOf(sb[k], |names|) == Ok(b.rows[k])
    requires t == ConcatFrames(SetColumn(a, ROLE_COLUMN, Str(SUBSCRIPTION_ROLE)), SetColumn(b, ROLE_COLUMN, Str(PUBLISHER_ROLE)))
    ensures |a.rows| + k < |t.rows|
    ensures Cell(t, |a.rows| + k, names[i]) == Some(FieldValue(sb[k], i))
  {
    CellOfTaggedConcat(a, b, ROLE_COLUMN, Str(SUBSCRIPTION_ROLE), Str(PUBLISHER_ROLE), |a.rows| + k, names[i]);
    CellOfCsv(b, names, sb[k], k, i);
  }

  /** Two parsed sections tagged by role and concatenated hold their records by role. */
  lemma TaggedSectionCells(a: DataFrame, b: DataFrame, names: seq<string>, sa: seq<seq<string>>,
                           sb: seq<seq<string>>, t: DataFrame)
    requires DistinctNames(names) && ROLE_COLUMN !in names
    requires a.columns == names && b.columns == names
    requires |sa| == |a.rows| && |sb| == |b.rows|
    requires forall k :: 0 <= k < |a.rows| ==> RowOf(sa[k], |names|) == Ok(a.rows[k])
    requires forall k :: 0 <= k < |b.rows| ==> RowOf(sb[k], |names|) == Ok(b.rows[k])
    requires t == ConcatFrames(SetColumn(a, ROLE_COLUMN, Str(SUBSCRIPTION_ROLE)), SetColumn(b, ROLE_COLUMN, Str(PUBLISHER_ROLE)))
    ensures RowsByRole(t, names, sa, sb)
  {
    TaggedFirstCells(a, b, names, sa, t);
    TaggedSecondCells(a, b, names, sb, t);
  }

  /** Two tagged sections as parsed: the subscriptions records after the header
      line, tagged `Subscription`, then the publishers records after the header
      line, tagged `Publisher`, each record's fields filled into the schema by
      position. */
  lemma TaggedSectionsRows(subsText: string, pubsText: string, schema: seq<string>)
    requires DistinctNames(schema) && ROLE_COLUMN !in schema
    requires TaggedSections(subsText, pubsText, schema).Ok?
    ensures RowsByRole(TaggedSections(subsText, pubsText, schema).value, schema,
                       BodyRecords(subsText), BodyRecords(pubsText))
  {
    var a := ReadCsv(subsText, Semicolon, schema).value;
    var b := ReadCsv(pubsText, Semicolon, schema).value;
    BodyRows(subsText, schema);
    BodyRows(pubsText, schema);
    var t := TaggedSections(subsText, pubsText, schema).value;
    TaggedSectionCells(a, b, schema, BodyRecords(subsText), BodyRecords(pubsText), t);
  }

  /** A readable latency file gives every subscriptions record after the
      section's header line, tagged `Subscription`, then every publishers record
      after its header line, tagged `Publisher`, in file order. */
  lemma LatencyRowsByRole(lines: seq<string>)
    requires LatencyData(lines).Ok?
    ensures SUBSCRIPTIONS_MARKER in lines && PUBLISHERS_MARKER in lines
    ensures RowsByRole(LatencyData(lines).value, LatencyColumns(),
                       BodyRecords(SectionTexts(lines).0), BodyRecords(SectionTexts(lines).1))
  {
    SchemasDistinct();
    TaggedSectionsRows(SectionTexts(lines).0, SectionTexts(lines).1, LatencyColumns());
  }

  /** Every row of `t` carries each listed column's constant. */
  predicate Tagged(t: DataFrame, extras: Dict<Value>)
  {
    forall k, e :: 0 <= k < |t.rows| && 0 <= e < |extras| ==> Cell(t, k, extras[e].0) == Some(extras[e].1)
  }

  /** A latency or resources file read with extra columns carries them on every row. */
  lemma ReadFileTagged(files: map<string, string>, path: string, extras: Dict<Value>)
    ensures ReadLatencyFile(files, path, extras).Ok? ==> Tagged(ReadLatencyFile(files, path, extras).value, extras)
    ensures ReadResourcesFile(files, path, extras).Ok? ==> Tagged(ReadResourcesFile(files, path, extras).value, extras)
  {
  }
}
