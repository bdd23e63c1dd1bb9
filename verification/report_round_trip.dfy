/** A latency report as the benchmark writes it, read back by the result
    parser: the subscriptions section, then the publishers section, each
    written by `log_trackers_latency_all_stats`, come back as one row per
    tracker, tagged with its role, holding the tracker's printed fields. */
module ReportRoundTrip {
  import opened Wrappers
  import opened Seqs
  import opened Text
  import opened Frame
  import opened StatLogger
  import opened ResultParser

  const SUBSCRIPTIONS_TITLE: string := "Subscriptions stats:"
  const PUBLISHERS_TITLE: string := "Publishers stats:"

  /** The lines of a latency report: subscriptions first, then publishers. */
  function ReportLines(subs: seq<Tracker>, pubs: seq<Tracker>): seq<string>
  {
    LatencyAllLines(subs, SUBSCRIPTIONS_TITLE) + LatencyAllLines(pubs, PUBLISHERS_TITLE)
  }

  function ReportText(subs: seq<Tracker>, pubs: seq<Tracker>): string
  {
    Concat(ReportLines(subs, pubs))
  }

  /** Tracker names the stream can print without breaking a record. */
  predicate Printable(trackers: seq<Tracker>)
  {
    forall i :: 0 <= i < |trackers| ==> NoDelimiters(trackers[i].nodeName) && NoDelimiters(trackers[i].entityName)
  }

  /** The printed fields of each tracker, in order. */
  function FieldRecords(trackers: seq<Tracker>): (r: seq<seq<string>>)
    ensures |r| == |trackers|
    ensures forall i :: 0 <= i < |trackers| ==> r[i] == StatsFields(trackers[i])
  {
    seq(|trackers|, i requires 0 <= i < |trackers| => StatsFields(trackers[i]))
  }

  /** A line holding a `;`-separated record of at least two fields. */
  predicate RecordLine(l: string)
  {
    IsLine(l) && |Split(StripNewline(l), ';')| > 1
  }

  /** A record line is not blank and is neither section marker. */
  lemma RecordLineIsNoMarker(l: string)
    requires RecordLine(l)
    ensures !IsBlank(Semicolon, l)
    ensures l != SUBSCRIPTIONS_MARKER && l != PUBLISHERS_MARKER
  {
    var s := StripNewline(l);
    if ';' !in s {
      SplitWithoutSep(s, ';');
    }
    var i :| 0 <= i < |s| && s[i] == ';';
    assert !IsSpace(s[i]);
    assert ';' !in StripNewline(SUBSCRIPTIONS_MARKER);
    assert ';' !in StripNewline(PUBLISHERS_MARKER);
  }

  /** The header line is a record line whose record is the header's names. */
  lemma HeaderRecord()
    ensures RecordLine(HeaderLine())
    ensures Split(StripNewline(HeaderLine()), ';') == LATENCY_HEADER
    ensures Records(Semicolon, [HeaderLine()]) == [LATENCY_HEADER]
  {
    HeaderLineFields();
    RecordLineIsNoMarker(HeaderLine());
  }

  /** Every statistics line of printable trackers is a record line. */
  lemma StatsRecordLines(trackers: seq<Tracker>)
    requires Printable(trackers)
    ensures |StatsLines(trackers)| == |trackers|
    ensures forall i :: 0 <= i < |trackers| ==> RecordLine(StatsLines(trackers)[i])
  {
    StatsLinesShape(trackers);
    forall i | 0 <= i < |trackers| ensures RecordLine(StatsLines(trackers)[i]) {
      StatsLineFields(trackers[i]);
    }
  }

  lemma {:induction false} RecordsAppend(d: Delimiter, a: seq<string>, b: seq<string>)
    ensures Records(d, a + b) == Records(d, a) + Records(d, b)
  {
    if |a| == 0 {
      assert a + b == b;
    } else {
      assert (a + b)[0] == a[0] && (a + b)[1..] == a[1..] + b;
      RecordsAppend(d, a[1..], b);
    }
  }

  /** A record line read on its own yields exactly its fields. */
  lemma SingleRecord(l: string)
    requires RecordLine(l)
    ensures Records(Semicolon, [l]) == [Split(StripNewline(l), ';')]
  {
    RecordLineIsNoMarker(l);
    assert [l][1..] == [];
  }

  /** The fields of each line, in order. */
  function LineFields(ls: seq<string>): (r: seq<seq<string>>)
    ensures |r| == |ls|
    ensures forall i :: 0 <= i < |ls| ==> r[i] == Split(StripNewline(ls[i]), ';')
  {
    seq(|ls|, i requires 0 <= i < |ls| => Split(StripNewline(ls[i]), ';'))
  }

  /** Record lines are never skipped: each yields one record, its fields. */
  lemma {:induction false} RecordLinesRecords(ls: seq<string>)
    requires AllRecordLines(ls)
    ensures Records(Semicolon, ls) == LineFields(ls)
  {
    if |ls| > 0 {
      RecordLineIsNoMarker(ls[0]);
      assert AllRecordLines(ls[1..]) by {
        forall i | 0 <= i < |ls| - 1 ensures ls[1..][i] == ls[i + 1] { }
      }
      RecordLinesRecords(ls[1..]);
      assert LineFields(ls) == [Split(StripNewline(ls[0]), ';')] + LineFields(ls[1..]);
    }
  }

  /** The records of the statistics lines are the trackers' fields. */
  lemma StatsRecords(trackers: seq<Tracker>)
    requires Printable(trackers)
    ensures Records(Semicolon, StatsLines(trackers)) == FieldRecords(trackers)
  {
    StatsRecordLines(trackers);
    StatsLinesShape(trackers);
    RecordLinesRecords(StatsLines(trackers));
    forall i | 0 <= i < |trackers|
      ensures LineFields(StatsLines(trackers))[i] == FieldRecords(trackers)[i]
    {
      StatsLineFields(trackers[i]);
    }
  }

  /** Lines written whole and read back keep their records, in order. */
  lemma LinesRecords(header: string, body: seq<string>)
    requires RecordLine(header)
    requires forall i :: 0 <= i < |body| ==> RecordLine(body[i])
    ensures Records(Semicolon, ReadLines(Concat([header] + body))) ==
              [Split(StripNewline(header), ';')] + Records(Semicolon, body)
  {
    var lines := [header] + body;
    assert forall i :: 0 <= i < |lines| ==> IsLine(lines[i]);
    ReadLinesConcat(lines);
    RecordsAppend(Semicolon, [header], body);
    SingleRecord(header);
  }

  /** A section body read by pandas: its header record is dropped and every
      tracker's fields remain. */
  lemma SectionBodyRecords(header: string, trackers: seq<Tracker>)
    requires RecordLine(header)
    requires Printable(trackers)
    ensures Records(Semicolon, ReadLines(Concat([header] + StatsLines(trackers)))) ==
              [Split(StripNewline(header), ';')] + FieldRecords(trackers)
    ensures BodyRecords(Concat([header] + StatsLines(trackers))) == FieldRecords(trackers)
  {
    StatsRecordLines(trackers);
    LinesRecords(header, StatsLines(trackers));
    StatsRecords(trackers);
  }

  /** The lines of a file holding two marked sections under the same header. */
  function MarkedLines(h: string, s: seq<string>, p: seq<string>): seq<string>
  {
    ["\n", SUBSCRIPTIONS_MARKER, h] + s + ["\n", PUBLISHERS_MARKER, h] + p
  }

  predicate AllRecordLines(ls: seq<string>)
  {
    forall i :: 0 <= i < |ls| ==> RecordLine(ls[i])
  }

  /** The subscriptions marker is found on the second line. */
  lemma SubscriptionsMarkerAt(h: string, s: seq<string>, p: seq<string>)
    ensures SUBSCRIPTIONS_MARKER in MarkedLines(h, s, p)
    ensures IndexOf(MarkedLines(h, s, p), SUBSCRIPTIONS_MARKER) == Some(1)
  {
    var lines := MarkedLines(h, s, p);
    assert lines[0] == "\n" && lines[1] == SUBSCRIPTIONS_MARKER;
  }

  /** The publishers marker is found right after the subscriptions section
      and its blank line, when no earlier line is that marker. */
  lemma PublishersMarkerAt(h: string, s: seq<string>, p: seq<string>)
    requires h != PUBLISHERS_MARKER
    requires forall k :: 0 <= k < |s| ==> s[k] != PUBLISHERS_MARKER
    ensures PUBLISHERS_MARKER in MarkedLines(h, s, p)
    ensures IndexOf(MarkedLines(h, s, p), PUBLISHERS_MARKER) == Some(|s| + 4)
  {
    var lines := MarkedLines(h, s, p);
    var n := |s|;
    assert lines[n + 4] == PUBLISHERS_MARKER;
    assert forall k :: 3 <= k < n + 3 ==> lines[k] == s[k - 3];
    assert lines[0] == "\n" && lines[1] == SUBSCRIPTIONS_MARKER && lines[2] == h && lines[n + 3] == "\n";
  }

  /** The reader's slices of a marked file: the header and the records of each
      section, without the blank line before the publishers marker. */
  lemma MarkedSlices(h: string, s: seq<string>, p: seq<string>)
    ensures SubscriberSection(MarkedLines(h, s, p), 1, |s| + 4) == [h] + s
    ensures |s| + 4 < |MarkedLines(h, s, p)|
    ensures PublisherSection(MarkedLines(h, s, p), |s| + 4) == [h] + p
  {
    var lines := MarkedLines(h, s, p);
    SubscriberSectionSpan(lines, 1, |s| + 4);
    assert SubscriberSection(lines, 1, |s| + 4) == [h] + s;
    assert lines[|s| + 5..] == [h] + p;
  }

  /** In a marked file whose other lines are record lines, each marker is found
      on its own line and the reader's slices recover the header and records of
      each section; the blank line before the publishers marker is dropped. */
  lemma MarkedSections(h: string, s: seq<string>, p: seq<string>)
    requires RecordLine(h) && AllRecordLines(s)
    ensures var lines := MarkedLines(h, s, p);
            && SUBSCRIPTIONS_MARKER in lines && PUBLISHERS_MARKER in lines
            && IndexOf(lines, SUBSCRIPTIONS_MARKER) == Some(1)
            && IndexOf(lines, PUBLISHERS_MARKER) == Some(|s| + 4)
            && SectionTexts(lines) == (Concat([h] + s), Concat([h] + p))
  {
    var lines := MarkedLines(h, s, p);
    var n := |s|;
    RecordLineIsNoMarker(h);
    forall k | 0 <= k < n ensures s[k] != PUBLISHERS_MARKER {
      RecordLineIsNoMarker(s[k]);
    }
    SubscriptionsMarkerAt(h, s, p);
    PublishersMarkerAt(h, s, p);
    MarkedSlices(h, s, p);
  }

  /** A report with both sections non-empty is a marked file of the header and
      the statistics lines. */
  lemma ReportLinesMarked(subs: seq<Tracker>, pubs: seq<Tracker>)
    requires |subs| > 0 && |pubs| > 0
    ensures ReportLines(subs, pubs) == MarkedLines(HeaderLine(), StatsLines(subs), StatsLines(pubs))
  {
    var h := HeaderLine();
    var a, b := ["\n", SUBSCRIPTIONS_MARKER, h], ["\n", PUBLISHERS_MARKER, h];
    assert SUBSCRIPTIONS_TITLE + "\n" == SUBSCRIPTIONS_MARKER;
    assert PUBLISHERS_TITLE + "\n" == PUBLISHERS_MARKER;
    assert LatencyAllLines(subs, SUBSCRIPTIONS_TITLE) == a + StatsLines(subs);
    assert LatencyAllLines(pubs, PUBLISHERS_TITLE) == b + StatsLines(pubs);
    AppendRegroup(a, StatsLines(subs), b, StatsLines(pubs));
  }

  /** Kept apart from the lemma above, where the unfolded report lines make
      the same regrouping too expensive to prove in place. */
  lemma AppendRegroup<T>(a: seq<T>, s: seq<T>, b: seq<T>, p: seq<T>)
    ensures (a + s) + (b + p) == a + s + b + p
  {
  }

  /** The blank line and both marker lines are whole lines. */
  lemma MarkersAreLines()
    ensures IsLine("\n") && IsLine(SUBSCRIPTIONS_MARKER) && IsLine(PUBLISHERS_MARKER)
  {
    assert NEWLINE !in SUBSCRIPTIONS_MARKER[..|SUBSCRIPTIONS_MARKER| - 1];
    assert NEWLINE !in PUBLISHERS_MARKER[..|PUBLISHERS_MARKER| - 1];
  }

  /** A marked file of whole lines reads back line for line. */
  lemma MarkedReadLines(h: string, s: seq<string>, p: seq<string>)
    requires RecordLine(h) && AllRecordLines(s) && AllRecordLines(p)
    ensures ReadLines(Concat(MarkedLines(h, s, p))) == MarkedLines(h, s, p)
  {
    var lines := MarkedLines(h, s, p);
    var n := |s|;
    MarkersAreLines();
    forall k | 0 <= k < |lines| ensures IsLine(lines[k]) {
      if 3 <= k < n + 3 {
        assert lines[k] == s[k - 3];
      } else if n + 6 <= k {
        assert lines[k] == p[k - n - 6];
      }
    }
    ReadLinesConcat(lines);
  }

  /** Every record after the header of a printed section fits the 13-name schema. */
  lemma FieldRecordsFit(trackers: seq<Tracker>)
    ensures forall k :: 0 <= k < |trackers| ==> |FieldRecords(trackers)[k]| == |LatencyColumns()|
  {
  }

  /** A file whose two sections each hold a header record followed by records
      that fit the schema is read as those records, tagged by role. */
  lemma SectionsData(lines: seq<string>, hs: seq<string>, hp: seq<string>, fs: seq<seq<string>>, fp: seq<seq<string>>)
    requires SUBSCRIPTIONS_MARKER in lines && PUBLISHERS_MARKER in lines
    requires Records(Semicolon, ReadLines(SectionTexts(lines).0)) == [hs] + fs
    requires Records(Semicolon, ReadLines(SectionTexts(lines).1)) == [hp] + fp
    requires forall k :: 0 <= k < |fs| ==> |fs[k]| <= |LatencyColumns()|
    requires forall k :: 0 <= k < |fp| ==> |fp[k]| <= |LatencyColumns()|
    ensures LatencyData(lines).Ok?
    ensures RowsByRole(LatencyData(lines).value, LatencyColumns(), fs, fp)
  {
    var (subsText, pubsText) := SectionTexts(lines);
    SchemasDistinct();
    assert BodyRecords(subsText) == fs;
    assert BodyRecords(pubsText) == fp;
    assert ReadCsv(subsText, Semicolon, LatencyColumns()).Ok?;
    assert ReadCsv(pubsText, Semicolon, LatencyColumns()).Ok?;
    LatencyRowsByRole(lines);
  }

  /** A marked file of record lines, written and read back, splits into its
      two sections' texts. */
  lemma MarkedTexts(h: string, s: seq<string>, p: seq<string>)
    requires RecordLine(h) && AllRecordLines(s) && AllRecordLines(p)
    ensures var lines := ReadLines(Concat(MarkedLines(h, s, p)));
            && SUBSCRIPTIONS_MARKER in lines && PUBLISHERS_MARKER in lines
            && SectionTexts(lines) == (Concat([h] + s), Concat([h] + p))
  {
    MarkedReadLines(h, s, p);
    MarkedSections(h, s, p);
  }

  /** The sections of a marked file of printed trackers read back as the
      trackers' fields, tagged by role. */
  lemma MarkedReadBack(h: string, subs: seq<Tracker>, pubs: seq<Tracker>)
    requires h == HeaderLine()
    requires Printable(subs) && Printable(pubs)
    ensures var lines := ReadLines(Concat(MarkedLines(h, StatsLines(subs), StatsLines(pubs))));
            && LatencyData(lines).Ok?
            && RowsByRole(LatencyData(lines).value, LatencyColumns(), FieldRecords(subs), FieldRecords(pubs))
            && SUBSCRIPTIONS_MARKER in lines && PUBLISHERS_MARKER in lines
            && |Records(Semicolon, ReadLines(SectionTexts(lines).0))| > 0
            && Records(Semicolon, ReadLines(SectionTexts(lines).0))[0] == LATENCY_HEADER
  {
    var s, p := StatsLines(subs), StatsLines(pubs);
    HeaderRecord();
    StatsRecordLines(subs);
    StatsRecordLines(pubs);
    MarkedTexts(h, s, p);
    var lines := ReadLines(Concat(MarkedLines(h, s, p)));
    SectionBodyRecords(h, subs);
    SectionBodyRecords(h, pubs);
    FieldRecordsFit(subs);
    FieldRecordsFit(pubs);
    var hf := Split(StripNewline(h), ';');
    assert Records(Semicolon, ReadLines(SectionTexts(lines).0)) == [hf] + FieldRecords(subs);
    SectionsData(lines, hf, hf, FieldRecords(subs), FieldRecords(pubs));
  }

  /** The round trip: a report with at least one subscription tracker and one
      publisher tracker, whose names print cleanly, is read back as one row
      per subscription tracker, tagged `Subscription`, then one row per
      publisher tracker, tagged `Publisher`, each row holding its tracker's
      printed fields under the reader's schema. The header line the reader
      discards names the columns in the order the writer prints them. */
  lemma ReportReadBack(subs: seq<Tracker>, pubs: seq<Tracker>)
    requires |subs| > 0 && |pubs| > 0
    requires Printable(subs) && Printable(pubs)
    ensures LatencyData(ReadLines(ReportText(subs, pubs))).Ok?
    ensures RowsByRole(LatencyData(ReadLines(ReportText(subs, pubs))).value, LatencyColumns(),
                       FieldRecords(subs), FieldRecords(pubs))
    ensures var lines := ReadLines(ReportText(subs, pubs));
            && SUBSCRIPTIONS_MARKER in lines && PUBLISHERS_MARKER in lines
            && |Records(Semicolon, ReadLines(SectionTexts(lines).0))| > 0
            && Records(Semicolon, ReadLines(SectionTexts(lines).0))[0] == ORIGINAL_LATENCY_HEADER
  {
    ReportLinesMarked(subs, pubs);
    MarkedReadBack(HeaderLine(), subs, pubs);
  }

  /** A single section of record lines under a marker holds that marker and
      no other marker. */
  lemma SingleSectionMarkers(marker: string, h: string, s: seq<string>)
    requires marker == SUBSCRIPTIONS_MARKER || marker == PUBLISHERS_MARKER
    requires RecordLine(h) && AllRecordLines(s)
    ensures var lines := ["\n", marker, h] + s;
            && marker in lines
            && (marker == SUBSCRIPTIONS_MARKER ==> PUBLISHERS_MARKER !in lines)
            && (marker == PUBLISHERS_MARKER ==> SUBSCRIPTIONS_MARKER !in lines)
  {
    var lines := ["\n", marker, h] + s;
    assert forall k :: 3 <= k < |lines| ==> lines[k] == s[k - 3];
    RecordLineIsNoMarker(h);
    forall k | 0 <= k < |s| ensures s[k] != SUBSCRIPTIONS_MARKER && s[k] != PUBLISHERS_MARKER {
      RecordLineIsNoMarker(s[k]);
    }
    assert lines[1] == marker;
  }

  /** A single section of record lines under a marker, written and read back,
      holds that marker and no other marker. */
  lemma SingleSectionLines(marker: string, h: string, s: seq<string>)
    requires marker == SUBSCRIPTIONS_MARKER || marker == PUBLISHERS_MARKER
    requires RecordLine(h) && AllRecordLines(s)
    ensures var lines := ReadLines(Concat(["\n", marker, h] + s));
            && marker in lines
            && (marker == SUBSCRIPTIONS_MARKER ==> PUBLISHERS_MARKER !in lines)
            && (marker == PUBLISHERS_MARKER ==> SUBSCRIPTIONS_MARKER !in lines)
  {
    var lines := ["\n", marker, h] + s;
    MarkersAreLines();
    forall k | 0 <= k < |lines| ensures IsLine(lines[k]) {
      if k >= 3 {
        assert lines[k] == s[k - 3];
      }
    }
    ReadLinesConcat(lines);
    SingleSectionMarkers(marker, h, s);
  }

  /** A report without subscription trackers (the writer prints nothing for
      an empty section) cannot be read: the subscriptions marker is missing. */
  lemma NoSubscriptionsUnreadable(subs: seq<Tracker>, pubs: seq<Tracker>)
    requires |subs| == 0 && Printable(pubs)
    ensures LatencyData(ReadLines(ReportText(subs, pubs))) == Err(MarkerNotFound(SUBSCRIPTIONS_MARKER))
  {
    assert ReportLines(subs, pubs) == LatencyAllLines(pubs, PUBLISHERS_TITLE);
    if |pubs| > 0 {
      assert PUBLISHERS_TITLE + "\n" == PUBLISHERS_MARKER;
      assert ReportLines(subs, pubs) == ["\n", PUBLISHERS_MARKER, HeaderLine()] + StatsLines(pubs);
      HeaderRecord();
      StatsRecordLines(pubs);
      SingleSectionLines(PUBLISHERS_MARKER, HeaderLine(), StatsLines(pubs));
    }
  }

  /** A report with subscription trackers but no publisher trackers cannot be
      read either: the publishers marker is missing. */
  lemma NoPublishersUnreadable(subs: seq<Tracker>, pubs: seq<Tracker>)
    requires |subs| > 0 && |pubs| == 0 && Printable(subs)
    ensures LatencyData(ReadLines(ReportText(subs, pubs))) == Err(MarkerNotFound(PUBLISHERS_MARKER))
  {
    assert SUBSCRIPTIONS_TITLE + "\n" == SUBSCRIPTIONS_MARKER;
    assert ReportLines(subs, pubs) == ["\n", SUBSCRIPTIONS_MARKER, HeaderLine()] + StatsLines(subs);
    HeaderRecord();
    StatsRecordLines(subs);
    SingleSectionLines(SUBSCRIPTIONS_MARKER, HeaderLine(), StatsLines(subs));
  }
}
