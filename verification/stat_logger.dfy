/** The benchmark's latency report writer: per-tracker `;`-separated statistics
    lines under a titled header, and a totals block that sums the trackers'
    counters. Output streams are modelled as the text they receive. */
module StatLogger {
  import opened Text

  /** Neither the field separator nor a line break character (`\n`, or the
      `\r` that reading translates into one). */
  predicate NoDelimiters(s: string)
  {
    ';' !in s && NEWLINE !in s && RETURN !in s
  }

  /** The rendering of a floating-point value (`std::round`, `setprecision`,
      division) as the stream prints it; the digits are not modelled, only that a
      number never prints a `;` or a line break. */
  type NumberText = s: string | NoDelimiters(s) witness "0"

  /** Statistics of one tracker that are printed from doubles. */
  datatype StatTexts = StatTexts(
    mean: NumberText, sd: NumberText, min: NumberText, max: NumberText,
    frequency: NumberText, throughput: NumberText)

  /** A latency tracker of one (node, topic) pair: integer counters and statistics. */
  datatype Tracker = Tracker(
    nodeName: string, entityName: string, size: nat,
    received: nat, late: nat, tooLate: nat, lost: nat, stat: StatTexts)

  /** The column names of a latency statistics section, in printing order. */
  const LATENCY_HEADER: seq<string> := [
    "node", "topic", "size[b]", "received[#]", "late[#]", "too_late[#]", "lost[#]",
    "mean[us]", "sd[us]", "min[us]", "max[us]", "freq[hz]", "throughput[Kb/s]"]

  /** The column names of the totals block, in printing order. */
  const TOTAL_HEADER: seq<string> := [
    "received[#]", "mean[us]", "late[#]", "late[%]", "too_late[#]", "too_late[%]",
    "lost[#]", "lost[%]"]

  /** The 13 fields of one statistics line. */
  function StatsFields(t: Tracker): seq<string>
  {
    [t.nodeName, t.entityName, NatToString(t.size), NatToString(t.received),
     NatToString(t.late), NatToString(t.tooLate), NatToString(t.lost),
     t.stat.mean, t.stat.sd, t.stat.min, t.stat.max, t.stat.frequency, t.stat.throughput]
  }

  function HeaderLine(): string
  {
    Join(LATENCY_HEADER, ';') + "\n"
  }

  function StatsLine(t: Tracker): string
  {
    Join(StatsFields(t), ';') + "\n"
  }

  /** One statistics line per tracker, in vector order. */
  function StatsLines(trackers: seq<Tracker>): seq<string>
  {
    if |trackers| == 0 then []
    else StatsLines(trackers[..|trackers| - 1]) + [StatsLine(trackers[|trackers| - 1])]
  }

  /** The blank line, the title and the header that open a section. */
  function SectionHead(title: string): seq<string>
  {
    ["\n", title + "\n", HeaderLine()]
  }

  /** The lines `log_trackers_latency_all_stats` writes. */
  function LatencyAllLines(trackers: seq<Tracker>, title: string): seq<string>
  {
    if |trackers| == 0 then [] else SectionHead(title) + StatsLines(trackers)
  }

  /** `log_trackers_latency_all_stats`: the text written to the stream. */
  method LogTrackersLatencyAllStats(trackers: seq<Tracker>, title: string) returns (text: string)
    ensures |trackers| == 0 ==> text == ""
    ensures text == Concat(LatencyAllLines(trackers, title))
  {
    if |trackers| == 0 {
      return "";
    }
    var body := "";
    var i := 0;
    while i < |trackers|
      invariant 0 <= i <= |trackers|
      invariant body == Concat(StatsLines(trackers[..i]))
    {
      var line := StatsLine(trackers[i]);
      assert trackers[..i + 1][..i] == trackers[..i];
      ConcatAppend(StatsLines(trackers[..i]), [line]);
      assert Concat([line]) == line;
      body := body + line;
      i := i + 1;
    }
    assert trackers[..i] == trackers;
    ConcatAppend(SectionHead(title), StatsLines(trackers));
    text := Concat(SectionHead(title)) + body;
  }

  lemma {:induction false} StatsLinesShape(trackers: seq<Tracker>)
    ensures |StatsLines(trackers)| == |trackers|
    ensures forall i :: 0 <= i < |trackers| ==> StatsLines(trackers)[i] == StatsLine(trackers[i])
  {
    if |trackers| > 0 {
      StatsLinesShape(trackers[..|trackers| - 1]);
    }
  }

  /** The section layout: nothing at all for no trackers, otherwise a blank
      line, the title, the header, then one line per tracker in vector order. */
  lemma LatencyAllLayout(trackers: seq<Tracker>, title: string)
    ensures |trackers| == 0 ==> LatencyAllLines(trackers, title) == []
    ensures |trackers| > 0 ==>
              var lines := LatencyAllLines(trackers, title);
              && |lines| == 3 + |trackers|
              && lines[0] == "\n" && lines[1] == title + "\n" && lines[2] == HeaderLine()
              && forall i :: 0 <= i < |trackers| ==> lines[3 + i] == StatsLine(trackers[i])
  {
    if |trackers| > 0 {
      var head := SectionHead(title);
      StatsLinesShape(trackers);
      HeadThenStats(head, StatsLines(trackers), trackers);
      assert head[0] == "\n" && head[1] == title + "\n" && head[2] == HeaderLine();
    }
  }

  lemma HeadThenStats(head: seq<string>, body: seq<string>, trackers: seq<Tracker>)
    requires |body| == |trackers|
    requires forall i :: 0 <= i < |trackers| ==> body[i] == StatsLine(trackers[i])
    ensures |head + body| == |head| + |trackers|
    ensures forall i :: 0 <= i < |head| ==> (head + body)[i] == head[i]
    ensures forall i :: 0 <= i < |trackers| ==> (head + body)[|head| + i] == StatsLine(trackers[i])
  {
  }

  /** A line of `;`-joined fields that hold no delimiter splits back into the fields. */
  lemma JoinedLineFields(fs: seq<string>)
    requires |fs| > 0
    requires forall i :: 0 <= i < |fs| ==> NoDelimiters(fs[i])
    ensures IsLine(Join(fs, ';') + "\n")
    ensures Split(StripNewline(Join(fs, ';') + "\n"), ';') == fs
  {
    JoinHasNoDelimiters(fs);
    var j := Join(fs, ';');
    assert (j + "\n")[..|j + "\n"| - 1] == j;
    SplitJoin(fs, ';');
  }

  /** The header line splits back into the 13 column names. */
  lemma HeaderLineFields()
    ensures IsLine(HeaderLine())
    ensures Split(StripNewline(HeaderLine()), ';') == LATENCY_HEADER
  {
    JoinedLineFields(LATENCY_HEADER);
  }

  /** A statistics line splits back into the tracker's 13 fields when its names
      hold no `;` and no line break. */
  lemma StatsLineFields(t: Tracker)
    requires NoDelimiters(t.nodeName) && NoDelimiters(t.entityName)
    ensures IsLine(StatsLine(t))
    ensures Split(StripNewline(StatsLine(t)), ';') == StatsFields(t)
  {
    var fs := StatsFields(t);
    forall i | 0 <= i < |fs| ensures NoDelimiters(fs[i]) {
      if 2 <= i < 7 {
        DigitsHaveNoDelimiters(fs[i]);
      }
    }
    JoinedLineFields(fs);
  }

  lemma DigitsHaveNoDelimiters(s: string)
    requires AllDigits(s)
    ensures NoDelimiters(s)
  {
  }

  lemma {:induction false} JoinHasNoDelimiters(fs: seq<string>)
    requires forall i :: 0 <= i < |fs| ==> NEWLINE !in fs[i] && RETURN !in fs[i]
    ensures NEWLINE !in Join(fs, ';') && RETURN !in Join(fs, ';')
  {
    if |fs| > 1 {
      JoinHasNoDelimiters(fs[1..]);
    }
  }

  /** The four integer counters of a tracker that the totals block sums. */
  datatype Counter = Received | Lost | Late | TooLate

  function CounterOf(t: Tracker, counter: Counter): nat
  {
    match counter
    case Received => t.received
    case Lost => t.lost
    case Late => t.late
    case TooLate => t.tooLate
  }

  /** A counter summed over trackers. */
  function SumOf(trackers: seq<Tracker>, counter: Counter): nat
  {
    if |trackers| == 0 then 0
    else SumOf(trackers[..|trackers| - 1], counter) + CounterOf(trackers[|trackers| - 1], counter)
  }

  lemma {:induction false} SumOfAppend(a: seq<Tracker>, b: seq<Tracker>, counter: Counter)
    ensures SumOf(a + b, counter) == SumOf(a, counter) + SumOf(b, counter)
  {
    if |b| > 0 {
      assert (a + b)[..|a + b| - 1] == a + b[..|b| - 1];
      SumOfAppend(a, b[..|b| - 1], counter);
    } else {
      assert a + b == a;
    }
  }

  datatype Totals = Totals(received: nat, lost: nat, late: nat, tooLate: nat)

  /** The counter-summing loop of `log_trackers_latency_total_stats`. */
  method LatencyTotals(trackers: seq<Tracker>) returns (totals: Totals)
    ensures totals.received == SumOf(trackers, Received)
    ensures totals.lost == SumOf(trackers, Lost)
    ensures totals.late == SumOf(trackers, Late)
    ensures totals.tooLate == SumOf(trackers, TooLate)
  {
    totals := Totals(0, 0, 0, 0);
    var i := 0;
    while i < |trackers|
      invariant 0 <= i <= |trackers|
      invariant totals.received == SumOf(trackers[..i], Received)
      invariant totals.lost == SumOf(trackers[..i], Lost)
      invariant totals.late == SumOf(trackers[..i], Late)
      invariant totals.tooLate == SumOf(trackers[..i], TooLate)
    {
      var t := trackers[i];
      assert trackers[..i + 1][..i] == trackers[..i];
      totals := Totals(totals.received + t.received, totals.lost + t.lost,
                       totals.late + t.late, totals.tooLate + t.tooLate);
      i := i + 1;
    }
    assert trackers[..i] == trackers;
  }

  /** Values of the totals block computed in floating point. */
  datatype TotalTexts = TotalTexts(
    averageLatency: NumberText, latePercentage: NumberText,
    tooLatePercentage: NumberText, lostPercentage: NumberText)

  function TotalValueFields(totals: Totals, texts: TotalTexts): seq<string>
  {
    [NatToString(totals.received), texts.averageLatency, NatToString(totals.late),
     texts.latePercentage, NatToString(totals.tooLate), texts.tooLatePercentage,
     NatToString(totals.lost), texts.lostPercentage]
  }

  function TotalHeaderLine(): string
  {
    Join(TOTAL_HEADER, ';') + "\n"
  }

  lemma TotalHeaderLineFields()
    ensures IsLine(TotalHeaderLine())
    ensures Split(StripNewline(TotalHeaderLine()), ';') == TOTAL_HEADER
  {
    JoinedLineFields(TOTAL_HEADER);
  }

  /** `log_total_stats`: the header line and the value line. */
  function TotalStatsLines(totals: Totals, texts: TotalTexts): seq<string>
  {
    [TotalHeaderLine(), TotalValueLine(totals, texts)]
  }

  function TotalValueLine(totals: Totals, texts: TotalTexts): string
  {
    Join(TotalValueFields(totals, texts), ';') + "\n"
  }

  /** Whether a value line read back from a totals block carries these counts,
      each in the column of its header name. */
  predicate CarriesTotals(header: seq<string>, values: seq<string>, totals: Totals)
  {
    && |header| == 8 && |values| == 8
    && header[0] == "received[#]" && AllDigits(values[0]) && DigitsValue(values[0]) == totals.received
    && header[2] == "late[#]" && AllDigits(values[2]) && DigitsValue(values[2]) == totals.late
    && header[4] == "too_late[#]" && AllDigits(values[4]) && DigitsValue(values[4]) == totals.tooLate
    && header[6] == "lost[#]" && AllDigits(values[6]) && DigitsValue(values[6]) == totals.lost
  }

  lemma TotalValueLineFields(totals: Totals, texts: TotalTexts)
    ensures IsLine(TotalValueLine(totals, texts))
    ensures Split(StripNewline(TotalValueLine(totals, texts)), ';') == TotalValueFields(totals, texts)
  {
    var values := TotalValueFields(totals, texts);
    DigitsHaveNoDelimiters(values[0]);
    DigitsHaveNoDelimiters(values[2]);
    DigitsHaveNoDelimiters(values[4]);
    DigitsHaveNoDelimiters(values[6]);
    JoinedLineFields(values);
  }

  lemma TotalStatsLinesAreLines(totals: Totals, texts: TotalTexts)
    ensures ReadLines(Concat(TotalStatsLines(totals, texts))) == TotalStatsLines(totals, texts)
  {
    var a := TotalHeaderLine();
    var b := TotalValueLine(totals, texts);
    TotalHeaderLineFields();
    TotalValueLineFields(totals, texts);
    ReadTwoLines(a, b);
    assert Concat([a, b]) == a + Concat([b]) == a + (b + Concat([]));
    assert b + Concat([]) == b;
  }

  /** The totals header and value fields carry the counts, each under its name. */
  lemma TotalFieldsCarry(totals: Totals, texts: TotalTexts)
    ensures CarriesTotals(TOTAL_HEADER, TotalValueFields(totals, texts), totals)
  {
    DigitsValueOfNatToString(totals.received);
    DigitsValueOfNatToString(totals.late);
    DigitsValueOfNatToString(totals.tooLate);
    DigitsValueOfNatToString(totals.lost);
  }

  /** The totals block read back: two lines, and the counts decode from the
      columns their header names. */
  lemma TotalStatsReadBack(totals: Totals, texts: TotalTexts)
    ensures var lines := ReadLines(Concat(TotalStatsLines(totals, texts)));
            |lines| == 2
            && CarriesTotals(Split(StripNewline(lines[0]), ';'), Split(StripNewline(lines[1]), ';'), totals)
  {
    TotalStatsLinesAreLines(totals, texts);
    TotalHeaderLineFields();
    TotalValueLineFields(totals, texts);
    TotalFieldsCarry(totals, texts);
  }

  /** `log_trackers_latency_total_stats`: the totals block of the summed counters. */
  method LogTrackersLatencyTotalStats(trackers: seq<Tracker>, texts: TotalTexts) returns (text: string)
    ensures var lines := ReadLines(text);
            |lines| == 2
            && CarriesTotals(Split(StripNewline(lines[0]), ';'), Split(StripNewline(lines[1]), ';'),
                             Totals(SumOf(trackers, Received), SumOf(trackers, Lost),
                                    SumOf(trackers, Late), SumOf(trackers, TooLate)))
  {
    var totals := LatencyTotals(trackers);
    text := Concat(TotalStatsLines(totals, texts));
    TotalStatsReadBack(totals, texts);
  }
}
