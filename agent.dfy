/**
 * The command-line reporting agent: picks a reader by the path's suffix,
 * totals the three ESG columns into a metrics dict, and assembles the report
 * document (title, date, one line per metric, a summary of a fixed narrative
 * sentence) under a file name derived from the company name.
 */
module Agent {
  import opened Wrappers
  import opened Text
  import opened Numerals
  import opened Tables
  import opened Dicts
  import opened Formats

  /** The exceptions the agent raises. */
  datatype Exception =
    | ValueError(message: string)   // load_data: a suffix it has no reader for
    | KeyError(key: string)         // generate_report: a metric the narrative needs is missing
    | ReadError(message: string)    // whatever the file reader raised

  // ---------------------------------------------------------------- load_data

  /** The reader `load_data` picks: CSV for ".csv", Excel for ".xlsx", nothing else. */
  function LoadFormat(path: string): (f: Format)
    ensures f == Csv <==> EndsWith(path, ".csv")
    ensures f == Excel <==> EndsWith(path, ".xlsx")
    ensures f != Json
  {
    assert EndsWith(path, ".csv") ==> path[|path| - 1] == 'v';
    assert EndsWith(path, ".xlsx") ==> path[|path| - 1] == 'x';
    if EndsWith(path, ".csv") then Csv
    else if EndsWith(path, ".xlsx") then Excel
    else Unsupported
  }

  /**
   * `load_data(filepath)`. The file readers are outside the model: `read`
   * stands for them, given the chosen format and the path.
   */
  function LoadData(path: string, read: (Format, string) -> Result<Table, string>): (r: Result<Table, Exception>)
    ensures r == Err(ValueError("Unsupported file format")) <==> LoadFormat(path) == Unsupported
    ensures r.Ok? ==> LoadFormat(path) != Unsupported && read(LoadFormat(path), path) == Ok(r.value)
    ensures LoadFormat(path) != Unsupported && read(LoadFormat(path), path).Ok? ==>
              r == Ok(read(LoadFormat(path), path).value)
    ensures LoadFormat(path) != Unsupported && read(LoadFormat(path), path).Err? ==>
              r == Err(ReadError(read(LoadFormat(path), path).error))
  {
    var format := LoadFormat(path);
    if format == Unsupported then Err(ValueError("Unsupported file format"))
    else match read(format, path)
      case Ok(t) => Ok(t)
      case Err(m) => Err(ReadError(m))
  }

  // ---------------------------------------------------------- analyze_metrics

  /** The metric keys, in the order `analyze_metrics` assigns them. */
  const MetricKeys: seq<string> := ["total_emissions", "total_energy", "total_waste"]

  /**
   * `df.get(column, pd.Series([0])).sum()`: the column's total, or the total
   * of the one-cell default column `[0]` when the column is absent.
   */
  function Total(df: Table, column: string): (t: int)
    ensures column !in df ==> t == 0
    ensures column in df ==> t == Sum(df[column])
  {
    assert Sum([0]) == 0 + Sum([]);
    Sum(if column in df then df[column] else [0])
  }

  /** A column's total depends on that column alone. */
  lemma TotalIgnoresOtherColumns(df: Table, column: string, other: string, cells: Column)
    requires other != column
    ensures Total(df[other := cells], column) == Total(df, column)
    ensures Total(df - {other}, column) == Total(df, column)
  {
  }

  /**
   * `analyze_metrics(df)`: starts from an empty dict and assigns the three
   * totals in turn, so the dict holds exactly the three metric keys, in that
   * order, each with its column's total.
   */
  method AnalyzeMetrics(df: Table) returns (metrics: Dict)
    ensures metrics == [("total_emissions", Total(df, "Emissions_tCO2")),
                        ("total_energy", Total(df, "Energy_kWh")),
                        ("total_waste", Total(df, "Waste_kg"))]
    ensures DistinctKeys(metrics)
  {
    metrics := [];
    metrics := Set(metrics, "total_emissions", Total(df, "Emissions_tCO2"));
    assert Keys(metrics) == ["total_emissions"];
    SetNew(metrics, "total_energy", Total(df, "Energy_kWh"));
    metrics := Set(metrics, "total_energy", Total(df, "Energy_kWh"));
    assert Keys(metrics) == ["total_emissions", "total_energy"];
    SetNew(metrics, "total_waste", Total(df, "Waste_kg"));
    metrics := Set(metrics, "total_waste", Total(df, "Waste_kg"));
  }

  /**
   * Looking up a metric in the dict `analyze_metrics` returns gives that
   * metric's column total, and its keys are the three metric keys in order.
   */
  lemma AnalyzedLookup(emissions: int, energy: int, waste: int)
    ensures var metrics: Dict := [("total_emissions", emissions), ("total_energy", energy), ("total_waste", waste)];
      Keys(metrics) == MetricKeys
      && Get(metrics, "total_emissions") == Some(emissions)
      && Get(metrics, "total_energy") == Some(energy)
      && Get(metrics, "total_waste") == Some(waste)
  {
  }

  // ---------------------------------------------------------- generate_report

  /**
   * `key.replace('_', ' ').capitalize()`: underscores become spaces, the first
   * character is upper-cased and the rest lower-cased; the length is kept.
   */
  function MetricLabel(key: string): (l: string)
    ensures |l| == |key|
    ensures forall i :: 0 <= i < |key| && key[i] == '_' ==> l[i] == ' '
    ensures forall i :: 0 <= i < |key| && key[i] != '_' ==> UpperChar(l[i]) == UpperChar(key[i])
    ensures |key| > 0 ==> !IsLower(l[0])
    ensures forall i :: 1 <= i < |key| ==> !IsUpper(l[i])
    ensures '_' !in l
  {
    Capitalize(ReplaceChar(key, '_', ' '))
  }

  /** Formatting a label a second time changes nothing. */
  lemma MetricLabelIdempotent(key: string)
    ensures MetricLabel(MetricLabel(key)) == MetricLabel(key)
  {
    var once := MetricLabel(key);
    ReplaceCharAbsent(once, '_', ' ');
    CapitalizeIdempotent(ReplaceChar(key, '_', ' '));
  }

  /** The first metric key with its underscore replaced. */
  lemma ReplaceInFirstKey()
    ensures ReplaceChar("total_emissions", '_', ' ') == "total emissions"
  {
  }

  /** The rest of that key is already lower-case. */
  lemma LowerOfFirstKeyTail()
    ensures Lower("otal emissions") == "otal emissions"
  {
    var rest := "otal emissions";
    forall i | 0 <= i < |rest|
      ensures Lower(rest)[i] == rest[i]
    {
      assert Lower(rest)[i] == LowerChar(rest[i]);
    }
  }

  /** Capitalizing it upper-cases its first letter only. */
  lemma CapitalizeFirstKey()
    ensures Capitalize("total emissions") == "Total emissions"
  {
    LowerOfFirstKeyTail();
    assert "total emissions"[1..] == "otal emissions";
    assert ['T'] + "otal emissions" == "Total emissions";
  }

  /** The label of the first metric key. */
  lemma MetricLabelExamples()
    ensures MetricLabel("total_emissions") == "Total emissions"
  {
    ReplaceInFirstKey();
    CapitalizeFirstKey();
  }

  /** The paragraph written for one metric: its label, a colon and a space, and the value with thousands separators. */
  function MetricLine(key: string, value: int): string
  {
    MetricLabel(key) + ": " + Grouped(value)
  }

  /**
   * A metric line starts with the key's label and `": "`, and the rest,
   * without its commas, is `str(value)`, which reads back as the value.
   */
  lemma MetricLineParts(key: string, value: int)
    ensures |MetricLine(key, value)| > |key| + 2
    ensures MetricLine(key, value)[..|key|] == MetricLabel(key)
    ensures MetricLine(key, value)[|key|..|key| + 2] == ": "
    ensures WithoutCommas(MetricLine(key, value)[|key| + 2..]) == Decimal(value)
    ensures ParseDecimal(WithoutCommas(MetricLine(key, value)[|key| + 2..])) == value
  {
    GroupedIsDecimal(value);
    var line := MetricLine(key, value);
    assert line[|key| + 2..] == Grouped(value);
  }

  /**
   * The sentence handed to the summarizer: the company and the three totals,
   * in the order emissions, energy, waste.
   */
  function SummaryInput(company: string, emissions: int, energy: int, waste: int): (s: string)
    ensures |s| > 14 + |company| && s[..14 + |company|] == "This quarter, " + company
    ensures EndsWith(s, " kg waste.")
  {
    var opening := "This quarter, " + company;
    var first := opening + " produced " + Decimal(emissions);
    assert first[..|opening|] == opening;
    var second := first + " tCO2 emissions, consumed " + Decimal(energy);
    assert second[..|opening|] == first[..|opening|];
    var body := second + " kWh energy, and generated " + Decimal(waste);
    assert body[..|opening|] == second[..|opening|];
    EndsWithAppend(body, " kg waste.");
    body + " kg waste."
  }

  /**
   * The narrative needs all three metrics and looks them up in the order
   * emissions, energy, waste; the first one missing raises a KeyError.
   */
  function SummaryInputOf(metrics: Dict, company: string): (r: Result<string, Exception>)
    ensures r.Ok? <==> "total_emissions" in Keys(metrics) && "total_energy" in Keys(metrics) && "total_waste" in Keys(metrics)
    ensures r.Err? ==> r.error.KeyError? && r.error.key in MetricKeys && r.error.key !in Keys(metrics)
    ensures "total_emissions" !in Keys(metrics) ==> r == Err(KeyError("total_emissions"))
    ensures "total_emissions" in Keys(metrics) && "total_energy" !in Keys(metrics) ==>
              r == Err(KeyError("total_energy"))
    ensures "total_emissions" in Keys(metrics) && "total_energy" in Keys(metrics) && "total_waste" !in Keys(metrics) ==>
              r == Err(KeyError("total_waste"))
    ensures r.Ok? ==>
              r.value == SummaryInput(company, Get(metrics, "total_emissions").value,
                                      Get(metrics, "total_energy").value, Get(metrics, "total_waste").value)
  {
    match Get(metrics, "total_emissions")
    case None => Err(KeyError("total_emissions"))
    case Some(e) =>
      match Get(metrics, "total_energy")
      case None => Err(KeyError("total_energy"))
      case Some(n) =>
        match Get(metrics, "total_waste")
        case None => Err(KeyError("total_waste"))
        case Some(w) => Ok(SummaryInput(company, e, n, w))
  }

  /**
   * In a dict without repeated keys, the narrative carries the values stored
   * under the three metric keys, wherever those entries stand.
   */
  lemma SummaryInputOfEntries(metrics: Dict, company: string, emissions: int, energy: int, waste: int)
    requires DistinctKeys(metrics)
    requires ("total_emissions", emissions) in metrics
    requires ("total_energy", energy) in metrics
    requires ("total_waste", waste) in metrics
    ensures SummaryInputOf(metrics, company) == Ok(SummaryInput(company, emissions, energy, waste))
  {
    GetDistinct(metrics, "total_emissions", emissions);
    GetDistinct(metrics, "total_energy", energy);
    GetDistinct(metrics, "total_waste", waste);
  }

  /** The dict `analyze_metrics` returns always yields the narrative, with the three column totals. */
  lemma AnalyzedNarrative(df: Table, company: string)
    ensures SummaryInputOf([("total_emissions", Total(df, "Emissions_tCO2")),
                            ("total_energy", Total(df, "Energy_kWh")),
                            ("total_waste", Total(df, "Waste_kg"))], company)
            == Ok(SummaryInput(company, Total(df, "Emissions_tCO2"), Total(df, "Energy_kWh"), Total(df, "Waste_kg")))
  {
    AnalyzedLookup(Total(df, "Emissions_tCO2"), Total(df, "Energy_kWh"), Total(df, "Waste_kg"));
  }

  /** `a + k == b + k` leaves `a == b`. */
  lemma StripSuffix(a: string, b: string, k: string)
    requires a + k == b + k
    ensures a == b
  {
    assert a == (a + k)[..|a|];
    assert b == (b + k)[..|b|];
  }

  /**
   * A space-free field after a space is where a string splits: if two strings
   * agree and each is a prefix ending in a space followed by a space-free
   * field, the prefixes agree and the fields agree.
   */
  lemma SplitAfterSpace(a: string, s: string, b: string, t: string)
    requires a + s == b + t
    requires |a| > 0 && a[|a| - 1] == ' ' && |b| > 0 && b[|b| - 1] == ' '
    requires ' ' !in s && ' ' !in t
    ensures a == b && s == t
  {
    assert a == a[..|a| - 1] + [' '];
    assert b == b[..|b| - 1] + [' '];
    LastFieldAfter(a[..|a| - 1], ' ', s);
    LastFieldAfter(b[..|b| - 1], ' ', t);
    assert a + s == a[..|a| - 1] + [' '] + s;
    assert b + t == b[..|b| - 1] + [' '] + t;
    StripSuffix(a, b, s);
  }

  /** One step of reading a narrative back from its end: a number, then fixed text. */
  lemma PeelNumber(a1: string, x1: int, a2: string, x2: int, tail: string)
    requires a1 + Decimal(x1) + tail == a2 + Decimal(x2) + tail
    requires |a1| > 0 && a1[|a1| - 1] == ' ' && |a2| > 0 && a2[|a2| - 1] == ' '
    ensures a1 == a2 && x1 == x2
  {
    StripSuffix(a1 + Decimal(x1), a2 + Decimal(x2), tail);
    DecimalRoundTrip(x1);
    DecimalRoundTrip(x2);
    SplitAfterSpace(a1, Decimal(x1), a2, Decimal(x2));
    DecimalInjective(x1, x2);
  }

  /**
   * The narrative is deterministic and loses nothing: two narratives are
   * equal only when the company and all three totals are.
   */
  lemma SummaryInputDetermines(c1: string, e1: int, n1: int, w1: int, c2: string, e2: int, n2: int, w2: int)
    requires SummaryInput(c1, e1, n1, w1) == SummaryInput(c2, e2, n2, w2)
    ensures c1 == c2 && e1 == e2 && n1 == n2 && w1 == w2
  {
    var p1 := "This quarter, " + c1 + " produced ";
    var p2 := "This quarter, " + c2 + " produced ";
    var q1 := p1 + Decimal(e1) + " tCO2 emissions, consumed ";
    var q2 := p2 + Decimal(e2) + " tCO2 emissions, consumed ";
    var r1 := q1 + Decimal(n1) + " kWh energy, and generated ";
    var r2 := q2 + Decimal(n2) + " kWh energy, and generated ";
    PeelNumber(r1, w1, r2, w2, " kg waste.");
    StripSuffix(q1 + Decimal(n1), q2 + Decimal(n2), " kWh energy, and generated ");
    PeelNumber(q1, n1, q2, n2, "");
    StripSuffix(p1 + Decimal(e1), p2 + Decimal(e2), " tCO2 emissions, consumed ");
    PeelNumber(p1, e1, p2, e2, "");
    StripSuffix("This quarter, " + c1, "This quarter, " + c2, " produced ");
    assert c1 == ("This quarter, " + c1)[14..];
    assert c2 == ("This quarter, " + c2)[14..];
  }

  /** Scenario: one row (1200, 15000, 320) for DemoCo. */
  lemma SummaryInputExample()
    ensures SummaryInput("DemoCo", 1200, 15000, 320)
      == "This quarter, " + "DemoCo" + " produced " + "1200" + " tCO2 emissions, consumed " + "15000"
         + " kWh energy, and generated " + "320" + " kg waste."
  {
    assert NatDigits(1) == "1" && NatDigits(12) == "12" && NatDigits(120) == "120";
    assert NatDigits(1200) == "1200";
    assert NatDigits(15) == "15" && NatDigits(150) == "150" && NatDigits(1500) == "1500";
    assert NatDigits(15000) == "15000";
    assert NatDigits(3) == "3" && NatDigits(32) == "32" && NatDigits(320) == "320";
  }

  /**
   * `f"sustainability_report_{company_name.lower()}.docx"`: a fixed prefix,
   * the lower-cased company name, the ".docx" extension, and no upper-case
   * letter anywhere.
   */
  function ReportFileName(company: string): (name: string)
    ensures |name| == |company| + 27
    ensures name[..22] == "sustainability_report_" && EndsWith(name, ".docx")
    ensures name[22..|name| - 5] == Lower(company)
    ensures forall i :: 0 <= i < |name| ==> !IsUpper(name[i])
  {
    "sustainability_report_" + Lower(company) + ".docx"
  }

  /**
   * Two companies get the same report file, the later overwriting the
   * earlier, exactly when their names agree up to case.
   */
  lemma ReportFileNameCollides(a: string, b: string)
    ensures ReportFileName(a) == ReportFileName(b) <==> Lower(a) == Lower(b)
  {
    if ReportFileName(a) == ReportFileName(b) {
      var n := ReportFileName(a);
      assert Lower(a) == n[22..|n| - 5];
    }
  }

  /** The example company's name, lower-cased. */
  lemma LowerExampleCompany()
    ensures Lower("GreenFuture Inc") == "greenfuture inc"
  {
    var company, lowered := "GreenFuture Inc", "greenfuture inc";
    forall i | 0 <= i < |company|
      ensures Lower(company)[i] == lowered[i]
    {
      assert Lower(company)[i] == LowerChar(company[i]);
    }
  }

  /** The file name of the example run. */
  lemma ReportFileNameExample()
    ensures ReportFileName("GreenFuture Inc") == "sustainability_report_" + "greenfuture inc" + ".docx"
  {
    LowerExampleCompany();
  }

  /** One entry of the document: a heading of some level or a paragraph. */
  datatype Block = Heading(text: string, level: nat) | Paragraph(text: string)

  /** The word-processor document, as the sequence of entries added to it. */
  class Document {
    var blocks: seq<Block>

    constructor ()
      ensures blocks == []
    {
      blocks := [];
    }

    method AddHeading(text: string, level: nat)
      modifies this
      ensures blocks == old(blocks) + [Heading(text, level)]
    {
      blocks := blocks + [Heading(text, level)];
    }

    method AddParagraph(text: string)
      modifies this
      ensures blocks == old(blocks) + [Paragraph(text)]
    {
      blocks := blocks + [Paragraph(text)];
    }
  }

  /** The saved report: the file name and the document's entries. */
  datatype Report = Report(filename: string, blocks: seq<Block>)

  /** One paragraph per dict entry in iteration order, each the `line` of the entry's key and value. */
  function Paragraphs(entries: Dict, line: (string, int) -> string): (ps: seq<Block>)
    ensures |ps| == |entries|
  {
    if |entries| == 0 then []
    else
      var last := entries[|entries| - 1];
      Paragraphs(entries[..|entries| - 1], line) + [Paragraph(line(last.0, last.1))]
  }

  /** The paragraph at each position is the line of the entry at that position. */
  lemma {:induction false} ParagraphAt(entries: Dict, line: (string, int) -> string, j: nat)
    requires j < |entries|
    ensures Paragraphs(entries, line)[j] == Paragraph(line(entries[j].0, entries[j].1))
  {
    var front := entries[..|entries| - 1];
    if j < |front| {
      ParagraphAt(front, line, j);
      assert front[j] == entries[j];
    }
  }

  /** The paragraphs of one more entry are those of the entries before it and one more paragraph. */
  lemma ParagraphsSnoc(entries: Dict, line: (string, int) -> string, i: nat)
    requires i < |entries|
    ensures Paragraphs(entries[..i + 1], line) == Paragraphs(entries[..i], line) + [Paragraph(line(entries[i].0, entries[i].1))]
  {
    assert entries[..i + 1][..i] == entries[..i];
  }

  /** The metric paragraphs of the report. */
  function MetricParagraphs(metrics: Dict): seq<Block>
  {
    Paragraphs(metrics, MetricLine)
  }

  /** The report's paragraph at each position is the metric line of the dict entry at that position. */
  lemma MetricParagraphAt(metrics: Dict, j: nat)
    requires j < |metrics|
    ensures |MetricParagraphs(metrics)| == |metrics|
    ensures MetricParagraphs(metrics)[j] == Paragraph(MetricLine(metrics[j].0, metrics[j].1))
  {
    ParagraphAt(metrics, MetricLine, j);
  }

  /** `for k, v in metrics.items(): doc.add_paragraph(...)`: one paragraph per entry, in dict order. */
  method AddMetricParagraphs(doc: Document, metrics: Dict)
    modifies doc
    ensures doc.blocks == old(doc.blocks) + MetricParagraphs(metrics)
  {
    var i := 0;
    while i < |metrics|
      invariant 0 <= i <= |metrics|
      invariant doc.blocks == old(doc.blocks) + MetricParagraphs(metrics[..i])
    {
      ParagraphsSnoc(metrics, MetricLine, i);
      doc.AddParagraph(MetricLine(metrics[i].0, metrics[i].1));
      i := i + 1;
    }
    assert metrics[..i] == metrics;
  }

  /** The report's title: a fixed prefix ending in an en dash and a space, then the company name. */
  function ReportTitle(company: string): (t: string)
    ensures |t| == 24 + |company|
    ensures t[..24] == "Sustainability Report \U{2013} " && t[24..] == company
  {
    "Sustainability Report \U{2013} " + company
  }

  /**
   * Everything `generate_report` writes before the summary: the title, the
   * date, the metrics heading, one paragraph per metric, and the summary
   * heading.
   */
  method WriteReportBody(doc: Document, metrics: Dict, company: string, today: string)
    modifies doc
    ensures doc.blocks ==
              old(doc.blocks)
              + [Heading(ReportTitle(company), 0), Paragraph("Date: " + today), Heading("Key ESG Metrics", 1)]
              + MetricParagraphs(metrics)
              + [Heading("Analysis Summary", 1)]
  {
    doc.AddHeading(ReportTitle(company), 0);
    doc.AddParagraph("Date: " + today);
    doc.AddHeading("Key ESG Metrics", 1);
    ghost var front := doc.blocks;
    assert front == old(doc.blocks)
                    + [Heading(ReportTitle(company), 0), Paragraph("Date: " + today), Heading("Key ESG Metrics", 1)];
    AddMetricParagraphs(doc, metrics);
    doc.AddHeading("Analysis Summary", 1);
  }

  /**
   * The entries of a fresh document, regrouped: the empty start dropped and
   * the two closing entries joined (a step of `GenerateReport`'s proof).
   */
  lemma ReportLayout(head: seq<Block>, metricLines: seq<Block>, heading: Block, summary: Block)
    ensures [] + head + metricLines + [heading] + [summary] == head + metricLines + [heading, summary]
  {
  }

  /**
   * `generate_report(metrics, company_name="DemoCo")`. The metrics are a
   * Python dict, so no key is repeated. The date (`today`, already formatted
   * as year-month-day) and the summarization model (`summarize`) are
   * parameters. When a metric the narrative needs is missing, the
   * KeyError ends the call and nothing is saved; otherwise the report holds
   * the title, the date, a heading, one paragraph per metric in dict order,
   * a second heading and the summary of the narrative.
   */
  method GenerateReport(metrics: Dict, company: string := "DemoCo", today: string, summarize: string -> string)
    returns (r: Result<Report, Exception>)
    requires DistinctKeys(metrics)
    ensures r.Err? <==> SummaryInputOf(metrics, company).Err?
    ensures r.Err? ==> r.error == SummaryInputOf(metrics, company).error
    ensures r.Ok? ==> r.value.filename == ReportFileName(company)
    ensures r.Ok? ==>
              r.value.blocks ==
                [Heading(ReportTitle(company), 0), Paragraph("Date: " + today), Heading("Key ESG Metrics", 1)]
                + MetricParagraphs(metrics)
                + [Heading("Analysis Summary", 1), Paragraph(summarize(SummaryInputOf(metrics, company).value))]
  {
    var doc := new Document();
    WriteReportBody(doc, metrics, company, today);
    var input := SummaryInputOf(metrics, company);
    if input.Err? {
      return Err(input.error);
    }
    var summary := summarize(input.value);
    doc.AddParagraph(summary);
    ReportLayout([Heading(ReportTitle(company), 0), Paragraph("Date: " + today), Heading("Key ESG Metrics", 1)],
                 MetricParagraphs(metrics), Heading("Analysis Summary", 1), Paragraph(summary));
    r := Ok(Report(ReportFileName(company), doc.blocks));
  }

  /**
   * The example run: load "ESG.csv", total it, and report for
   * "GreenFuture Inc". The dict from `AnalyzeMetrics` always has what the
   * narrative needs, so the run fails only when reading the file fails.
   */
  method ExampleRun(read: (Format, string) -> Result<Table, string>, today: string, summarize: string -> string)
    returns (r: Result<Report, Exception>)
    ensures read(Csv, "ESG.csv").Err? ==> r == Err(ReadError(read(Csv, "ESG.csv").error))
    ensures read(Csv, "ESG.csv").Ok? ==> r.Ok? && r.value.filename == "sustainability_report_" + "greenfuture inc" + ".docx"
  {
    assert LoadFormat("ESG.csv") == Csv;
    var loaded := LoadData("ESG.csv", read);
    if loaded.Err? {
      return Err(loaded.error);
    }
    var metrics := AnalyzeMetrics(loaded.value);
    AnalyzedLookup(metrics[0].1, metrics[1].1, metrics[2].1);
    ReportFileNameExample();
    r := GenerateReport(metrics, "GreenFuture Inc", today, summarize);
  }
}
