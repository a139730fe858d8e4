# ESG AI Agent — a Dafny model of its deterministic core

The ESG AI Agent has two entry points. Both work on ESG data with three columns:
greenhouse-gas emissions (`Emissions_tCO2`), energy use (`Energy_kWh`) and waste (`Waste_kg`).

- `agent.py` is a reporting script. It loads a CSV or Excel file chosen by the path's suffix and totals the three columns into a metrics dict. It then writes a word-processor report: a title, the date, one line per metric, and a machine summary of a fixed narrative sentence. The report is saved under a file name derived from the company name.
- `app.py` is an interactive dashboard. It takes an optional upload and picks a reader by the text after the last dot of the file name. Without an upload it falls back to a built-in three-row sample. It refuses to go on unless the three columns are present, and only then shows the metrics.

This project models the logic under that glue:

- both format dispatch rules, and how they differ;
- the totals with their zero default for a missing column;
- the Python dict the totals are stored in;
- the metric labels, the narrative sentence and the report file name;
- the report document built entry by entry;
- the dashboard's column check and sample data;
- the dashboard's control flow, both as written and as evidently intended.

A table is a map from column name to a sequence of integer cells. The file readers and the summarization model are function parameters. The date is a string parameter.

Modules, one per file:

- `Wrappers` (Option, Result);
- `Formats` (the reader a dispatch chooses);
- `Text` (Python's `endswith`, `lower`, `capitalize`, `replace`, `split(sep)[-1]`, `join`);
- `Numerals` (`str(n)` and `format(n, ",")` for integers);
- `Tables`;
- `Dicts` (an insertion-ordered Python dict);
- `Agent` (`agent.py`);
- `App` (`app.py`);
- `EntryPoints` (how the two relate).

## Model

| member | source | states |
|---|---|---|
| Text.EndsWith | agent.py:14 | true exactly when the text is some text followed by the suffix |
| Text.Lower | agent.py:46 | same length, no upper-case letter, and each character equal to the input's up to case |
| Text.LowerIdempotent | agent.py:46 | lower-casing twice is lower-casing once |
| Text.Capitalize | agent.py:38 | same length, the first character not lower-case, the rest not upper-case, each equal to the input's up to case |
| Text.CapitalizeIdempotent | agent.py:38 | capitalizing twice is capitalizing once |
| Text.ReplaceChar | agent.py:38 | every occurrence of the old character becomes the new one, and every other character is kept |
| Text.ReplaceCharAbsent | agent.py:38 | replacing a character that does not occur changes nothing |
| Text.LastField | app.py:20 | the result has no separator, is a suffix of the input, and is either the whole input or preceded by the separator |
| Text.LastFieldWhole | app.py:20 | a string without the separator is its own last field |
| Text.LastFieldAfter | app.py:20 | whatever precedes the last separator is dropped |
| Text.LastFieldIs | app.py:20 | a separator-free `t` is the last field exactly when the string is `t` or ends with the separator followed by `t` (both directions) |
| Numerals.NatDigits | agent.py:42 | the digits are all decimal digits and start with `0` only for zero |
| Numerals.Decimal | agent.py:42 | `str(n)` is an optional minus sign followed by digits, with the sign exactly for a negative number |
| Numerals.DecimalRoundTrip | agent.py:42 | `str(n)` has no space or comma and reads back as `n` |
| Numerals.DecimalInjective | agent.py:42 | different totals give different text |
| Numerals.GroupedIsDecimal | agent.py:38 | `{v:,}` is `str(v)` with commas inserted: removing them gives `str(v)`, which reads back as `v` |
| Numerals.Grouped | agent.py:38 | `{v:,}` is never empty and starts with a minus sign exactly for a negative number |
| Numerals.NatDigitsSplit | agent.py:38 | the digits of a number of at least 1000 are those of `n / 1000` followed by the three-digit group of `n % 1000` |
| Tables.Sum | agent.py:27 | a column whose cells are all non-negative has a non-negative total |
| Tables.SumAppend | agent.py:25-27 | a column's total is additive over a split of its rows |
| Dicts.Keys | agent.py:24-28 | the keys in iteration order, one per entry |
| Dicts.Get | agent.py:42 | absent exactly when the key is not in the dict; a present value is the one stored with the key |
| Dicts.GetDistinct | agent.py:42 | in a dict without repeated keys, looking up an entry's key gives that entry's value |
| Dicts.Set | agent.py:25-27 | assigning an existing key keeps the number of entries; a new key adds one entry |
| Dicts.SetDistinct | agent.py:25-27 | assignment never repeats a key |
| Dicts.SetGet | agent.py:25-27 | after `d[k] = v`, `k` maps to `v` and every other key keeps its value |
| Dicts.SetKeys | agent.py:25-27 | after `d[k] = v`, the keys keep their order and a new key is added last |
| Dicts.SetNew | agent.py:24-27 | assigning a new key appends the entry |
| Agent.LoadFormat | agent.py:13-19 | CSV exactly when the path ends with `.csv`, Excel exactly when it ends with `.xlsx`, never JSON |
| Agent.LoadData | agent.py:13-19 | `ValueError("Unsupported file format")` exactly when no reader applies; otherwise the table the chosen reader returns when it succeeds, and a read error carrying its message when it fails |
| Agent.Total | agent.py:25-27 | an absent column totals 0 (the default `[0]`), and a present column totals the sum of its cells |
| Agent.TotalIgnoresOtherColumns | agent.py:25-27 | adding, changing or removing another column leaves a total unchanged |
| Agent.AnalyzeMetrics | agent.py:22-28 | the dict holds exactly `total_emissions`, `total_energy` and `total_waste`, in that order, each with its column's total, and so no key twice |
| Agent.AnalyzedLookup | agent.py:24-28 | the keys of such a dict are the three metric keys, and each lookup gives its total |
| Agent.MetricLabel | agent.py:38 | same length as the key, `_` becomes a space, the first character is not lower-case, the rest are not upper-case, and each character is equal to the key's up to case |
| Agent.MetricLabelIdempotent | agent.py:38 | formatting a label again changes nothing |
| Agent.MetricLabelExamples | agent.py:38 | `total_emissions` becomes `Total emissions` |
| Agent.MetricLineParts | agent.py:38 | a metric line is the key's label, then `": "`, then the value with commas which, without them, is `str(value)` and reads back as the value |
| Agent.SummaryInput | agent.py:42 | the narrative begins with `This quarter, ` and the company name and ends with ` kg waste.` |
| Agent.SummaryInputOf | agent.py:42 | the narrative exists exactly when all three metric keys are present, and is then the sentence of the values looked up; otherwise a KeyError names the first missing key in the order emissions, energy, waste |
| Agent.SummaryInputOfEntries | agent.py:42 | in a dict without repeated keys, the narrative carries the values stored under the three metric keys, wherever they stand |
| Agent.AnalyzedNarrative | agent.py:42 | the dict `analyze_metrics` returns always yields the narrative, with the three column totals |
| Agent.SummaryInputDetermines | agent.py:42 | equal narratives come only from equal company names and equal totals |
| Agent.SummaryInputExample | agent.py:42 | the narrative for DemoCo with totals 1200, 15000 and 320 is the fixed sentence with those numbers in that order |
| Agent.ReportFileName | agent.py:46 | `sustainability_report_`, then the lower-cased company name, then `.docx`, with no upper-case letter |
| Agent.ReportFileNameCollides | agent.py:46-47 | two companies share a report file exactly when their names agree up to case |
| Agent.ReportFileNameExample | agent.py:68 | the example company's report is `sustainability_report_greenfuture inc.docx` |
| Agent.ReportTitle | agent.py:33 | the title is `Sustainability Report – ` followed by the company name |
| Agent.Paragraphs | agent.py:37-38 | one paragraph per dict entry |
| Agent.ParagraphAt | agent.py:37-38 | the paragraph at each position is made from the entry at that position |
| Agent.MetricParagraphAt | agent.py:37-38 | the report's paragraph at each position is the metric line of the dict entry at that position |
| Agent.Document.AddHeading | agent.py:33 | the document gains one heading at the end |
| Agent.Document.AddParagraph | agent.py:34 | the document gains one paragraph at the end |
| Agent.WriteReportBody | agent.py:32-40 | the document gains, in order, the title, the date, the metrics heading, one paragraph per metric and the summary heading |
| Agent.AddMetricParagraphs | agent.py:37-38 | one metric paragraph per dict entry, appended in dict order |
| Agent.GenerateReport | agent.py:31-49 | with the company name defaulting to `DemoCo`, for a dict without repeated keys: a KeyError from the narrative exactly when a metric is missing; otherwise the report's file name and its entries, in order |
| Agent.ExampleRun | agent.py:64-68 | the example run fails only when reading `ESG.csv` fails, and otherwise saves `sustainability_report_greenfuture inc.docx` |
| App.FileType | app.py:20 | no dot in the type; the whole name when the name has no dot; otherwise the name ends with a dot and the type |
| App.TypeFormat | app.py:23-32 | CSV exactly for `csv`, Excel exactly for `xlsx` or `xls`, JSON exactly for `json`, and anything else unsupported |
| App.UploadFormatMatchesWidget | app.py:20-32 | a reader is found exactly for the four types the upload widget offers (app.py:16) |
| App.FileTypeIs | app.py:20 | a dot-free extension is the file type exactly when the name is it or ends with a dot and it |
| App.UploadFormatByName | app.py:20-32 | each reader is chosen exactly when the name is its extension or ends with a dot and that extension |
| App.UploaderTypesHaveReaders | app.py:16 | every type the upload widget offers has a reader |
| App.ExtensionsAreCaseSensitive | app.py:23-32 | `ESG.CSV` is unsupported: matching is case-sensitive |
| App.AllColumnsPresent | app.py:46 | true exactly when every listed column is in the table |
| App.HasRequiredColumns | app.py:45-46 | the check passes exactly when all three required columns are present |
| App.GateIgnoresExtraColumns | app.py:45-46 | extra columns never make the check fail |
| App.GateRejectsMissingEnergy | app.py:45-48 | a table with emissions and waste but no energy is refused |
| App.MissingColumnsMessage | app.py:47 | the error names all three required columns, comma-separated |
| App.SampleTableShape | app.py:38-42 | the sample has the three headers as its columns and the three rows under them, is rectangular, and passes the check |
| App.CheckColumns | app.py:45-48 | the metrics are reached exactly when the check passes; otherwise an error is shown and the run stops |
| App.LoadUploadAsWritten | app.py:19-35 | an unsupported type shows an error and goes on without a table; a reader error shows an error and stops; a successful read gives the reader's table |
| App.LoadUpload | app.py:19-35 | as written, except that an unsupported type stops the run like a reader error |
| App.RunAsWritten | app.py:19-48 | without an upload, the sample reaches the metrics. An upload never does: a reader error stops the run, and any other upload ends in a NameError at line 42. Whatever reaches the metrics is the sample |
| App.RunIntended | app.py:19-48 | an unsupported type or a reader error stops the run. Otherwise the uploaded table, or the sample without an upload, goes through the check, and only a table with all three columns reaches the metrics |
| EntryPoints.DashboardAcceptsWhatAgentAccepts | app.py:20-30 | wherever the agent chooses a reader (agent.py:13-19), the dashboard chooses the same one |
| EntryPoints.DashboardAcceptsXls | app.py:25 | an `.xls` file has a reader in the dashboard and none in the agent |
| EntryPoints.DashboardAcceptsJson | app.py:27 | a `.json` file has a reader in the dashboard and none in the agent |
| EntryPoints.DashboardAcceptsBareCsv | app.py:20-23 | a file named just `csv` has a reader in the dashboard and none in the agent |
| EntryPoints.SampleTotals | app.py:38-41 | the agent's totals of the sample are 3280, 41000 and 900 |

## Left out

- The Streamlit page (`app.py:8-16`, `52-90`): the title, the upload widget itself, the metric widgets, the chart, the styling and the upload-history section. `st.session_state.upload_history` is never initialised, and that section is UI state only.
- The column means rounded to two decimals (`app.py:54-56`). These are floating-point numerics.
- Parsing bytes into tables (`read_csv`, `read_excel`, `json.load`, `DataFrame`). The readers are function parameters, and their failures are the error side of their result.
- The summarization model and `df.describe()` (`app.py:64-67`, `agent.py:41-43`). The summarizer is a function parameter.
- The clock. The date is passed in already formatted.
- Saving the document and printing the file name (`agent.py:47-48`). The report is returned as its file name and its entries.
- `plot_metrics` (`agent.py:52-61`) and the call to it in the example run. This is chart rendering and file output.
- `dashboard.py` is not part of this model. For columns that are present it sums them as `Agent.Total` does; for a missing column it raises a KeyError, where `Agent.Total` gives 0.
- The sample at `app.py:42` is parsed by `pd.read_csv` from fixed text. The model takes the result to be `App.SampleTable` directly: it does not go through a reader and cannot fail.
- Cells are integers. The dataframe library's 64-bit wrap-around and float columns are not modelled.
- Case mapping covers ASCII letters only. Python's `lower` and `capitalize` also map other alphabets.
- `{v:,}` is modelled for integer totals only (`Numerals.Grouped`).
- Text.Join: it has no contract of its own. Its one use is pinned down by `App.MissingColumnsMessage`.
- Agent.MetricLabelExamples: covers only the first metric key.
- App.MissingColumnsMessage: the message lists all required columns, not only the missing ones. This follows the code.

## Findings

| source | as written | input that shows it | evidently intended | confidence | as-written member | corrected member |
|---|---|---|---|---|---|---|
| app.py:36-42 | The sample is re-read at line 42, after the if/else, so `sample_csv` is only bound when nothing was uploaded | any upload that loads, e.g. `ESG.csv` with the three columns | the re-read belongs inside the `else`, so the uploaded table is the one checked and analysed | not executed | App.RunAsWritten | App.RunIntended |
| app.py:31-32 | An unsupported type shows an error but does not stop, so the run goes on to line 42 and fails with a NameError | an upload named `ESG.CSV` (`App.ExtensionsAreCaseSensitive`) | stop after the error, as the reader-error branch does | not executed | App.RunAsWritten | App.RunIntended |
