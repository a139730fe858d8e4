/**
 * The dashboard script: takes an optional uploaded file, picks a reader by the
 * text after the last dot of its name, falls back to a built-in three-row
 * sample, refuses to go on unless the three ESG columns are present, and only
 * then shows the metrics, charts and summary.
 */
module App {
  import opened Wrappers
  import opened Text
  import opened Tables
  import opened Formats

  type Bytes = seq<bv8>

  /** The uploaded file: its name and its raw content. */
  datatype Upload = Upload(name: string, content: Bytes)

  /** A message the page shows: `st.info` or `st.error`. */
  datatype Notice = Info(text: string) | Error(text: string)

  /**
   * How a run of the script ends: `st.stop()`, an uncaught exception, or
   * reaching the metrics section with the table that passed the column check.
   */
  datatype Halt = Stopped | Crashed(exception: string) | Completed(table: Table)

  datatype Run = Run(notices: seq<Notice>, halt: Halt)

  // ------------------------------------------------------- format dispatch

  /** The types the upload widget offers. */
  const UploaderTypes: seq<string> := ["csv", "xlsx", "xls", "json"]

  /**
   * `uploaded_file.name.split(".")[-1]`: the text after the last dot, or
   * the whole name when it has no dot.
   */
  function FileType(name: string): (t: string)
    ensures '.' !in t
    ensures '.' !in name ==> t == name
    ensures '.' in name ==> EndsWith(name, "." + t)
  {
    var t := LastField(name, '.');
    assert '.' in name ==> |t| < |name|;
    assert '.' in name ==> name[|name| - |t| - 1..] == "." + t;
    t
  }

  /** The reader chosen for a file type; matching is exact and case-sensitive. */
  function TypeFormat(fileType: string): (f: Format)
    ensures f == Csv <==> fileType == "csv"
    ensures f == Excel <==> fileType == "xlsx" || fileType == "xls"
    ensures f == Json <==> fileType == "json"
  {
    if fileType == "csv" then Csv
    else if fileType in ["xlsx", "xls"] then Excel
    else if fileType == "json" then Json
    else Unsupported
  }

  /** The reader chosen for an uploaded file by its type. */
  function UploadFormat(name: string): Format
  {
    TypeFormat(FileType(name))
  }

  /** A reader is found exactly for the types the upload widget offers. */
  lemma UploadFormatMatchesWidget(name: string)
    ensures UploadFormat(name) != Unsupported <==> FileType(name) in UploaderTypes
  {
  }

  /** A dot-free type is the one chosen exactly when the name is it alone or ends with a dot and it. */
  lemma FileTypeIs(name: string, ext: string)
    requires '.' !in ext
    ensures FileType(name) == ext <==> name == ext || EndsWith(name, "." + ext)
  {
    LastFieldIs(name, '.', ext);
  }

  /** Each extension with its dot, as one literal (a step the dispatch proofs share). */
  lemma DottedExtensions()
    ensures "." + "csv" == ".csv" && "." + "xlsx" == ".xlsx" && "." + "xls" == ".xls" && "." + "json" == ".json"
  {
  }

  /**
   * The dispatch in terms of the whole name: a format is chosen exactly when
   * the name is its extension alone or ends with a dot and that extension.
   */
  lemma UploadFormatByName(name: string)
    ensures UploadFormat(name) == Csv <==> name == "csv" || EndsWith(name, ".csv")
    ensures UploadFormat(name) == Excel <==>
              name == "xlsx" || EndsWith(name, ".xlsx") || name == "xls" || EndsWith(name, ".xls")
    ensures UploadFormat(name) == Json <==> name == "json" || EndsWith(name, ".json")
  {
    DottedExtensions();
    FileTypeIs(name, "csv");
    FileTypeIs(name, "xlsx");
    FileTypeIs(name, "xls");
    FileTypeIs(name, "json");
  }

  /** Every type the upload widget offers has a reader. */
  lemma UploaderTypesHaveReaders()
    ensures forall t :: t in UploaderTypes ==> TypeFormat(t) != Unsupported
  {
  }

  /** Upper-case extensions are not recognised. */
  lemma ExtensionsAreCaseSensitive()
    ensures UploadFormat("ESG.CSV") == Unsupported
  {
    assert FileType("ESG.CSV") == "CSV" by { LastFieldAfter("ESG", '.', "CSV"); }
  }

  // ---------------------------------------------------------- column check

  const RequiredColumns: seq<string> := ["Emissions_tCO2", "Energy_kWh", "Waste_kg"]

  /** `all(col in df.columns for col in columns)`. */
  function AllColumnsPresent(columns: seq<string>, t: Table): (ok: bool)
    ensures ok <==> forall c :: c in columns ==> c in t
  {
    |columns| == 0 || (columns[0] in t && AllColumnsPresent(columns[1..], t))
  }

  /** The gate passes exactly when every required name is a column. */
  function HasRequiredColumns(t: Table): (ok: bool)
    ensures ok <==> "Emissions_tCO2" in t && "Energy_kWh" in t && "Waste_kg" in t
  {
    AllColumnsPresent(RequiredColumns, t)
  }

  /** Extra columns never make the gate fail. */
  lemma GateIgnoresExtraColumns(t: Table, u: Table)
    requires t.Keys <= u.Keys
    requires HasRequiredColumns(t)
    ensures HasRequiredColumns(u)
  {
  }

  /** A table without the energy column is refused. */
  lemma GateRejectsMissingEnergy()
    ensures !HasRequiredColumns(map["Emissions_tCO2" := [1200], "Waste_kg" := [320]])
  {
  }

  /** The error shown when the check fails; it names all three required columns. */
  function MissingColumnsMessage(): (m: string)
    ensures m == "Missing required columns. Make sure your file includes: "
                 + "Emissions_tCO2" + ", " + "Energy_kWh" + ", " + "Waste_kg"
  {
    assert RequiredColumns[1..] == ["Energy_kWh", "Waste_kg"];
    assert RequiredColumns[1..][1..] == ["Waste_kg"];
    "Missing required columns. Make sure your file includes: " + Join(RequiredColumns, ", ")
  }

  // ----------------------------------------------------------- sample data

  const SampleHeaders: seq<string> := ["Emissions_tCO2", "Energy_kWh", "Waste_kg"]

  const SampleRows: seq<seq<int>> := [[1200, 15000, 320], [980, 12200, 280], [1100, 13800, 300]]

  /** The built-in sample, as the table the CSV reader makes of it: one column per header. */
  const SampleTable: Table :=
    map["Emissions_tCO2" := [1200, 980, 1100], "Energy_kWh" := [15000, 12200, 13800], "Waste_kg" := [320, 280, 300]]

  /**
   * The sample table has exactly the three rows under the three headers, and
   * it passes the column check.
   */
  lemma SampleTableShape()
    ensures SampleTable.Keys == set h | h in SampleHeaders
    ensures forall i, j :: 0 <= i < |SampleRows| && 0 <= j < |SampleHeaders| ==>
              |SampleTable[SampleHeaders[j]]| == |SampleRows| && SampleTable[SampleHeaders[j]][i] == SampleRows[i][j]
    ensures Rectangular(SampleTable)
    ensures HasRequiredColumns(SampleTable)
  {
  }

  // ------------------------------------------------------------ the script

  const NoUploadNotice := "No file uploaded. Using sample data."

  const UnsupportedNotice := "Unsupported file type."

  /** What Python raises when line 42 reads `sample_csv`, which only the no-upload branch binds. */
  const SampleUnbound := "NameError: name 'sample_csv' is not defined"

  /**
   * The column check: an error and `st.stop()` when a required column is
   * missing, otherwise the script goes on to the metrics with this table.
   */
  method CheckColumns(notices: seq<Notice>, df: Table) returns (run: Run)
    ensures run.halt.Completed? <==> HasRequiredColumns(df)
    ensures run.halt.Completed? ==> run == Run(notices, Completed(df))
    ensures !run.halt.Completed? ==> run == Run(notices + [Error(MissingColumnsMessage())], Stopped)
  {
    if !HasRequiredColumns(df) {
      return Run(notices + [Error(MissingColumnsMessage())], Stopped);
    }
    run := Run(notices, Completed(df));
  }

  /**
   * The `try` block as written: an unsupported type shows an error and goes
   * on without a table, a reader error shows an error and stops, and a
   * successful read gives the table.
   */
  method LoadUploadAsWritten(file: Upload, read: (Format, Bytes) -> Result<Table, string>)
    returns (loaded: Option<Table>, notices: seq<Notice>, stopped: bool)
    ensures UploadFormat(file.name) == Unsupported ==>
              loaded == None && notices == [Error(UnsupportedNotice)] && !stopped
    ensures UploadFormat(file.name) != Unsupported && read(UploadFormat(file.name), file.content).Err? ==>
              loaded == None && stopped
              && notices == [Error("Error loading file: " + read(UploadFormat(file.name), file.content).error)]
    ensures UploadFormat(file.name) != Unsupported && read(UploadFormat(file.name), file.content).Ok? ==>
              loaded == Some(read(UploadFormat(file.name), file.content).value) && notices == [] && !stopped
  {
    var format := UploadFormat(file.name);
    if format == Unsupported {
      return None, [Error(UnsupportedNotice)], false;
    }
    var result := read(format, file.content);
    if result.Err? {
      return None, [Error("Error loading file: " + result.error)], true;
    }
    loaded, notices, stopped := Some(result.value), [], false;
  }

  /**
   * The script as written. The readers are outside the model: `read` stands
   * for them, given the chosen format and the uploaded content. Re-reading the
   * sample sits after the if/else and `sample_csv` is bound only in the
   * no-upload branch, so an upload that does not stop the run ends in a
   * NameError there: an uploaded file never reaches the metrics, and
   * whenever the metrics are reached the table is the sample.
   */
  method RunAsWritten(upload: Option<Upload>, read: (Format, Bytes) -> Result<Table, string>) returns (run: Run)
    ensures upload.None? ==> run == Run([Info(NoUploadNotice)], Completed(SampleTable))
    ensures upload.Some? ==> !run.halt.Completed?
    ensures upload.Some? && UploadFormat(upload.value.name) == Unsupported ==>
              run == Run([Error(UnsupportedNotice)], Crashed(SampleUnbound))
    ensures upload.Some? && UploadFormat(upload.value.name) != Unsupported ==>
              var loaded := read(UploadFormat(upload.value.name), upload.value.content);
              run == if loaded.Err? then Run([Error("Error loading file: " + loaded.error)], Stopped)
                     else Run([], Crashed(SampleUnbound))
    ensures run.halt.Completed? ==> run.halt.table == SampleTable && HasRequiredColumns(run.halt.table)
  {
    if upload.None? {
      run := CheckColumns([Info(NoUploadNotice)], SampleTable);
      return;
    }
    var df, notices, stopped := LoadUploadAsWritten(upload.value, read);
    if stopped {
      return Run(notices, Stopped);
    }
    run := Run(notices, Crashed(SampleUnbound));
  }

  /**
   * Loading an upload, with an unsupported type treated like a reader error:
   * the table, or the error notice to show before stopping.
   */
  method LoadUpload(file: Upload, read: (Format, Bytes) -> Result<Table, string>) returns (r: Result<Table, Notice>)
    ensures UploadFormat(file.name) == Unsupported ==> r == Err(Error(UnsupportedNotice))
    ensures UploadFormat(file.name) != Unsupported && read(UploadFormat(file.name), file.content).Err? ==>
              r == Err(Error("Error loading file: " + read(UploadFormat(file.name), file.content).error))
    ensures UploadFormat(file.name) != Unsupported && read(UploadFormat(file.name), file.content).Ok? ==>
              r == Ok(read(UploadFormat(file.name), file.content).value)
  {
    var format := UploadFormat(file.name);
    if format == Unsupported {
      return Err(Error(UnsupportedNotice));
    }
    var loaded := read(format, file.content);
    if loaded.Err? {
      return Err(Error("Error loading file: " + loaded.error));
    }
    r := Ok(loaded.value);
  }

  /**
   * The script with the sample re-read inside the no-upload branch and an
   * unsupported type stopping like a read error: the uploaded table is the
   * one checked, and the metrics are reached only with a table that has all
   * three required columns.
   */
  method RunIntended(upload: Option<Upload>, read: (Format, Bytes) -> Result<Table, string>) returns (run: Run)
    ensures upload.None? ==> run == Run([Info(NoUploadNotice)], Completed(SampleTable))
    ensures upload.Some? && UploadFormat(upload.value.name) == Unsupported ==>
              run == Run([Error(UnsupportedNotice)], Stopped)
    ensures upload.Some? && UploadFormat(upload.value.name) != Unsupported ==>
              var loaded := read(UploadFormat(upload.value.name), upload.value.content);
              run == if loaded.Err? then Run([Error("Error loading file: " + loaded.error)], Stopped)
                     else if HasRequiredColumns(loaded.value) then Run([], Completed(loaded.value))
                     else Run([Error(MissingColumnsMessage())], Stopped)
    ensures run.halt.Completed? ==> HasRequiredColumns(run.halt.table)
  {
    if upload.None? {
      run := CheckColumns([Info(NoUploadNotice)], SampleTable);
      return;
    }
    var loaded := LoadUpload(upload.value, read);
    if loaded.Err? {
      return Run([loaded.error], Stopped);
    }
    run := CheckColumns([], loaded.value);
  }
}
