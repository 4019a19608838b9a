/**
 * The upload section of the page: which reader a file goes to, and which of
 * its terminal states the page ends in (the results table, "no valid
 * results", a read failure, or the request to upload a file).
 */
module App {
  import PyText
  import opened PlanClient
  import opened Batch

  datatype FileKind = Csv | Excel

  /** `uploaded_file.name.endswith(".csv")` picks the CSV reader; every other name the Excel reader. */
  function ReaderFor(name: string): FileKind {
    if PyText.EndsWith(name, ".csv") then Csv else Excel
  }

  /** The CSV reader is chosen exactly for names that are some prefix followed by ".csv". */
  lemma ReaderForCsv(name: string, prefix: string)
    ensures ReaderFor(prefix + ".csv") == Csv
    ensures ReaderFor(name) == Csv <==> |name| >= 4 && name == name[..|name| - 4] + ".csv"
  {
    assert (prefix + ".csv")[|prefix|..] == ".csv";
    if |name| >= 4 && name == name[..|name| - 4] + ".csv" {
      assert name[|name| - 4..] == ".csv";
    }
  }

  /** What a reader makes of the file: the table's records, or the exception it raised. */
  datatype ParseResult = Parsed(records: seq<Record>) | ParseFailed(cause: string)

  /** The uploader's value: no file, or a named file and what each reader would make of it. */
  datatype Upload =
    | NoFile
    | File(name: string, asCsv: ParseResult, asExcel: ParseResult)

  /** The result of reading an uploaded file with the reader its name selects. */
  function Read(upload: Upload): (p: ParseResult)
    requires upload.File?
    ensures ReaderFor(upload.name) == Csv ==> p == upload.asCsv
    ensures ReaderFor(upload.name) == Excel ==> p == upload.asExcel
  {
    match ReaderFor(upload.name)
    case Csv => upload.asCsv
    case Excel => upload.asExcel
  }

  datatype Screen =
    | ResultsTable(rows: seq<ReportRow>)  // `st.dataframe` of the rows, with the CSV download
    | NoValidResults                      // the file was read but no row was produced
    | ReadFailed(cause: string)           // the reader raised
    | AwaitingUpload                      // no file has been uploaded

  /** The message `st.info` / `st.error` shows for the states that have no table. */
  function Notice(screen: Screen): string
    requires !screen.ResultsTable?
  {
    match screen
    case NoValidResults => "No valid results generated."
    case ReadFailed(cause) => "\U{274C} Failed to read file: " + cause
    case AwaitingUpload => "Please upload a patient data file to begin."
  }

  /** The three messages differ, whatever the failure's cause. */
  lemma NoticesDistinct(cause: string)
    ensures Notice(NoValidResults) != Notice(ReadFailed(cause))
    ensures Notice(NoValidResults) != Notice(AwaitingUpload)
    ensures Notice(ReadFailed(cause)) != Notice(AwaitingUpload)
  {
    assert Notice(ReadFailed(cause))[0] == '\U{274C}';
    assert Notice(NoValidResults)[0] == 'N';
    assert Notice(AwaitingUpload)[0] == 'P';
  }

  /**
   * The upload section: with no file it asks for one; if the selected reader
   * fails it shows the failure; otherwise it runs the batch over the records,
   * issuing the warnings, and ends with the table or with "no valid results".
   * `outcomes` holds the outcome of the plan call for each record.
   */
  method ShowUploadSection(upload: Upload, outcomes: seq<CallOutcome>)
    returns (screen: Screen, warnings: seq<string>)
    requires upload.File? && Read(upload).Parsed? ==> |outcomes| == |Read(upload).records|
    ensures upload.NoFile? ==> screen == AwaitingUpload && warnings == []
    ensures upload.File? && Read(upload).ParseFailed? ==>
      screen == ReadFailed(Read(upload).cause) && warnings == []
    ensures upload.File? && Read(upload).Parsed? ==>
      var rows := Report(Read(upload).records, Outputs(outcomes));
      && warnings == Warnings(Outputs(outcomes))
      && screen == (if rows == [] then NoValidResults else ResultsTable(rows))
    ensures screen.ResultsTable? ==> screen.rows != []
  {
    if upload.NoFile? {
      return AwaitingUpload, [];
    }
    var read := Read(upload);
    if read.ParseFailed? {
      return ReadFailed(read.cause), [];
    }
    var results;
    results, warnings := ProcessBatch(read.records, outcomes);
    if results != [] {
      screen := ResultsTable(results);
    } else {
      screen := NoValidResults;
    }
  }
}
