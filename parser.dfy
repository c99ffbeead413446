/**
 * `createParser`: the state its `data` and `end` handlers share, kept as the
 * fields of an object the handlers update in place, and one ingestion call
 * that feeds the tokenizer's rows to it and settles once.
 */
module CsvParser {
  import opened Wrappers
  import opened Json
  import opened Text
  import opened ParserSpec

  class Parser {
    const options: ParseOptions
    var rowCount: nat
    var headerRow: seq<string>
    var previewRows: seq<seq<string>>
    var columnSamples: Buckets
    /** The hook calls made so far, in the order they were made. */
    var hookCalls: seq<HookCall>
    /** The rows the tokenizer has delivered so far. */
    ghost var rowsSeen: seq<seq<string>>

    function Snapshot(): State
      reads this
    {
      State(rowCount, headerRow, previewRows, columnSamples, hookCalls)
    }

    /** The fields are what the handler makes of the rows seen. */
    ghost predicate Valid()
      reads this
    {
      Snapshot() == Run(options, rowsSeen)
    }

    constructor (options: ParseOptions)
      ensures Valid() && this.options == options && rowsSeen == []
      ensures Snapshot() == Initial
    {
      this.options := options;
      rowCount := 0;
      headerRow := [];
      previewRows := [];
      columnSamples := map[];
      hookCalls := [];
      rowsSeen := [];
    }

    /** `headerRow.forEach((header) => columnSamples.set(header, []))`. */
    method ResetSamples(header: seq<string>)
      modifies this`columnSamples
      ensures columnSamples == ResetBuckets(old(columnSamples), header)
    {
      ghost var start := columnSamples;
      for i := 0 to |header|
        invariant columnSamples == ResetBuckets(start, header[..i])
      {
        ResetBucketsSnoc(start, header, i);
        columnSamples := columnSamples[Some(header[i]) := []];
      }
      assert header[..|header|] == header;
    }

    /** `sanitizedRow.forEach((value, colIndex) => ...)`: each field is pushed
        onto the bucket of the header name at its column. */
    method AppendSamples(sanitizedRow: seq<string>)
      modifies this`columnSamples
      ensures columnSamples == AddSamples(old(columnSamples), headerRow, sanitizedRow)
    {
      ghost var start := columnSamples;
      var names := headerRow;
      for colIndex := 0 to |sanitizedRow|
        invariant columnSamples == AddSamples(start, names, sanitizedRow[..colIndex])
      {
        AddSamplesSnoc(start, names, sanitizedRow, colIndex);
        var header := KeyAt(names, colIndex);
        var samples := Bucket(columnSamples, header);
        columnSamples := columnSamples[header := samples + [sanitizedRow[colIndex]]];
      }
      assert sanitizedRow[..|sanitizedRow|] == sanitizedRow;
    }

    /** The `data` handler on row 0: the trimmed row becomes the header. */
    method TakeHeader(row: seq<string>)
      modifies this`rowCount, this`headerRow, this`columnSamples, this`hookCalls
      ensures Snapshot() == HeaderStep(options, old(Snapshot()), row)
    {
      ghost var before := Snapshot();
      var header := TrimRow(row);
      rowCount, headerRow := rowCount + 1, header;
      if options.collectSamples {
        ResetSamples(header);
      }
      if options.processor.hasOnHeader {
        hookCalls := hookCalls + [HeaderHook(header)];
      }
      ghost var expected := HeaderStep(options, before, row);
      assert expected.columnSamples == columnSamples;
      assert expected.hooks == hookCalls;
      assert expected.headerRow == headerRow;
    }

    /** The `data` handler on a later row: stored and sampled within the
        cap, only counted beyond it. */
    method TakeDataRow(row: seq<string>)
      modifies this`rowCount, this`previewRows, this`columnSamples, this`hookCalls
      ensures Snapshot() == RowStep(options, old(Snapshot()), row)
    {
      ghost var before := Snapshot();
      var currentRowIndex := rowCount;
      rowCount := rowCount + 1;
      if !HasCap(options) || currentRowIndex <= options.previewRows.value {
        var sanitizedRow := TrimRow(row);
        previewRows := previewRows + [sanitizedRow];
        if options.collectSamples {
          AppendSamples(sanitizedRow);
        }
        if options.processor.hasOnRow {
          hookCalls := hookCalls + [RowHook(sanitizedRow, headerRow, currentRowIndex)];
        }
        ghost var expected := RowStep(options, before, row);
        assert expected.columnSamples == columnSamples;
        assert expected.hooks == hookCalls;
        assert expected.previewRows == previewRows;
      }
    }

    /**
     * The `data` handler: the row is counted; row 0 becomes the header, a
     * row within the cap is stored and sampled, any other row is dropped.
     * Buckets only ever grow at their end.
     */
    method OnData(row: seq<string>)
      requires Valid()
      modifies this
      ensures Valid() && rowsSeen == old(rowsSeen) + [row]
      ensures Snapshot() == DataStep(options, old(Snapshot()), row)
      ensures rowCount == old(rowCount) + 1
      ensures old(columnSamples).Keys <= columnSamples.Keys
      ensures forall k :: k in old(columnSamples) ==> old(columnSamples)[k] <= columnSamples[k]
    {
      BucketsOnlyGrow(options, rowsSeen, row);
      RunCountsRows(options, rowsSeen);
      if rowCount == 0 {
        TakeHeader(row);
      } else {
        TakeDataRow(row);
      }
      rowsSeen := rowsSeen + [row];
      assert rowsSeen[..|rowsSeen| - 1] == old(rowsSeen);
      assert Run(options, rowsSeen) == DataStep(options, Run(options, old(rowsSeen)), row);
    }

    /**
     * The `end` handler: rejects when no row arrived, and otherwise resolves
     * with a column per header name.
     */
    method OnEnd(parse: JsonParser, fileName: Option<string>) returns (result: Result<CsvPreviewResult, string>)
      requires Valid()
      ensures result == EndStep(options, Snapshot(), parse, fileName)
      ensures result.Failure? <==> rowsSeen == []
    {
      RunCountsRows(options, rowsSeen);
      if rowCount == 0 {
        return Failure(EmptyFileError);
      }
      var header, samplesByKey, collect := headerRow, columnSamples, options.collectSamples;
      var columns := seq(|header|, i requires 0 <= i < |header| =>
        var samples := if collect then Bucket(samplesByKey, Some(header[i])) else [];
        ColumnPreview(header[i], samples,
          if collect then TypeInference.InferColumnType(parse, samples) else TypeInference.String));
      result := Success(CsvPreviewResult(fileName, columns, previewRows, |header|));
    }
  }

  /**
   * One ingestion call: a fresh parser receives the tokenizer's rows in
   * order, then settles with the `end` handler's result or, on a tokenizer
   * error, with the wrapped message. Also returns the hook calls made.
   */
  method Ingest(options: ParseOptions, parse: JsonParser, output: TokenizerOutput, fileName: Option<string>)
    returns (result: Result<CsvPreviewResult, string>, hooks: seq<HookCall>)
    ensures result == Outcome(options, parse, output, fileName)
    ensures result.Failure? <==> output.Aborted? || output.rows == []
    ensures hooks == ExpectedHooks(options, output.rows)
  {
    var parser := new Parser(options);
    var rows := output.rows;
    for i := 0 to |rows|
      invariant parser.Valid() && parser.options == options
      invariant parser.rowsSeen == rows[..i]
    {
      assert rows[..i + 1] == rows[..i] + [rows[i]];
      parser.OnData(rows[i]);
    }
    assert rows[..|rows|] == rows;
    RunHookCalls(options, rows);
    hooks := parser.hookCalls;
    match output {
      case Aborted(_, message) =>
        result := Failure(TokenizerError(message));
      case Finished(_) =>
        result := parser.OnEnd(parse, fileName);
    }
  }
}
