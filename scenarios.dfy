/**
 * Whole-input scenarios for the CSV preview, stated on the rows the
 * tokenizer delivers and on what `JSON.parse` returns for the cells.
 */
module Scenarios {
  import opened Wrappers
  import opened Json
  import opened Text
  import opened TypeInference
  import opened ParserSpec

  /**
   * A file with a header and no data rows is not rejected: the end handler
   * rejects only when no row at all arrived, so the preview has the
   * header's columns and no rows.
   */
  lemma HeaderOnlyIsNotEmpty(o: ParseOptions, parse: JsonParser, header: seq<string>, fileName: Option<string>)
    ensures Outcome(o, parse, Finished([header]), fileName).Success?
    ensures var p := Outcome(o, parse, Finished([header]), fileName).value;
      p.previewRows == [] && p.totalColumns == |header|
  {
    PreviewOfRows(o, parse, [header], fileName);
  }

  /** An input with no row at all is rejected as empty. */
  lemma NoRowsIsEmpty(o: ParseOptions, parse: JsonParser, fileName: Option<string>)
    ensures Outcome(o, parse, Finished([]), fileName) == Failure("CSV file is empty")
  {
    PreviewOfRows(o, parse, [], fileName);
  }

  /** The columns of three two-field rows. */
  lemma ColumnValuesOfThreePairs(r1: seq<string>, r2: seq<string>, r3: seq<string>, j: nat)
    requires |r1| == |r2| == |r3| == 2 && j < 2
    ensures ColumnValues([r1, r2, r3], j) == [r1[j], r2[j], r3[j]]
  {
    assert [r1][..0] == [];
    assert ColumnValues([r1], j) == [r1[j]];
    assert [r1, r2][..1] == [r1];
    assert ColumnValues([r1, r2], j) == [r1[j], r2[j]];
    assert [r1, r2, r3][..2] == [r1, r2];
  }

  /** Every row of the id,value example is already sanitized. */
  lemma IdValueRowsAreTrimmed(rows: seq<seq<string>>)
    requires rows == [["id", "value"], ["1", "42"], ["2", ""], ["3", "true"]]
    ensures forall i :: 0 <= i < |rows| ==> TrimRow(rows[i]) == rows[i]
  {
    forall i | 0 <= i < |rows| ensures TrimRow(rows[i]) == rows[i] {
      assert IsTrimmed(rows[i][0]) && IsTrimmed(rows[i][1]);
      TrimRowUnchanged(rows[i]);
    }
  }

  /** When the cap admits all three data rows of a four-row input whose rows are
      already trimmed, the stored preview is exactly the data rows. */
  lemma StoredTrimmedRows(o: ParseOptions, rows: seq<seq<string>>)
    requires KeepsRow(o, 3) && |rows| == 4
    requires forall i :: 0 <= i < |rows| ==> TrimRow(rows[i]) == rows[i]
    ensures StoredRows(o, rows) == rows[1..]
  {
    var stored := StoredRows(o, rows);
    assert |stored| == 3;
    assert stored[0] == TrimRow(rows[1]) && stored[1] == TrimRow(rows[2]) && stored[2] == TrimRow(rows[3]);
  }

  /** The inferred types of the two columns of the id,value example. */
  lemma IdValueTypes(parse: JsonParser)
    requires parse("1") == Some(JNumber(1.0)) && parse("2") == Some(JNumber(2.0))
    requires parse("3") == Some(JNumber(3.0)) && parse("42") == Some(JNumber(42.0))
    requires parse("true") == Some(JBool(true))
    ensures InferColumnType(parse, ["1", "2", "3"]) == Number
    ensures InferColumnType(parse, ["42", "", "true"]) == Mixed
  {
    NumbersAreNumber(parse);
    var samples := ["42", "", "true"];
    NotNullText("42");
    assert Lower("true")[0] == 't';
    assert InferTypeFromValue(parse, samples[0]) == Number && InferTypeFromValue(parse, samples[2]) == Boolean;
    InferColumnTypeRule(parse, samples);
  }

  /**
   * Header id,value and rows 1,42 / 2,(blank) / 3,true under the client's
   * defaults: id is `number`; value holds a number, a null and a boolean and
   * is `mixed`; all three rows are previewed; there are two columns.
   */
  lemma IdValueScenario(parse: JsonParser, rows: seq<seq<string>>, fileName: string)
    requires rows == [["id", "value"], ["1", "42"], ["2", ""], ["3", "true"]]
    requires parse("1") == Some(JNumber(1.0)) && parse("2") == Some(JNumber(2.0))
    requires parse("3") == Some(JNumber(3.0)) && parse("42") == Some(JNumber(42.0))
    requires parse("true") == Some(JBool(true))
    ensures var r := Outcome(ClientDefaultOptions(), parse, Finished(rows), Some(fileName));
      && r.Success?
      && r.value.totalColumns == 2
      && r.value.columns[0].name == "id" && r.value.columns[0].inferredType == Number
      && r.value.columns[1].name == "value" && r.value.columns[1].inferredType == Mixed
      && |r.value.previewRows| == 3
  {
    var o := ClientDefaultOptions();
    IdValueRowsAreTrimmed(rows);
    StoredTrimmedRows(o, rows);
    var header := rows[0];
    assert UniqueNames(header) by {
      assert |header[0]| != |header[1]|;
    }
    PreviewOfRows(o, parse, rows, Some(fileName));
    var data := rows[1..];
    ColumnValuesOfThreePairs(data[0], data[1], data[2], 0);
    ColumnValuesOfThreePairs(data[0], data[1], data[2], 1);
    IdValueTypes(parse);
  }
}
