/**
 * Value and record coercion for importers: `parseValue` turns one raw cell
 * into a JSON value, `parseColumns` turns chosen cells of a row into a value
 * or a record.
 */
module Coercion {
  import opened Wrappers
  import opened Json
  import opened Text
  import TypeInference

  /**
   * `parseValue`: the `JSON.parse` result when the text parses; otherwise
   * null for blank or "null" text, a boolean for "true"/"false" in any case,
   * the number `Number(value)` when it is not NaN, and else the text itself.
   */
  function ParseValue(parse: JsonParser, toNumber: NumberParser, value: string): (v: JsonVal)
    ensures parse(value).Some? ==> v == parse(value).value
    ensures parse(value).None? ==>
      (v == JNull <==> TypeInference.IsNullText(value))
      && (v == JBool(true) <==> !TypeInference.IsNullText(value) && EqualsIgnoreCase(value, "true"))
      && (v == JBool(false) <==> !TypeInference.IsNullText(value) && EqualsIgnoreCase(value, "false"))
    ensures parse(value).None? && v.JNumber? ==> toNumber(value) == Some(v.n)
  {
    match parse(value)
    case Some(j) => j
    case None =>
      if value == "" || EqualsIgnoreCase(value, "null") then JNull
      else if EqualsIgnoreCase(value, "true") then JBool(true)
      else if EqualsIgnoreCase(value, "false") then JBool(false)
      else match toNumber(value)
        case Some(n) => JNumber(n)
        case None => JString(value)
  }

  /**
   * When `JSON.parse` fails, the fallbacks are tried in order and the last
   * one returns the text unchanged: text that is not null, boolean or
   * numeric comes back as the string it was, and numeric text comes back as
   * the number `Number` reads from it.
   */
  lemma FallbackKeepsText(parse: JsonParser, toNumber: NumberParser, value: string)
    requires parse(value).None?
    ensures ParseValue(parse, toNumber, value).JNumber? <==>
      !TypeInference.IsNullText(value) && !EqualsIgnoreCase(value, "true")
      && !EqualsIgnoreCase(value, "false") && toNumber(value).Some?
    ensures ParseValue(parse, toNumber, value).JNumber? ==>
      ParseValue(parse, toNumber, value) == JNumber(toNumber(value).value)
    ensures ParseValue(parse, toNumber, value).JString? ==> ParseValue(parse, toNumber, value) == JString(value)
    ensures ParseValue(parse, toNumber, value) == JString(value) <==>
      !TypeInference.IsNullText(value) && !EqualsIgnoreCase(value, "true")
      && !EqualsIgnoreCase(value, "false") && toNumber(value).None?
  {
  }

  /**
   * Coercion and classification agree where both read the text: a value the
   * classifier tags null coerces to null (the only text among blank and case
   * variants of "null" that `JSON.parse` accepts is "null", read as null);
   * a value it tags `unknown` coerces to a boolean, a number or the text
   * itself, never to null; and any other tag is the tag of the coerced value.
   */
  lemma CoercionAgreesWithClassifier(parse: JsonParser, toNumber: NumberParser, value: string)
    requires parse(value).None? || parse(value) == Some(JNull)
      || !TypeInference.IsNullText(value)
    ensures var t := TypeInference.InferTypeFromValue(parse, value);
      var v := ParseValue(parse, toNumber, value);
      && (t == TypeInference.Null ==> v == JNull)
      && (t == TypeInference.Unknown ==> v.JBool? || v.JNumber? || v == JString(value))
      && (t != TypeInference.Null && t != TypeInference.Unknown ==> t == TypeInference.TypeOfJson(v))
  {
  }

  /**
   * The documented coercions, given what `JSON.parse` and `Number` return:
   * "true" is `true`, a bare word is that string, a blank is null and
   * "3.14" is the number 3.14.
   */
  lemma ParseValueExamples(parse: JsonParser, toNumber: NumberParser)
    requires parse("true") == Some(JBool(true))
    requires parse("hello") == None && toNumber("hello") == None
    requires parse("") == None
    requires parse("3.14") == Some(JNumber(3.14))
    ensures ParseValue(parse, toNumber, "true") == JBool(true)
    ensures ParseValue(parse, toNumber, "hello") == JString("hello")
    ensures ParseValue(parse, toNumber, "") == JNull
    ensures ParseValue(parse, toNumber, "3.14") == JNumber(3.14)
  {
    assert Lower("hello")[0] == 'h';
  }

  /** The message of the TypeError `parseValue` throws when it is handed
      `undefined`, which is what `row[headerMap.get(col)!]` reads for a name
      the header map lacks or an index the row does not have. */
  const UndefinedCellError := "Cannot read properties of undefined (reading 'toLowerCase')"

  /** `row[headerMap.get(col)!]`: `None` where that is `undefined`. */
  function Cell(row: seq<string>, headerMap: map<string, int>, col: string): (c: Option<string>)
    ensures c.Some? <==> col in headerMap && 0 <= headerMap[col] < |row|
    ensures c.Some? ==> c.value == row[headerMap[col]]
  {
    if col in headerMap && 0 <= headerMap[col] < |row| then Some(row[headerMap[col]]) else None
  }

  /** `parseValue` applied to one looked-up cell. */
  function ParseCell(parse: JsonParser, toNumber: NumberParser, row: seq<string>,
                     headerMap: map<string, int>, col: string): Result<JsonVal, string>
  {
    match Cell(row, headerMap, col)
    case Some(value) => Success(ParseValue(parse, toNumber, value))
    case None => Failure(UndefinedCellError)
  }

  /** Every name has a cell in the row. */
  predicate AllCellsDefined(row: seq<string>, headerMap: map<string, int>, names: seq<string>) {
    forall i :: 0 <= i < |names| ==> Cell(row, headerMap, names[i]).Some?
  }

  /**
   * `parseColumns`: no names give null, one name gives that cell coerced,
   * and two or more give a record from each name to its coerced cell.
   * A name without a cell makes `parseValue` throw.
   */
  function ParseColumns(parse: JsonParser, toNumber: NumberParser, columnNames: seq<string>,
                        row: seq<string>, headerMap: map<string, int>): (r: Result<JsonVal, string>)
    ensures columnNames == [] ==> r == Success(JNull)
    ensures |columnNames| == 1 ==> r == ParseCell(parse, toNumber, row, headerMap, columnNames[0])
    ensures columnNames != [] ==> (r.Success? <==> AllCellsDefined(row, headerMap, columnNames))
    ensures |columnNames| >= 2 && r.Success? ==>
      r.value.JObject? && r.value.fields.Keys == set c | c in columnNames
  {
    if |columnNames| == 0 then Success(JNull)
    else if |columnNames| == 1 then ParseCell(parse, toNumber, row, headerMap, columnNames[0])
    else if AllCellsDefined(row, headerMap, columnNames) then
      Success(JObject(map c | c in columnNames :: ParseValue(parse, toNumber, Cell(row, headerMap, c).value)))
    else Failure(UndefinedCellError)
  }

  /**
   * Each field of a record `parseColumns` builds is what `parseColumns`
   * gives for that one name alone.
   */
  lemma RecordFieldsAreSingleColumns(parse: JsonParser, toNumber: NumberParser, columnNames: seq<string>,
                                     row: seq<string>, headerMap: map<string, int>, k: int)
    requires |columnNames| >= 2 && 0 <= k < |columnNames|
    requires ParseColumns(parse, toNumber, columnNames, row, headerMap).Success?
    ensures var r := ParseColumns(parse, toNumber, columnNames, row, headerMap).value;
      r.JObject? && columnNames[k] in r.fields
      && ParseColumns(parse, toNumber, [columnNames[k]], row, headerMap) == Success(r.fields[columnNames[k]])
  {
    assert Cell(row, headerMap, columnNames[k]).Some?;
  }
}
