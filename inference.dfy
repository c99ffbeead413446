/**
 * Column type inference: `inferTypeFromValue` tags one sample value and
 * `inferColumnType` reduces a column's samples to one column type.
 */
module TypeInference {
  import opened Wrappers
  import opened Json
  import opened Text

  /** The column types a preview reports (the `ColumnType` union). */
  datatype ColumnType = String | Number | Boolean | Null | Json | Array | Unknown | Mixed

  /** `""` and every case variant of `"null"` are null before any parse. */
  predicate IsNullText(value: string) {
    value == "" || EqualsIgnoreCase(value, "null")
  }

  /**
   * The tag of a value `JSON.parse` produced: arrays are `array`, every other
   * `typeof` "object" (keyed structures, and `null` itself) is `json`, and
   * numbers, booleans and strings are their own `typeof`.
   */
  function TypeOfJson(v: JsonVal): (t: ColumnType)
    ensures t != Mixed && t != Unknown && t != Null
    ensures t == Array <==> v.JArray?
    ensures t == Json <==> v.JObject? || v.JNull?
    ensures t == Number <==> v.JNumber?
    ensures t == Boolean <==> v.JBool?
    ensures t == String <==> v.JString?
  {
    match v
    case JArray(_) => Array
    case JObject(_) => Json
    case JNull => Json
    case JNumber(_) => Number
    case JBool(_) => Boolean
    case JString(_) => String
  }

  /** `inferTypeFromValue`: the type tag of one sample. */
  function InferTypeFromValue(parse: JsonParser, value: string): (t: ColumnType)
    ensures t != Mixed
    ensures t == Null <==> IsNullText(value)
    ensures !IsNullText(value) ==> (t == Unknown <==> parse(value).None?)
    ensures !IsNullText(value) && parse(value).Some? ==> t == TypeOfJson(parse(value).value)
  {
    if IsNullText(value) then Null
    else
      match parse(value)
      case None => Unknown
      case Some(v) => TypeOfJson(v)
  }

  /** No element occurs twice. */
  predicate NoDuplicates(s: seq<ColumnType>) {
    forall i, j :: 0 <= i < j < |s| ==> s[i] != s[j]
  }

  /**
   * The elements of `s` in order of first occurrence: what iterating a
   * JavaScript `Set` built from `s` yields, and `|Distinct(s)|` its `size`.
   */
  function Distinct(s: seq<ColumnType>): (r: seq<ColumnType>)
    ensures forall x :: x in r <==> x in s
    ensures NoDuplicates(r)
    ensures |r| <= |s|
    ensures s != [] ==> r != [] && r[0] == s[0]
  {
    if s == [] then []
    else
      var d := Distinct(s[..|s| - 1]);
      assert forall x :: x in s <==> x in s[..|s| - 1] || x == s[|s| - 1];
      if s[|s| - 1] in d then d else d + [s[|s| - 1]]
  }

  /** The tag of every sample, in order (`samples.map(inferTypeFromValue)`). */
  function Tags(parse: JsonParser, samples: seq<string>): (r: seq<ColumnType>)
    ensures |r| == |samples|
    ensures forall i :: 0 <= i < |samples| ==> r[i] == InferTypeFromValue(parse, samples[i])
  {
    seq(|samples|, i requires 0 <= i < |samples| => InferTypeFromValue(parse, samples[i]))
  }

  /**
   * `inferColumnType` once every sample has been tagged: an empty column is
   * `unknown`; of the set of distinct tags, `{null}` gives `null`, `null` and
   * one other tag give that tag, any other single tag is returned as it is,
   * and everything else is `mixed`.
   */
  function AggregateTags(tags: seq<ColumnType>): (t: ColumnType)
    ensures tags == [] ==> t == Unknown
    ensures tags != [] ==> t == Mixed || t in tags
  {
    if |tags| == 0 then Unknown
    else
      var types := Distinct(tags);
      if |types| == 1 && Null in types then Null
      else if |types| == 2 && Null in types then
        // the one element of the set that `find((t) => t !== "null")` meets
        if types[0] == Null then types[1] else types[0]
      else if |types| == 1 then types[0]
      else Mixed
  }

  /** `inferColumnType`. */
  function InferColumnType(parse: JsonParser, samples: seq<string>): (t: ColumnType)
    ensures samples == [] ==> t == Unknown
    ensures samples != [] ==> t == Mixed || t in Tags(parse, samples)
  {
    AggregateTags(Tags(parse, samples))
  }

  /** Two tags of the column differ and neither is null. */
  ghost predicate HasConflict(tags: seq<ColumnType>) {
    exists i, j :: 0 <= i < |tags| && 0 <= j < |tags|
      && tags[i] != Null && tags[j] != Null && tags[i] != tags[j]
  }

  /** Every tag is null. */
  ghost predicate AllNull(tags: seq<ColumnType>) {
    forall i :: 0 <= i < |tags| ==> tags[i] == Null
  }

  /** With one distinct tag, or null and one other, no two tags conflict. */
  lemma NoConflictWhenHomogeneous(tags: seq<ColumnType>)
    requires var types := Distinct(tags);
      |types| == 1 || (|types| == 2 && Null in types)
    ensures forall i :: 0 <= i < |tags| ==> tags[i] in Distinct(tags)
    ensures !HasConflict(tags)
  {
    var types := Distinct(tags);
    assert forall i :: 0 <= i < |tags| ==> tags[i] in tags;
    forall i, j | 0 <= i < |tags| && 0 <= j < |tags| && tags[i] != Null && tags[j] != Null
      ensures tags[i] == tags[j]
    {
      assert tags[i] in types && tags[j] in types;
    }
  }

  /** Otherwise two distinct non-null tags occur. */
  lemma ConflictWhenHeterogeneous(tags: seq<ColumnType>)
    requires var types := Distinct(tags);
      |types| >= 2 && !(|types| == 2 && Null in types)
    ensures HasConflict(tags)
  {
    var types := Distinct(tags);
    var a, b := 0, 1;
    if |types| > 2 {
      assert types[0] != types[1] && types[1] != types[2] && types[0] != types[2];
      if types[0] == Null {
        a, b := 1, 2;
      } else if types[1] == Null {
        a, b := 0, 2;
      }
    }
    assert types[a] in tags && types[b] in tags;
    var i :| 0 <= i < |tags| && tags[i] == types[a];
    var j :| 0 <= j < |tags| && tags[j] == types[b];
    assert tags[i] != Null && tags[j] != Null && tags[i] != tags[j];
  }

  /**
   * The aggregation rule in full, for a non-empty column: the type is `null`
   * exactly when every tag is null, `mixed` exactly when two tags differ and
   * neither is null, and otherwise the one non-null tag present, which every
   * tag either equals or is null. (No sample is ever tagged `mixed`.)
   */
  lemma AggregateTagsRule(tags: seq<ColumnType>)
    requires tags != [] && Mixed !in tags
    ensures AggregateTags(tags) == Null <==> AllNull(tags)
    ensures AggregateTags(tags) == Mixed <==> HasConflict(tags)
    ensures var t := AggregateTags(tags);
      t != Mixed && t != Null ==> t in tags && forall i :: 0 <= i < |tags| ==> tags[i] in {Null, t}
  {
    var types := Distinct(tags);
    var t := AggregateTags(tags);
    if |types| == 1 || (|types| == 2 && Null in types) {
      NoConflictWhenHomogeneous(tags);
      if |types| == 2 {
        assert types[0] != types[1];
        assert types[0] in tags && types[1] in tags;
        assert !AllNull(tags);
      }
    } else {
      assert |types| >= 2;
      ConflictWhenHeterogeneous(tags);
      assert !AllNull(tags) by {
        var x := if types[0] == Null then types[1] else types[0];
        assert x in tags;
      }
    }
  }

  /**
   * What `inferColumnType` promises of a non-empty column of samples: `null`
   * exactly when every sample is null text, `mixed` exactly when two samples
   * carry different non-null tags, and otherwise a tag some sample carries
   * and that every non-null sample shares.
   */
  lemma InferColumnTypeRule(parse: JsonParser, samples: seq<string>)
    requires samples != []
    ensures InferColumnType(parse, samples) == Null <==> (forall i :: 0 <= i < |samples| ==> IsNullText(samples[i]))
    ensures InferColumnType(parse, samples) == Mixed <==>
      exists i, j :: 0 <= i < |samples| && 0 <= j < |samples|
        && !IsNullText(samples[i]) && !IsNullText(samples[j])
        && InferTypeFromValue(parse, samples[i]) != InferTypeFromValue(parse, samples[j])
    ensures var t := InferColumnType(parse, samples);
      t != Mixed && t != Null ==>
        (exists i :: 0 <= i < |samples| && InferTypeFromValue(parse, samples[i]) == t)
        && (forall i :: 0 <= i < |samples| && !IsNullText(samples[i]) ==> InferTypeFromValue(parse, samples[i]) == t)
  {
    var tags := Tags(parse, samples);
    AggregateTagsRule(tags);
    if InferColumnType(parse, samples) == Mixed {
      var i, j :| 0 <= i < |tags| && 0 <= j < |tags|
        && tags[i] != Null && tags[j] != Null && tags[i] != tags[j];
    }
    var t := InferColumnType(parse, samples);
    if t != Mixed && t != Null {
      var i :| 0 <= i < |tags| && tags[i] == t;
    }
  }

  /**
   * The documented classifications, given what `JSON.parse` returns for
   * each input: blank and "NULL" are null without a parse, a bare word that
   * does not parse is `unknown` (never `string`), a quoted word is `string`.
   */
  lemma ClassificationExamples(parse: JsonParser)
    requires parse("42") == Some(JNumber(42.0))
    requires parse("true") == Some(JBool(true))
    requires parse("[1,2]") == Some(JArray([JNumber(1.0), JNumber(2.0)]))
    requires parse("{\"a\":1}") == Some(JObject(map["a" := JNumber(1.0)]))
    requires parse("hello") == None
    requires parse("\"hello\"") == Some(JString("hello"))
    ensures InferTypeFromValue(parse, "") == Null
    ensures InferTypeFromValue(parse, "NULL") == Null
    ensures InferTypeFromValue(parse, "42") == Number
    ensures InferTypeFromValue(parse, "true") == Boolean
    ensures InferTypeFromValue(parse, "[1,2]") == Array
    ensures InferTypeFromValue(parse, "{\"a\":1}") == Json
    ensures InferTypeFromValue(parse, "hello") == Unknown
    ensures InferTypeFromValue(parse, "\"hello\"") == String
  {
    assert Lower("NULL") == "null";
    assert Lower("true")[0] == 't';
    assert !EqualsIgnoreCase("42", "null") && !EqualsIgnoreCase("true", "null");
    assert !EqualsIgnoreCase("hello", "null") && !EqualsIgnoreCase("[1,2]", "null");
    assert Lower("{\"a\":1}")[0] == '{';
    assert Lower("\"hello\"")[0] == '"';
  }

  /**
   * `typeof null` is "object", so text that `JSON.parse` reads as null but
   * that is not blank or a case variant of "null" (JSON whitespace around
   * it, as in " null") is tagged `json`.
   */
  lemma PaddedNullIsJson(parse: JsonParser)
    requires parse(" null") == Some(JNull)
    ensures InferTypeFromValue(parse, " null") == Json
  {
    assert Lower(" null")[0] == ' ';
  }

  /** Text that is neither blank nor a case variant of "null". */
  lemma NotNullText(value: string)
    requires value != [] && |value| != 4
    ensures !IsNullText(value)
  {
  }

  /** The documented aggregations: numbers give `number`... */
  lemma NumbersAreNumber(parse: JsonParser)
    requires parse("1") == Some(JNumber(1.0))
    requires parse("2") == Some(JNumber(2.0))
    requires parse("3") == Some(JNumber(3.0))
    ensures InferColumnType(parse, ["1", "2", "3"]) == Number
  {
    var samples := ["1", "2", "3"];
    NotNullText("1"); NotNullText("2"); NotNullText("3");
    assert Tags(parse, samples) == [Number, Number, Number];
    AggregateTagsRule(Tags(parse, samples));
  }

  /** ...a blank among numbers is tolerated... */
  lemma BlankAmongNumbersIsNumber(parse: JsonParser)
    requires parse("1") == Some(JNumber(1.0))
    requires parse("3") == Some(JNumber(3.0))
    ensures InferColumnType(parse, ["1", "", "3"]) == Number
  {
    var samples := ["1", "", "3"];
    NotNullText("1"); NotNullText("3");
    assert Tags(parse, samples) == [Number, Null, Number];
    AggregateTagsRule(Tags(parse, samples));
  }

  /** ...a number beside a boolean is `mixed`... */
  lemma NumberBesideBooleanIsMixed(parse: JsonParser)
    requires parse("1") == Some(JNumber(1.0))
    requires parse("true") == Some(JBool(true))
    ensures InferColumnType(parse, ["1", "true"]) == Mixed
  {
    var samples := ["1", "true"];
    NotNullText("1");
    assert Lower("true")[0] == 't';
    assert Tags(parse, samples) == [Number, Boolean];
    AggregateTagsRule(Tags(parse, samples));
    assert HasConflict(Tags(parse, samples)) by {
      var tags := Tags(parse, samples);
      assert tags[0] != Null && tags[1] != Null && tags[0] != tags[1];
    }
  }

  /** ...and nulls alone are `null`, whatever `JSON.parse` would say. */
  lemma NullsAreNull(parse: JsonParser)
    ensures InferColumnType(parse, ["null", "NULL"]) == Null
  {
    var samples := ["null", "NULL"];
    assert Lower("null") == "null" && Lower("NULL") == "null";
    assert Tags(parse, samples) == [Null, Null];
    AggregateTagsRule(Tags(parse, samples));
  }
}
