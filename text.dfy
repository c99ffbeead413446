/**
 * String helpers the CSV code relies on: JavaScript's `String.prototype.trim`
 * and the lower-casing used for case-insensitive comparison with a keyword.
 */
module Text {

  /**
   * The characters `trim` removes: ECMAScript WhiteSpace (tab, vertical tab,
   * form feed, space, no-break space, the byte-order mark and every
   * space separator) and LineTerminator (LF, CR, LS, PS).
   */
  predicate IsJsWhitespace(c: char) {
    var n := c as int;
    n == 0x09 || n == 0x0A || n == 0x0B || n == 0x0C || n == 0x0D || n == 0x20
    || n == 0xA0 || n == 0x1680 || (0x2000 <= n <= 0x200A)
    || n == 0x2028 || n == 0x2029 || n == 0x202F || n == 0x205F
    || n == 0x3000 || n == 0xFEFF
  }

  /** How many leading characters of `s` are whitespace. */
  function LeadingWhitespace(s: string): (n: nat)
    ensures n <= |s|
    ensures n < |s| ==> !IsJsWhitespace(s[n])
  {
    if s != [] && IsJsWhitespace(s[0]) then 1 + LeadingWhitespace(s[1..]) else 0
  }

  /** What `TrimStart` cuts is whitespace. */
  lemma {:induction false} LeadingWhitespaceIsWhitespace(s: string)
    ensures forall i :: 0 <= i < LeadingWhitespace(s) ==> IsJsWhitespace(s[i])
  {
    if s != [] && IsJsWhitespace(s[0]) {
      LeadingWhitespaceIsWhitespace(s[1..]);
      assert forall i :: 1 <= i < |s| ==> s[i] == s[1..][i - 1];
    }
  }

  /** `s` with its leading whitespace removed. */
  function TrimStart(s: string): string {
    s[LeadingWhitespace(s)..]
  }

  /** How many trailing characters of `s` are whitespace. */
  function TrailingWhitespace(s: string): (n: nat)
    ensures n <= |s|
    ensures n < |s| ==> !IsJsWhitespace(s[|s| - 1 - n])
  {
    if s != [] && IsJsWhitespace(s[|s| - 1]) then 1 + TrailingWhitespace(s[..|s| - 1]) else 0
  }

  /** What `TrimEnd` cuts is whitespace. */
  lemma {:induction false} TrailingWhitespaceIsWhitespace(s: string)
    ensures forall i :: |s| - TrailingWhitespace(s) <= i < |s| ==> IsJsWhitespace(s[i])
  {
    if s != [] && IsJsWhitespace(s[|s| - 1]) {
      TrailingWhitespaceIsWhitespace(s[..|s| - 1]);
    }
  }

  /** `s` with its trailing whitespace removed. */
  function TrimEnd(s: string): string {
    s[..|s| - TrailingWhitespace(s)]
  }

  /** JavaScript's `s.trim()`. */
  function Trim(s: string): string {
    TrimEnd(TrimStart(s))
  }

  /** `TrimEnd(u)` is a prefix of `u` followed only by whitespace; when it is
      not empty it starts where `u` does and does not end with whitespace. */
  lemma TrimEndIsPrefix(u: string)
    ensures TrimEnd(u) == u[..|TrimEnd(u)|]
    ensures forall k :: |TrimEnd(u)| <= k < |u| ==> IsJsWhitespace(u[k])
    ensures TrimEnd(u) != [] ==> TrimEnd(u)[0] == u[0] && !IsJsWhitespace(TrimEnd(u)[|TrimEnd(u)| - 1])
  {
    TrailingWhitespaceIsWhitespace(u);
  }

  /** `Trim(s)` is the infix of `s` that starts after its leading whitespace. */
  lemma TrimIsInfix(s: string)
    ensures LeadingWhitespace(s) + |Trim(s)| <= |s|
    ensures Trim(s) == s[LeadingWhitespace(s)..LeadingWhitespace(s) + |Trim(s)|]
  {
    var i := LeadingWhitespace(s);
    var u := s[i..];
    var t := TrimEnd(u);
    assert Trim(s) == t;
    TrimEndIsPrefix(u);
    SliceOfSuffix(s, i, t);
  }

  /** `trim` cuts only whitespace on either side of `Trim(s)`, and `Trim(s)`
      neither starts nor ends with whitespace. */
  lemma TrimCutsWhitespace(s: string)
    ensures forall k :: 0 <= k < LeadingWhitespace(s) ==> IsJsWhitespace(s[k])
    ensures LeadingWhitespace(s) + |Trim(s)| <= |s|
    ensures forall k :: LeadingWhitespace(s) + |Trim(s)| <= k < |s| ==> IsJsWhitespace(s[k])
    ensures Trim(s) == [] || (!IsJsWhitespace(Trim(s)[0]) && !IsJsWhitespace(Trim(s)[|Trim(s)| - 1]))
  {
    var i := LeadingWhitespace(s);
    var u := s[i..];
    var t := TrimEnd(u);
    assert Trim(s) == t;
    LeadingWhitespaceIsWhitespace(s);
    TrimEndIsPrefix(u);
    SliceOfSuffix(s, i, t);
    assert t != [] ==> t[0] == s[i];
  }

  /** A prefix `t` of `s[i..]` is `s[i..i + |t|]`, and what follows it in
      `s[i..]` is what follows it in `s`. */
  lemma SliceOfSuffix(s: string, i: nat, t: string)
    requires i <= |s| && |t| <= |s| - i && t == s[i..][..|t|]
    ensures t == s[i..i + |t|]
    ensures forall k :: i + |t| <= k < |s| ==> s[k] == s[i..][k - i]
  {
  }

  /** Trimming twice is trimming once: the header and data rows the tokenizer
      has already trimmed are left as they are by the second trim. */
  lemma TrimIdempotent(s: string)
    ensures Trim(Trim(s)) == Trim(s)
  {
    var u := TrimStart(s);
    var t := TrimEnd(u);
    if t != [] {
      assert t[0] == u[0];
      assert !IsJsWhitespace(t[0]);
    }
    assert TrimStart(t) == t;
  }

  /** Neither starts nor ends with whitespace. */
  predicate IsTrimmed(s: string) {
    s == [] || (!IsJsWhitespace(s[0]) && !IsJsWhitespace(s[|s| - 1]))
  }

  /** A string that neither starts nor ends with whitespace is its own trim. */
  lemma TrimUnchanged(s: string)
    requires IsTrimmed(s)
    ensures Trim(s) == s
  {
  }

  /** Every field of a row trimmed, as `row.map((value) => value.trim())`. */
  function TrimRow(row: seq<string>): (r: seq<string>)
    ensures |r| == |row|
    ensures forall i :: 0 <= i < |row| ==> r[i] == Trim(row[i])
  {
    seq(|row|, i requires 0 <= i < |row| => Trim(row[i]))
  }

  lemma TrimRowIdempotent(row: seq<string>)
    ensures TrimRow(TrimRow(row)) == TrimRow(row)
  {
    forall i | 0 <= i < |row| ensures TrimRow(TrimRow(row))[i] == TrimRow(row)[i] {
      TrimIdempotent(row[i]);
    }
  }

  /** A row whose every field is already trimmed is its own `TrimRow`. */
  lemma TrimRowUnchanged(row: seq<string>)
    requires forall j :: 0 <= j < |row| ==> IsTrimmed(row[j])
    ensures TrimRow(row) == row
  {
    forall j | 0 <= j < |row| ensures TrimRow(row)[j] == row[j] {
      TrimUnchanged(row[j]);
    }
  }

  /** Lower-case of one character, for the ASCII letters. */
  function LowerChar(c: char): (d: char)
    ensures 'A' <= c <= 'Z' ==> d as int == c as int + 32
    ensures !('A' <= c <= 'Z') ==> d == c
  {
    if 'A' <= c <= 'Z' then (c as int + 32) as char else c
  }

  /**
   * `s.toLowerCase()` as far as a comparison with an all-lower-case ASCII
   * keyword can tell: no character outside A-Z lower-cases to one of a-z
   * except the Kelvin sign (to k) and the capital I with dot above (to i
   * followed by a combining dot), and none of the keywords compared here
   * holds a k or an i.
   */
  function Lower(s: string): (r: string)
    ensures |r| == |s|
    ensures forall i :: 0 <= i < |s| ==> r[i] == LowerChar(s[i])
  {
    seq(|s|, i requires 0 <= i < |s| => LowerChar(s[i]))
  }

  /** `s.toLowerCase() === word`. */
  predicate EqualsIgnoreCase(s: string, word: string) {
    Lower(s) == word
  }
}
