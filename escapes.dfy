/** Decoding the escape pairs of string and character literals.

    `ReplaceEscape` is the decoding as written: seven whole-string
    replacements, one per escape pair, in the iteration order of the hash map
    that holds them.  `DecodeEscapes` is the left-to-right decoding the
    literal syntax calls for; the parser uses it, and `EncodeEscapes` is its
    inverse. */
module Escapes {

  /** `String.replace(target, replacement)`: every non-overlapping occurrence,
      scanned from the left, is replaced. */
  function Replace(s: string, target: string, replacement: string): (r: string)
    requires |target| > 0
    decreases |s|
    ensures |replacement| <= |target| ==> |r| <= |s|
  {
    if |s| < |target| then s
    else if s[..|target|] == target then replacement + Replace(s[|target|..], target, replacement)
    else [s[0]] + Replace(s[1..], target, replacement)
  }

  predicate NoBackslash(s: string)
  {
    forall k :: 0 <= k < |s| ==> s[k] != '\\'
  }

  /** A target that starts with a backslash does not occur in a text
      without one, so replacing it changes nothing. */
  lemma {:induction false} ReplaceWithoutBackslash(s: string, target: string, replacement: string)
    requires |target| > 0 && target[0] == '\\' && NoBackslash(s)
    ensures Replace(s, target, replacement) == s
    decreases |s|
  {
    if |s| >= |target| {
      assert s[..|target|][0] != target[0];
      ReplaceWithoutBackslash(s[1..], target, replacement);
    }
  }

  lemma {:induction false} ReplaceEachWithoutBackslash(s: string, table: seq<(string, string)>)
    requires forall k :: 0 <= k < |table| ==> |table[k].0| > 0 && table[k].0[0] == '\\'
    requires NoBackslash(s)
    ensures ReplaceEach(s, table) == s
    decreases |table|
  {
    if table != [] {
      ReplaceWithoutBackslash(s, table[0].0, table[0].1);
      ReplaceEachWithoutBackslash(s, table[1..]);
    }
  }

  /** The escape pairs in the order the hash map visits them (a table of
      sixteen buckets: `\\` in bucket 0, `\n` in 2, `\b`, `\r`, `\"` chained
      in 6, `\t` in 8, `\'` in 11). */
  const EscapeTable: seq<(string, string)> :=
    [("\\\\", "\\"), ("\\n", "\n"), ("\\b", "\U{0008}"), ("\\r", "\r"),
     ("\\\"", "\""), ("\\t", "\t"), ("\\'", "'")]

  function ReplaceEach(s: string, table: seq<(string, string)>): (r: string)
    requires forall k :: 0 <= k < |table| ==> |table[k].0| > 0
    ensures (forall k :: 0 <= k < |table| ==> |table[k].1| <= |table[k].0|) ==> |r| <= |s|
    decreases |table|
  {
    if table == [] then s else ReplaceEach(Replace(s, table[0].0, table[0].1), table[1..])
  }

  /** The decoding as written. */
  function ReplaceEscape(s: string): (r: string)
    ensures |r| <= |s|
  {
    ReplaceEach(s, EscapeTable)
  }

  predicate IsEscapeLetter(c: char)
  {
    c == 'b' || c == 'n' || c == 'r' || c == 't' || c == '\'' || c == '"' || c == '\\'
  }

  /** The character an escape letter stands for. */
  function Unescape(c: char): char
    requires IsEscapeLetter(c)
  {
    match c
    case 'b' => '\U{0008}'
    case 'n' => '\n'
    case 'r' => '\r'
    case 't' => '\t'
    case _ => c
  }

  predicate NeedsEscape(c: char)
  {
    c == '\U{0008}' || c == '\n' || c == '\r' || c == '\t' || c == '\'' || c == '"' || c == '\\'
  }

  /** The escape letter for a character that needs one. */
  function EscapeLetter(c: char): (e: char)
    requires NeedsEscape(c)
    ensures IsEscapeLetter(e) && Unescape(e) == c
  {
    match c
    case '\U{0008}' => 'b'
    case '\n' => 'n'
    case '\r' => 'r'
    case '\t' => 't'
    case _ => c
  }

  /** Left-to-right decoding: a backslash and an escape letter become one
      character; everything else is kept. */
  function DecodeEscapes(s: string): (r: string)
    ensures |r| <= |s|
    decreases |s|
  {
    if s == [] then []
    else if |s| >= 2 && s[0] == '\\' && IsEscapeLetter(s[1]) then [Unescape(s[1])] + DecodeEscapes(s[2..])
    else [s[0]] + DecodeEscapes(s[1..])
  }

  function EncodeEscapes(s: string): (r: string)
    ensures |r| >= |s|
  {
    if s == [] then []
    else if NeedsEscape(s[0]) then ['\\', EscapeLetter(s[0])] + EncodeEscapes(s[1..])
    else [s[0]] + EncodeEscapes(s[1..])
  }

  /** Decoding undoes encoding. */
  lemma {:induction false} DecodeEncode(s: string)
    ensures DecodeEscapes(EncodeEscapes(s)) == s
  {
    if s != [] {
      DecodeEncode(s[1..]);
      var rest := EncodeEscapes(s[1..]);
      if NeedsEscape(s[0]) {
        var e := ['\\', EscapeLetter(s[0])] + rest;
        assert e[2..] == rest;
      } else {
        var e := [s[0]] + rest;
        assert e[1..] == rest;
      }
    }
  }

  /** Text without a backslash decodes to itself, both ways. */
  lemma {:induction false} NoBackslashUnchanged(s: string)
    requires NoBackslash(s)
    ensures DecodeEscapes(s) == s
    ensures ReplaceEscape(s) == s
  {
    if s != [] {
      NoBackslashUnchanged(s[1..]);
    }
    ReplaceEachWithoutBackslash(s, EscapeTable);
  }

  /** The text `\\n` (an escaped backslash, then `n`): the replacements turn
      the escaped backslash into a backslash that then pairs with `n`, giving
      a line feed; decoding from the left gives a backslash and `n`. */
  lemma EscapedBackslashThenN()
    ensures ReplaceEscape("\\\\n") == "\n"
    ensures DecodeEscapes("\\\\n") == "\\n"
  {
    var s := "\\\\n";
    assert s[..2] == "\\\\" && s[2..] == "n";
    assert Replace("n", "\\\\", "\\") == "n";
    assert Replace(s, "\\\\", "\\") == "\\n";
    var s1 := "\\n";
    assert s1[..2] == "\\n" && s1[2..] == [];
    assert Replace(s1, "\\n", "\n") == "\n";
    ReplaceEachWithoutBackslash("\n", EscapeTable[2..]);
    assert EscapeTable[1..][1..] == EscapeTable[2..];
    var d := DecodeEscapes(s);
    assert d == ['\\'] + DecodeEscapes("n");
  }
}
