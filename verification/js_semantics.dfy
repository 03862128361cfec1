/**
 * The few pieces of JavaScript semantics the task list relies on:
 * `String.prototype.trim` (used to reject blank task names) and the
 * truthiness of a `number | null` value (used to decide whether an edit
 * is active).
 */
module JsSemantics {
  import opened Wrappers

  /**
   * The code points `trim` removes: the WhiteSpace and LineTerminator
   * productions of ECMA-262 (TAB, VT, FF, ZWNBSP, every Unicode "Zs"
   * space separator, LF, CR, LINE SEPARATOR and PARAGRAPH SEPARATOR).
   * All of them lie in the Basic Multilingual Plane, so each is a single
   * UTF-16 code unit of a JavaScript string.
   */
  predicate IsWhitespace(c: char)
    ensures IsWhitespace(c) ==> c < '\U{10000}'
  {
    c == '\t' || c == '\U{000B}' || c == '\U{000C}' || c == '\U{FEFF}'
    || c == ' ' || c == '\U{00A0}' || c == '\U{1680}'
    || ('\U{2000}' <= c <= '\U{200A}')
    || c == '\U{202F}' || c == '\U{205F}' || c == '\U{3000}'
    || c == '\n' || c == '\r' || c == '\U{2028}' || c == '\U{2029}'
  }

  /** Drops the leading whitespace: what is left is a suffix of `s`. */
  function TrimStart(s: string): (r: string)
    ensures |r| <= |s| && r == s[|s| - |r|..]
    ensures forall i :: 0 <= i < |s| - |r| ==> IsWhitespace(s[i])
    ensures r != [] ==> !IsWhitespace(r[0])
    decreases |s|
  {
    if s != [] && IsWhitespace(s[0]) then TrimStart(s[1..]) else s
  }

  /** Drops the trailing whitespace: what is left is a prefix of `s`. */
  function TrimEnd(s: string): (r: string)
    ensures |r| <= |s| && r == s[..|r|]
    ensures forall i :: |r| <= i < |s| ==> IsWhitespace(s[i])
    ensures r != [] ==> !IsWhitespace(r[|r| - 1])
    decreases |s|
  {
    if s != [] && IsWhitespace(s[|s| - 1]) then TrimEnd(s[..|s| - 1]) else s
  }

  /**
   * `s.trim()`: a contiguous slice of `s`, obtained by dropping whitespace
   * at both ends, that neither starts nor ends with whitespace.
   */
  function Trim(s: string): (r: string)
    ensures |r| <= |TrimStart(s)| <= |s|
    ensures r == s[|s| - |TrimStart(s)|..|s| - |TrimStart(s)| + |r|]
    ensures forall i :: 0 <= i < |s| - |TrimStart(s)| ==> IsWhitespace(s[i])
    ensures forall i :: |s| - |TrimStart(s)| + |r| <= i < |s| ==> IsWhitespace(s[i])
    ensures r != [] ==> !IsWhitespace(r[0]) && !IsWhitespace(r[|r| - 1])
  {
    TrimEnd(TrimStart(s))
  }

  /**
   * `s.trim() === ''`: the guard that rejects a task name. Dropping the
   * leading whitespace alone already decides it.
   */
  predicate IsBlank(s: string)
    ensures IsBlank(s) <==> TrimStart(s) == []
  {
    Trim(s) == ""
  }

  /** A string is blank exactly when every one of its characters is whitespace. */
  lemma BlankIffAllWhitespace(s: string)
    ensures IsBlank(s) <==> forall i :: 0 <= i < |s| ==> IsWhitespace(s[i])
  {
  }

  /**
   * JavaScript's ToBoolean on a `number | null` holding an integer:
   * `null` and `0` are falsy, every other integer is truthy. It differs
   * from the test `n !== null` exactly at `0`, which is falsy.
   */
  predicate Truthy(n: Option<int>)
    ensures !Truthy(n) <==> n == None || n == Some(0)
    ensures Truthy(n) ==> n.Some?
  {
    n.Some? && n.value != 0
  }
}
