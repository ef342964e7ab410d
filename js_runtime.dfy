/** The small part of JavaScript's runtime that the passport code relies on:
    values held in form state and JSON, truthiness, and the string and number
    built-ins used by the scorer, the route builder and the report writer. */
module JsRuntime {
  import opened Wrappers

  /** A value held under a key of the form state or of the submitted JSON.
      The form's own inputs store strings and the wizard stores the transport
      sub-score as a number; JSON booleans, fractions, `null`, arrays and
      objects, which a mill's sustainability data could also copy into the
      form, are not represented. */
  datatype Value = Str(s: string) | Num(n: int)

  /** JavaScript truthiness: the empty string and zero are falsy. */
  predicate Truthy(v: Value) {
    match v
    case Str(s) => s != ""
    case Num(n) => n != 0
  }

  /** `obj[key]` is truthy: an absent key reads as `undefined`, which is falsy. */
  predicate Present(a: Option<Value>) {
    a.Some? && Truthy(a.value)
  }

  /** `obj[key]`, with `undefined` as `None`. */
  function Get(m: map<string, Value>, key: string): (r: Option<Value>)
    ensures r.Some? <==> key in m
    ensures r.Some? ==> r.value == m[key]
  {
    if key in m then Some(m[key]) else None
  }

  /** `Math.min` on integers. */
  function Min(a: int, b: int): (r: int)
    ensures r <= a && r <= b
    ensures r == a || r == b
  {
    if a <= b then a else b
  }

  /** `Math.round`: the nearest integer, halves rounded up. */
  function MathRound(x: real): (r: int)
    ensures x - 0.5 < r as real <= x + 0.5
  {
    (x + 0.5).Floor
  }

  // ---------------------------------------------------------------------------
  // Strings

  /** Lower-casing of one character (ASCII letters only). */
  function LowerChar(c: char): char {
    if 'A' <= c <= 'Z' then (c as int + 32) as char else c
  }

  /** `String.prototype.toLowerCase`, on ASCII letters. */
  function ToLower(s: string): (r: string)
    ensures |r| == |s|
  {
    if s == [] then [] else [LowerChar(s[0])] + ToLower(s[1..])
  }

  /** Lower-casing works character by character. */
  lemma {:induction false} ToLowerAt(s: string)
    ensures forall i :: 0 <= i < |s| ==> ToLower(s)[i] == LowerChar(s[i])
  {
    if s != [] {
      ToLowerAt(s[1..]);
      assert forall i :: 1 <= i < |s| ==> ToLower(s)[i] == ToLower(s[1..])[i - 1];
    }
  }

  lemma ToLowerIdempotent(s: string)
    ensures ToLower(ToLower(s)) == ToLower(s)
  {
    var once := ToLower(s);
    ToLowerAt(s);
    ToLowerAt(once);
    assert forall i :: 0 <= i < |s| ==> ToLower(once)[i] == LowerChar(once[i]) == once[i];
  }

  /** The white-space characters `trim` removes (the ASCII ones). */
  predicate IsSpace(c: char) {
    c == ' ' || c == '\t' || c == '\n' || c == '\r' || c == '\U{000B}' || c == '\U{000C}'
  }

  /** Drops leading white space. */
  function TrimStart(s: string): (r: string)
    ensures |r| <= |s|
  {
    if s != [] && IsSpace(s[0]) then TrimStart(s[1..]) else s
  }

  /** `TrimStart` keeps a suffix that does not start with white space, and
      drops only white space. */
  lemma {:induction false} TrimStartShape(s: string)
    ensures TrimStart(s) == s[|s| - |TrimStart(s)|..]
    ensures TrimStart(s) != [] ==> !IsSpace(TrimStart(s)[0])
    ensures forall k :: 0 <= k < |s| - |TrimStart(s)| ==> IsSpace(s[k])
  {
    if s != [] && IsSpace(s[0]) {
      TrimStartShape(s[1..]);
      assert s[1..][|s| - 1 - |TrimStart(s)|..] == s[|s| - |TrimStart(s)|..];
      assert forall k :: 1 <= k < |s| - |TrimStart(s)| ==> s[k] == s[1..][k - 1];
    }
  }

  /** Drops trailing white space. */
  function TrimEnd(s: string): (r: string)
    ensures |r| <= |s|
  {
    if s != [] && IsSpace(s[|s| - 1]) then TrimEnd(s[..|s| - 1]) else s
  }

  /** `TrimEnd` keeps a prefix that does not end with white space, and drops
      only white space. */
  lemma {:induction false} TrimEndShape(s: string)
    ensures TrimEnd(s) == s[..|TrimEnd(s)|]
    ensures TrimEnd(s) != [] ==> !IsSpace(TrimEnd(s)[|TrimEnd(s)| - 1])
    ensures forall k :: |TrimEnd(s)| <= k < |s| ==> IsSpace(s[k])
  {
    if s != [] && IsSpace(s[|s| - 1]) {
      TrimEndShape(s[..|s| - 1]);
      assert s[..|s| - 1][..|TrimEnd(s)|] == s[..|TrimEnd(s)|];
    }
  }

  /** `String.prototype.trim`. */
  function Trim(s: string): (r: string)
    ensures |r| <= |s|
  {
    TrimEnd(TrimStart(s))
  }

  /** A trimmed string neither starts nor ends with white space, and is a
      substring of the original with only white space around it. */
  lemma TrimShape(s: string)
    ensures Trim(s) != [] ==> !IsSpace(Trim(s)[0]) && !IsSpace(Trim(s)[|Trim(s)| - 1])
    ensures exists i :: OccursAt(s, Trim(s), i)
  {
    var t := TrimStart(s);
    TrimStartShape(s);
    TrimEndShape(t);
    var lead := |s| - |t|;
    assert s[lead..lead + |Trim(s)|] == t[..|Trim(s)|];
    assert OccursAt(s, Trim(s), lead);
  }

  predicate StartsWith(s: string, t: string) {
    |t| <= |s| && s[..|t|] == t
  }

  /** `String.prototype.includes`, scanning from the left. */
  predicate Includes(s: string, t: string)
    decreases |s|
  {
    StartsWith(s, t) || (s != [] && Includes(s[1..], t))
  }

  /** `t` occurs in `s` starting at position `i`. */
  predicate OccursAt(s: string, t: string, i: int) {
    0 <= i && i + |t| <= |s| && s[i..i + |t|] == t
  }

  /** `Includes` finds exactly the occurrences of `t` at some position of `s`. */
  lemma {:induction false} IncludesAt(s: string, t: string)
    ensures Includes(s, t) <==> exists i :: OccursAt(s, t, i)
  {
    if StartsWith(s, t) {
      assert OccursAt(s, t, 0);
    } else if s == [] {
    } else {
      IncludesAt(s[1..], t);
      if Includes(s[1..], t) {
        var i :| OccursAt(s[1..], t, i);
        OccursShift(s, t, i);
      }
      if i :| OccursAt(s, t, i) {
        assert i != 0;
        OccursShift(s, t, i - 1);
      }
    }
  }

  /** The first position where `t` occurs in `s`, if any (`indexOf`). */
  function IndexOf(s: string, t: string): (r: Option<nat>)
    decreases |s|
    ensures r.Some? ==> r.value + |t| <= |s|
  {
    if StartsWith(s, t) then Some(0)
    else if s == [] then None
    else match IndexOf(s[1..], t)
      case Some(i) => Some(i + 1)
      case None => None
  }

  /** `IndexOf` finds an occurrence exactly when there is one, and the one it
      finds is the first. */
  lemma {:induction false} IndexOfFinds(s: string, t: string)
    decreases |s|
    ensures IndexOf(s, t).Some? ==> OccursAt(s, t, IndexOf(s, t).value)
    ensures IndexOf(s, t).None? <==> !Includes(s, t)
    ensures IndexOf(s, t).Some? ==> forall j :: 0 <= j < IndexOf(s, t).value ==> !OccursAt(s, t, j)
  {
    if !StartsWith(s, t) && s != [] {
      IndexOfFinds(s[1..], t);
      var r := IndexOf(s[1..], t);
      if r.Some? {
        OccursShift(s, t, r.value);
        forall j | 0 <= j < r.value + 1
          ensures !OccursAt(s, t, j)
        {
          if j > 0 {
            OccursShift(s, t, j - 1);
          }
        }
      }
    }
  }

  /** `t` occurs at `i + 1` in `s` exactly when it occurs at `i` in `s[1..]`. */
  lemma OccursShift(s: string, t: string, i: nat)
    requires s != []
    ensures OccursAt(s, t, i + 1) <==> OccursAt(s[1..], t, i)
  {
    if i + 1 + |t| <= |s| {
      assert s[i + 1..i + 1 + |t|] == s[1..][i..i + |t|];
    }
  }

  /** `s.split(sep).pop()`: what follows the last separator, or all of `s` when
      there is none. */
  function LastSegment(s: string, sep: string): (r: string)
    requires sep != []
    decreases |s|
    ensures |r| <= |s|
  {
    match IndexOf(s, sep)
    case None => s
    case Some(i) => LastSegment(s[i + |sep|..], sep)
  }

  /** The last segment is a suffix holding no separator, and is all of `s`
      when `s` holds none. */
  lemma {:induction false} LastSegmentShape(s: string, sep: string)
    requires sep != []
    decreases |s|
    ensures LastSegment(s, sep) == s[|s| - |LastSegment(s, sep)|..]
    ensures !Includes(LastSegment(s, sep), sep)
    ensures !Includes(s, sep) ==> LastSegment(s, sep) == s
  {
    var found := IndexOf(s, sep);
    IndexOfFinds(s, sep);
    if found.None? {
      assert s[0..] == s;
    } else {
      var k := found.value + |sep|;
      var rest := s[k..];
      LastSegmentShape(rest, sep);
      SuffixOfSuffix(s, k, LastSegment(rest, sep));
    }
  }

  /** A suffix of a suffix of `s` is a suffix of `s`. */
  lemma SuffixOfSuffix(s: string, k: nat, r: string)
    requires k <= |s| && |r| <= |s| - k
    requires r == s[k..][|s| - k - |r|..]
    ensures r == s[|s| - |r|..]
  {
  }

  // ---------------------------------------------------------------------------
  // Numbers as text

  function DigitChar(d: nat): char
    requires d < 10
  {
    ('0' as int + d) as char
  }

  predicate AllDigits(s: string) {
    forall i :: 0 <= i < |s| ==> '0' <= s[i] <= '9'
  }

  /** Decimal digits of a natural number, most significant first. */
  function NatToString(n: nat): (r: string)
    decreases n
    ensures r != [] && AllDigits(r)
  {
    if n < 10 then [DigitChar(n)] else NatToString(n / 10) + [DigitChar(n % 10)]
  }

  /** The number a string of decimal digits denotes. */
  function DigitsValue(s: string): nat
    requires AllDigits(s)
  {
    if s == [] then 0 else DigitsValue(s[..|s| - 1]) * 10 + (s[|s| - 1] as int - '0' as int)
  }

  /** Reading the digits back gives the number. */
  lemma {:induction false} NatToStringRoundTrip(n: nat)
    ensures DigitsValue(NatToString(n)) == n
  {
    if n >= 10 {
      NatToStringRoundTrip(n / 10);
      var s := NatToString(n);
      assert s[..|s| - 1] == NatToString(n / 10);
    }
  }

  /** `String(n)` for an integer. */
  function IntToString(n: int): (r: string)
    ensures r != []
  {
    if n < 0 then "-" + NatToString(-n) else NatToString(n)
  }

  /** `String(value)`. */
  function JsString(v: Value): (r: string)
    ensures v.Str? ==> r == v.s
    ensures v.Num? ==> r != []
  {
    match v
    case Str(s) => s
    case Num(n) => IntToString(n)
  }
}
