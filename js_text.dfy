/** The parts of JavaScript's string and number semantics that the
    application's code relies on, written out so that the other modules can
    state their behaviour exactly. */
module JsText {
  import opened Wrappers

  /** A thrown JavaScript value: an `Error` carrying its `message`, or any
      other value (the application's `catch` blocks test `instanceof Error`
      and treat the two differently). */
  datatype Thrown = Error(message: string) | NonError

  /** `value || fallback` for a string that may be missing: a missing or
      empty string is falsy and gives way to the fallback. */
  function OrElse(value: Option<string>, fallback: string): (r: string)
    ensures r == fallback || (value.Some? && r == value.value && r != "")
  {
    if value.Some? && value.value != "" then value.value else fallback
  }

  /** White space and line terminators as ECMA-262 defines them
      (sections 12.2 and 12.3): the characters the regular-expression class
      `\s` matches and `String.prototype.trim` removes. */
  predicate IsWhitespace(c: char) {
    ('\t' <= c <= '\r') || c == ' ' || c == '\U{00A0}' || c == '\U{1680}'
    || ('\U{2000}' <= c <= '\U{200A}') || c == '\U{2028}' || c == '\U{2029}'
    || c == '\U{202F}' || c == '\U{205F}' || c == '\U{3000}' || c == '\U{FEFF}'
  }

  predicate IsAsciiUpper(c: char) { 'A' <= c <= 'Z' }

  predicate IsAsciiLower(c: char) { 'a' <= c <= 'z' }

  function LowerChar(c: char): char {
    if IsAsciiUpper(c) then (c as int + 32) as char else c
  }

  function UpperChar(c: char): char {
    if IsAsciiLower(c) then (c as int - 32) as char else c
  }

  /** `toLowerCase`, restricted to the ASCII letters. */
  function ToLower(s: string): string {
    seq(|s|, i requires 0 <= i < |s| => LowerChar(s[i]))
  }

  /** `toUpperCase`, restricted to the ASCII letters. */
  function ToUpper(s: string): string {
    seq(|s|, i requires 0 <= i < |s| => UpperChar(s[i]))
  }

  lemma ToLowerLeavesNoUpper(s: string)
    ensures forall i :: 0 <= i < |ToLower(s)| ==> !IsAsciiUpper(ToLower(s)[i])
  {
  }

  lemma ToLowerIdempotent(s: string)
    ensures ToLower(ToLower(s)) == ToLower(s)
  {
  }

  /** Lower-casing works character by character, so it distributes over
      concatenation. */
  lemma ToLowerConcat(x: string, y: string)
    ensures ToLower(x + y) == ToLower(x) + ToLower(y)
  {
  }

  /** `s.replace(/\s+/g, '')`: every white-space character deleted, the
      others kept in order. */
  function RemoveWhitespace(s: string): (r: string)
    ensures |r| <= |s|
    ensures forall k :: 0 <= k < |r| ==> !IsWhitespace(r[k])
  {
    if s == [] then []
    else (if IsWhitespace(s[0]) then [] else [s[0]]) + RemoveWhitespace(s[1..])
  }

  lemma {:induction false} RemoveWhitespaceKeepsClean(s: string)
    requires forall k :: 0 <= k < |s| ==> !IsWhitespace(s[k])
    ensures RemoveWhitespace(s) == s
  {
    if s != [] {
      RemoveWhitespaceKeepsClean(s[1..]);
    }
  }

  lemma {:induction false} RemoveWhitespaceConcat(a: string, b: string)
    ensures RemoveWhitespace(a + b) == RemoveWhitespace(a) + RemoveWhitespace(b)
  {
    if a == [] {
      assert a + b == b;
    } else {
      assert (a + b)[1..] == a[1..] + b;
      RemoveWhitespaceConcat(a[1..], b);
    }
  }

  /** Where `trim`'s scan from the front, starting at `i`, stops: the first
      position at or after `i` that is not white space. */
  function TrimStart(s: string, i: nat): (j: nat)
    requires i <= |s|
    ensures i <= j <= |s|
    ensures forall k :: i <= k < j ==> IsWhitespace(s[k])
    ensures j < |s| ==> !IsWhitespace(s[j])
    decreases |s| - i
  {
    if i < |s| && IsWhitespace(s[i]) then TrimStart(s, i + 1) else i
  }

  /** Where `trim`'s scan from the back, starting at `j`, stops: it never
      passes `lo`, and otherwise stops after the last character that is not
      white space. */
  function TrimEnd(s: string, lo: nat, j: nat): (e: nat)
    requires lo <= j <= |s|
    ensures lo <= e <= j
    ensures forall k :: e <= k < j ==> IsWhitespace(s[k])
    ensures e > lo ==> !IsWhitespace(s[e - 1])
    decreases j
  {
    if j > lo && IsWhitespace(s[j - 1]) then TrimEnd(s, lo, j - 1) else j
  }

  /** `String.prototype.trim`. */
  function Trim(s: string): string {
    var n := TrimStart(s, 0);
    s[n..TrimEnd(s, n, |s|)]
  }

  /** What `trim` promises: the result is the slice of `s` left after
      removing white space, and only white space, from both ends, and it
      neither starts nor ends with white space. */
  lemma TrimSlice(s: string)
    ensures var n, r := TrimStart(s, 0), Trim(s);
      n + |r| <= |s| && r == s[n..n + |r|]
      && (forall k :: 0 <= k < n ==> IsWhitespace(s[k]))
      && (forall k :: n + |r| <= k < |s| ==> IsWhitespace(s[k]))
      && (r != [] ==> !IsWhitespace(r[0]) && !IsWhitespace(r[|r| - 1]))
  {
    var n := TrimStart(s, 0);
    var e := TrimEnd(s, n, |s|);
    var r := s[n..e];
    if r != [] {
      assert r[0] == s[n] && r[|r| - 1] == s[e - 1];
    }
  }

  /** `trim` leaves nothing exactly when the string is all white space. */
  lemma TrimEmptyIff(s: string)
    ensures Trim(s) == [] <==> forall k :: 0 <= k < |s| ==> IsWhitespace(s[k])
  {
    TrimSlice(s);
  }

  lemma TrimIdempotent(s: string)
    ensures Trim(Trim(s)) == Trim(s)
  {
    var r := Trim(s);
    TrimSlice(s);
    if r != [] {
      assert TrimStart(r, 0) == 0;
      assert TrimEnd(r, 0, |r|) == |r|;
      assert r[0..|r|] == r;
    }
  }

  /** `parts.join(sep)`. */
  function Join(parts: seq<string>, sep: string): string {
    if |parts| == 0 then ""
    else if |parts| == 1 then parts[0]
    else parts[0] + sep + Join(parts[1..], sep)
  }

  function TotalLength(parts: seq<string>): nat {
    if parts == [] then 0 else |parts[0]| + TotalLength(parts[1..])
  }

  /** A join is as long as its parts and one separator between each
      neighbouring pair. */
  lemma {:induction false} JoinLength(parts: seq<string>, sep: string)
    requires |parts| > 0
    ensures |Join(parts, sep)| == TotalLength(parts) + (|parts| - 1) * |sep|
  {
    if |parts| > 1 {
      JoinLength(parts[1..], sep);
    }
  }

  /** Joining one more part appends a separator and that part, so a join
      holds its parts in order with one separator between each neighbouring
      pair. */
  lemma {:induction false} JoinAppend(parts: seq<string>, p: string, sep: string)
    requires |parts| > 0
    ensures Join(parts + [p], sep) == Join(parts, sep) + sep + p
  {
    if |parts| > 1 {
      assert (parts + [p])[1..] == parts[1..] + [p];
      JoinAppend(parts[1..], p, sep);
    } else {
      assert parts + [p] == [parts[0], p];
      assert [parts[0], p][1..] == [p];
    }
  }

  /** Number of UTF-16 code units, which is what a JavaScript string's
      `length` counts: characters outside the Basic Multilingual Plane take two. */
  function Utf16Length(s: string): (n: nat)
    ensures |s| <= n <= 2 * |s|
  {
    if s == [] then 0 else (if s[0] as int >= 0x1_0000 then 2 else 1) + Utf16Length(s[1..])
  }

  predicate IsDigit(c: char) { '0' <= c <= '9' }

  predicate AllDigits(s: string) { forall k :: 0 <= k < |s| ==> IsDigit(s[k]) }

  function DigitChar(d: nat): char
    requires d < 10
  {
    ('0' as int + d) as char
  }

  /** Decimal rendering of a non-negative integer, as template literals
      and `String(n)` produce it. */
  function NatToString(n: nat): (r: string)
    ensures |r| >= 1 && AllDigits(r)
    ensures r[0] == '0' ==> n == 0
    decreases n
  {
    if n < 10 then [DigitChar(n)] else NatToString(n / 10) + [DigitChar(n % 10)]
  }

  /** Decimal rendering of an integer, with a leading minus sign when negative. */
  function IntToString(i: int): string {
    if i < 0 then "-" + NatToString(-i) else NatToString(i)
  }

  /** The value of a string of decimal digits. */
  function DigitsValue(s: string): nat
    requires AllDigits(s)
  {
    if s == [] then 0 else DigitsValue(s[..|s| - 1]) * 10 + (s[|s| - 1] as int - '0' as int)
  }

  /** A reader for what `IntToString` writes: an optional minus sign and
      at least one digit. */
  function ParseInt(s: string): Option<int> {
    if |s| >= 2 && s[0] == '-' && AllDigits(s[1..]) then Some(-(DigitsValue(s[1..]) as int))
    else if |s| >= 1 && AllDigits(s) then Some(DigitsValue(s))
    else None
  }

  lemma {:induction false} NatToStringValue(n: nat)
    ensures DigitsValue(NatToString(n)) == n
    decreases n
  {
    var r := NatToString(n);
    if n >= 10 {
      NatToStringValue(n / 10);
      assert r[..|r| - 1] == NatToString(n / 10);
    }
  }

  /** Integers are printed so that they can be read back unchanged. */
  lemma IntToStringRoundTrip(i: int)
    ensures ParseInt(IntToString(i)) == Some(i)
  {
    if i < 0 {
      var d := NatToString(-i);
      NatToStringValue(-i);
      assert IntToString(i)[1..] == d;
    } else {
      NatToStringValue(i);
    }
  }

  /** Rendered integers never contain anything but a sign and digits, so they
      cannot be mistaken for a delimiter inside a URL or a message. */
  lemma IntToStringChars(i: int)
    ensures |IntToString(i)| >= 1
    ensures forall k :: 0 <= k < |IntToString(i)| ==> IsDigit(IntToString(i)[k]) || IntToString(i)[k] == '-'
  {
  }

  /** Reading a property of an object literal with distinct keys, its own
      properties written as a list of key-value entries: the value of the
      entry with the key, or `None` (`undefined`) when no entry has it. The
      literals read here never repeat a key, so which of two entries with
      one key would win does not arise. */
  function Property<V>(entries: seq<(string, V)>, key: string): (r: Option<V>)
    ensures r.None? <==> forall i :: 0 <= i < |entries| ==> entries[i].0 != key
    ensures r.Some? ==> exists i :: 0 <= i < |entries| && entries[i] == (key, r.value)
  {
    if entries == [] then None
    else if entries[0].0 == key then Some(entries[0].1)
    else Property(entries[1..], key)
  }

  /** In an object literal with distinct keys, every entry is what its key
      reads. */
  lemma PropertyOfDistinctKey<V>(entries: seq<(string, V)>, i: nat)
    requires i < |entries|
    requires forall p, q :: 0 <= p < q < |entries| ==> entries[p].0 != entries[q].0
    ensures Property(entries, entries[i].0) == Some(entries[i].1)
  {
    var r := Property(entries, entries[i].0);
    var k :| 0 <= k < |entries| && entries[k] == (entries[i].0, r.value);
    assert k == i;
  }
}
