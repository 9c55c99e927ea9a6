/**
 How a cleaned log tail is bounded for the durable record: first to a number of
 lines, then to a number of bytes on a code-point boundary.
 */
module LogBounds {
  import opened Common

  const NEWLINE: byte := 10
  const MAX_LINES: nat := 2000
  const MAX_BYTES: nat := 262144

  // ---------------------------------------------------------------- lines

  predicate LineStart(value: seq<byte>, i: nat) {
    i < |value| && (i == 0 || value[i - 1] == NEWLINE)
  }

  /** How many lines start at or after `from`; a final newline starts none. */
  function Lines(value: seq<byte>, from: nat): nat
    decreases |value| - from
  {
    if from >= |value| then 0 else (if LineStart(value, from) then 1 else 0) + Lines(value, from + 1)
  }

  /** Earlier suffixes hold more lines, and each line start holds one more. */
  lemma {:induction false} LinesGrow(value: seq<byte>, i: nat, j: nat)
    requires i <= j
    ensures Lines(value, i) >= Lines(value, j)
    ensures i < j && LineStart(value, i) ==> Lines(value, i) > Lines(value, j)
    decreases j - i
  {
    if i < j { LinesGrow(value, i + 1, j); }
  }

  /** The suffix from `at` is the longest that starts a line and has at most `maximum` lines. */
  ghost predicate LongestTail(value: seq<byte>, maximum: nat, at: nat) {
    && at <= |value| && (at == |value| || LineStart(value, at)) && Lines(value, at) <= maximum
    && forall i :: 0 <= i < at && LineStart(value, i) ==> Lines(value, i) > maximum
  }

  function AtLeastZero(n: int): nat { if n < 0 then 0 else n }

  method KeepLastLogLines(value: seq<byte>, maximum: int) returns (kept: seq<byte>, truncated: bool)
    ensures |kept| <= |value| && kept == value[|value| - |kept|..]
    ensures LongestTail(value, AtLeastZero(maximum), |value| - |kept|)
    ensures truncated <==> Lines(value, 0) > AtLeastZero(maximum)
  {
    if maximum <= 0 {
      forall i | 0 <= i < |value| && LineStart(value, i) ensures Lines(value, i) > 0 { LinesGrow(value, i, |value|); }
      return [], value != [];
    }
    var lines := 0;
    var end := |value| - 1;
    if end >= 0 && value[end] == NEWLINE { end := end - 1; }
    var index := end;
    while index >= 0
      invariant -1 <= index <= end
      invariant lines == Lines(value, index + 2) && lines < maximum
    {
      if value[index] == NEWLINE {
        lines := lines + 1;
        if lines == maximum {
          LinesGrow(value, 0, index + 1);
          forall i | 0 <= i < index + 1 && LineStart(value, i)
            ensures Lines(value, i) > maximum
          {
            LinesGrow(value, i, index + 1);
          }
          return value[index + 1..], true;
        }
      }
      index := index - 1;
    }
    return value, false;
  }

  // ---------------------------------------------------------------- UTF-8

  /** A byte that does not start a code point. */
  predicate Continuation(b: byte) { 0x80 <= b < 0xC0 }

  /** The length of the code point that starts `v`, or 0 if none does (section 4 of RFC 3629). */
  function CodePoint(v: seq<byte>): (n: nat)
    ensures n <= 4 && n <= |v|
    ensures 0 < n ==> !Continuation(v[0]) && forall i :: 0 < i < n ==> Continuation(v[i])
  {
    if v == [] then 0
    else if v[0] < 0x80 then 1
    else if |v| >= 2 && 0xC2 <= v[0] <= 0xDF && Continuation(v[1]) then 2
    else if |v| >= 3 && Continuation(v[2]) && Second(v[0], v[1]) && 0xE0 <= v[0] <= 0xEF then 3
    else if |v| >= 4 && Continuation(v[2]) && Continuation(v[3]) && Second(v[0], v[1]) && 0xF0 <= v[0] <= 0xF4 then 4
    else 0
  }

  /** The second byte after a three- or four-byte lead: no overlong form, no surrogate,
      nothing above U+10FFFF. */
  predicate Second(lead: byte, b: byte) {
    && Continuation(b)
    && (lead == 0xE0 ==> 0xA0 <= b) && (lead == 0xED ==> b <= 0x9F)
    && (lead == 0xF0 ==> 0x90 <= b) && (lead == 0xF4 ==> b <= 0x8F)
  }

  predicate ValidUtf8(v: seq<byte>)
    decreases |v|
  {
    v == [] || (CodePoint(v) > 0 && ValidUtf8(v[CodePoint(v)..]))
  }

  /** Everything UTF-8 can encode. */
  type Scalar = c: int | 0 <= c < 0x11_0000 && !(0xD800 <= c < 0xE000)

  /** Section 3 of RFC 3629. */
  function Utf8(c: Scalar): seq<byte> {
    if c < 0x80 then [c]
    else if c < 0x800 then [0xC0 + c / 64, 0x80 + c % 64]
    else if c < 0x1_0000 then [0xE0 + c / 4096, 0x80 + c / 64 % 64, 0x80 + c % 64]
    else [0xF0 + c / 0x4_0000, 0x80 + c / 4096 % 64, 0x80 + c / 64 % 64, 0x80 + c % 64]
  }

  function Encoded(text: seq<Scalar>): seq<byte> {
    if text == [] then [] else Utf8(text[0]) + Encoded(text[1..])
  }

  lemma Utf8IsCodePoint(c: Scalar, rest: seq<byte>)
    ensures CodePoint(Utf8(c) + rest) == |Utf8(c)|
  { }

  /** A byte without its mark, as the bits above `low`. */
  function Above(b: byte, mark: int, weight: int, low: int): int { (b as int - mark) * weight + low }

  function Low(b: byte): int { b as int - 0x80 }

  lemma CodePoint2(v: seq<byte>) returns (c: Scalar)
    requires CodePoint(v) == 2
    ensures Utf8(c) == v[..2]
  {
    c := Above(v[0], 0xC0, 64, Low(v[1]));
  }

  lemma CodePoint3(v: seq<byte>) returns (c: Scalar)
    requires CodePoint(v) == 3
    ensures Utf8(c) == v[..3]
  {
    c := Above(v[0], 0xE0, 4096, Above(v[1], 0x80, 64, Low(v[2])));
  }

  lemma CodePoint4(v: seq<byte>) returns (c: Scalar)
    requires CodePoint(v) == 4
    ensures Utf8(c) == v[..4]
  {
    hide Utf8;
    Utf8Of4(v[0] as int - 0xF0, Low(v[1]), Low(v[2]), Low(v[3]));
    c := Above(v[0], 0xF0, 0x4_0000, Above(v[1], 0x80, 4096, Above(v[2], 0x80, 64, Low(v[3]))));
  }

  lemma Utf8Of4(a: int, b: int, c: int, d: int)
    requires 0 <= a <= 4 && (a == 0 ==> 0x10 <= b) && (a == 4 ==> b < 0x10)
    requires 0 <= b < 64 && 0 <= c < 64 && 0 <= d < 64
    ensures var x := a * 0x4_0000 + (b * 4096 + (c * 64 + d));
      0x1_0000 <= x < 0x11_0000 && Utf8(x) == [0xF0 + a, 0x80 + b, 0x80 + c, 0x80 + d]
  {
    var x := a * 0x4_0000 + (b * 4096 + (c * 64 + d));
    assert x / 4096 == a * 64 + b && x / 64 == (a * 64 + b) * 64 + c;
  }

  /** Where a code point starts, it is the encoding of one scalar value. */
  lemma CodePointIsUtf8(v: seq<byte>) returns (c: Scalar)
    requires CodePoint(v) > 0
    ensures Utf8(c) == v[..CodePoint(v)]
  {
    if CodePoint(v) == 1 {
      c := v[0];
    } else if CodePoint(v) == 2 {
      c := CodePoint2(v);
    } else if CodePoint(v) == 3 {
      c := CodePoint3(v);
    } else {
      c := CodePoint4(v);
    }
  }

  /** Valid text is exactly what encoding any sequence of scalar values gives. */
  lemma ValidExactly(v: seq<byte>)
    ensures ValidUtf8(v) <==> exists text :: Encoded(text) == v
  {
    if ValidUtf8(v) { var text := Decoded(v); }
    forall text | Encoded(text) == v ensures ValidUtf8(v) { EncodedIsValid(text); }
  }

  lemma {:induction false} EncodedIsValid(text: seq<Scalar>)
    ensures ValidUtf8(Encoded(text))
    decreases |text|
  {
    if text != [] {
      var first, rest := Utf8(text[0]), Encoded(text[1..]);
      Utf8IsCodePoint(text[0], rest);
      EncodedIsValid(text[1..]);
      assert (first + rest)[|first|..] == rest;
    }
  }

  lemma {:induction false} Decoded(v: seq<byte>) returns (text: seq<Scalar>)
    requires ValidUtf8(v)
    ensures Encoded(text) == v
    decreases |v|
  {
    if v == [] { return []; }
    var c := CodePointIsUtf8(v);
    var rest := Decoded(v[CodePoint(v)..]);
    text := [c] + rest;
    assert text[1..] == rest && v == v[..CodePoint(v)] + v[CodePoint(v)..];
  }

  /** In valid text, the code-point boundaries are exactly the bytes that are no continuation. */
  lemma {:induction false} BoundaryExactly(v: seq<byte>, i: nat)
    requires ValidUtf8(v) && i < |v|
    ensures ValidUtf8(v[i..]) <==> !Continuation(v[i])
    decreases |v|
  {
    var n := CodePoint(v);
    if i == 0 {
      assert v[0..] == v;
    } else if i < n {
      assert v[i..][0] == v[i];
      assert CodePoint(v[i..]) == 0;
    } else if i == n {
      if i < |v| { assert v[n..] != [] && CodePoint(v[n..]) > 0; }
    } else {
      BoundaryExactly(v[n..], i - n);
      assert v[n..][i - n..] == v[i..];
    }
  }

  predicate Boundary(v: seq<byte>, k: nat) { k <= |v| && (k == |v| || !Continuation(v[k])) }

  /** A code point has at most three continuation bytes. */
  lemma {:induction false} BoundaryNear(v: seq<byte>, i: nat)
    requires ValidUtf8(v) && i <= |v|
    ensures exists k :: i <= k <= i + 3 && Boundary(v, k)
    decreases |v|
  {
    var n := if v == [] then 0 else CodePoint(v);
    if i == |v| || !Continuation(v[i]) {
      assert Boundary(v, i);
    } else if i < n {
      assert Boundary(v, n) by {
        if n < |v| { assert v[n..] != [] && CodePoint(v[n..]) > 0 && v[n..][0] == v[n]; }
      }
    } else {
      BoundaryNear(v[n..], i - n);
      var k :| i - n <= k <= i - n + 3 && Boundary(v[n..], k);
      assert Boundary(v, n + k);
    }
  }

  lemma AfterNewline(v: seq<byte>, i: nat)
    requires ValidUtf8(v) && LineStart(v, i)
    ensures ValidUtf8(v[i..])
  {
    if i == 0 {
      assert v[0..] == v;
    } else {
      BoundaryExactly(v, i - 1);
      assert CodePoint(v[i - 1..]) == 1 && v[i - 1..][1..] == v[i..];
    }
  }

  /** The byte cut at the end of SanitizeLogTail. */
  method CutBytes(clean: seq<byte>, limit: nat) returns (kept: seq<byte>, cut: bool)
    ensures |kept| <= limit && |kept| <= |clean| && kept == clean[|clean| - |kept|..]
    ensures cut <==> |clean| > limit
    ensures !cut ==> kept == clean
    ensures ValidUtf8(clean) ==> ValidUtf8(kept) && (cut ==> |kept| + 3 >= limit)
    ensures ValidUtf8(clean) ==>
              forall i :: 0 <= i <= |clean| && |clean| - i <= limit && ValidUtf8(clean[i..]) ==> |clean| - i <= |kept|
  {
    if |clean| <= limit {
      assert clean[0..] == clean;
      return clean, false;
    }
    var start := |clean| - limit;
    while start < |clean| && Continuation(clean[start])
      invariant |clean| - limit <= start <= |clean|
      invariant forall i :: |clean| - limit <= i < start ==> Continuation(clean[i])
    {
      start := start + 1;
    }
    kept, cut := clean[start..], true;
    if ValidUtf8(clean) {
      BoundaryNear(clean, |clean| - limit);
      if start < |clean| { BoundaryExactly(clean, start); }
      forall i | 0 <= i <= |clean| && |clean| - i <= limit && ValidUtf8(clean[i..]) ensures |clean| - i <= |kept| {
        if i < start { BoundaryExactly(clean, i); }
      }
    }
  }

  // ---------------------------------------------------------------- both bounds

  /** Cutting a tail further, even inside a line, never makes it more lines. */
  lemma {:induction false} SuffixHasNoMoreLines(v: seq<byte>, s: nat, i: nat)
    requires s <= |v|
    ensures Lines(v[s..], i) <= Lines(v, s + i) + (if i == 0 && s < |v| && !LineStart(v, s) then 1 else 0)
    decreases |v| - i
  {
    if s + i < |v| { SuffixHasNoMoreLines(v, s, i + 1); }
  }

  lemma CutHasNoMoreLines(v: seq<byte>, s: nat)
    requires s <= |v|
    ensures Lines(v[s..], 0) <= Lines(v, 0)
  {
    SuffixHasNoMoreLines(v, s, 0);
    LinesGrow(v, 0, s);
  }

  /** The end of SanitizeLogTail: what it returns respects both bounds, and it keeps as
      much as they allow. */
  method BoundTail(clean: seq<byte>) returns (tail: seq<byte>, truncated: bool)
    ensures |tail| <= |clean| && tail == clean[|clean| - |tail|..]
    ensures Lines(tail, 0) <= MAX_LINES && |tail| <= MAX_BYTES
    ensures ValidUtf8(clean) ==> ValidUtf8(tail)
    ensures truncated <==> tail != clean
    ensures Lines(clean, 0) <= MAX_LINES && |clean| <= MAX_BYTES ==> tail == clean && !truncated
    ensures forall at: nat :: LongestTail(clean, MAX_LINES, at) ==> KeepsAll(clean[at..], tail)
  {
    var kept, cutLines := KeepLastLogLines(clean, MAX_LINES);
    var cutBytes;
    tail, cutBytes := CutBytes(kept, MAX_BYTES);
    truncated := cutLines || cutBytes;
    var at := |clean| - |kept|;
    SuffixHasNoMoreLines(clean, at, 0);
    CutHasNoMoreLines(kept, |kept| - |tail|);
    if ValidUtf8(clean) && at < |clean| { AfterNewline(clean, at); }
    if Lines(clean, 0) <= MAX_LINES { WholeIsLongest(clean, MAX_LINES, at); }
    forall other: nat | LongestTail(clean, MAX_LINES, other) ensures KeepsAll(clean[other..], tail) {
      LongestIsUnique(clean, MAX_LINES, at, other);
    }
  }

  /** `tail` is all of the kept lines if they fit; otherwise, for valid text, their longest
      valid suffix that fits, at most three bytes short. */
  predicate KeepsAll(kept: seq<byte>, tail: seq<byte>) {
    && (|kept| <= MAX_BYTES ==> tail == kept)
    && (|kept| > MAX_BYTES && ValidUtf8(kept) ==> |tail| + 3 >= MAX_BYTES && LongestValid(kept, tail))
  }

  predicate LongestValid(kept: seq<byte>, tail: seq<byte>) {
    && |tail| <= |kept| && tail == kept[|kept| - |tail|..] && ValidUtf8(tail)
    && forall i :: 0 <= i <= |kept| && |kept| - i <= MAX_BYTES && ValidUtf8(kept[i..]) ==> |kept| - i <= |tail|
  }

  lemma LongestIsUnique(value: seq<byte>, maximum: nat, a: nat, b: nat)
    requires LongestTail(value, maximum, a) && LongestTail(value, maximum, b) && 0 < maximum
    ensures a == b
  {
    if a < b { OneLineLeft(value, maximum, a, b); }
    if b < a { OneLineLeft(value, maximum, b, a); }
  }

  /** A longest tail never starts after another line start with few enough lines. */
  lemma OneLineLeft(value: seq<byte>, maximum: nat, a: nat, b: nat)
    requires LongestTail(value, maximum, a) && a < b <= |value|
    ensures !LongestTail(value, maximum, b)
  {
    assert LineStart(value, a);
  }

  lemma WholeIsLongest(value: seq<byte>, maximum: nat, at: nat)
    requires LongestTail(value, maximum, at) && Lines(value, 0) <= maximum
    ensures at == 0
  {
    assert value != [] ==> LineStart(value, 0);
  }
}
