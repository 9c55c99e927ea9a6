/**
 The generated start program that patches one line in each of a list of hash-pinned
 SGLang sources: read and check everything, check the GPU, write everything, verify
 everything, and only then start the server. A write replaces a whole file in one
 step, and the container may die between any two of them. Equal digests mean equal
 contents.
 */
module SglangPatch {
  import opened Common

  type Bytes = seq<bv8>

  /** What the patched kernel tile asks of the GPU, in bytes per block. */
  const SHARED_MEMORY := 100352

  const NEWLINE: bv8 := 10
  const RETURN: bv8 := 13

  datatype Spec = Spec(path: string, oldLine: Bytes, newLine: Bytes, original: Bytes, patched: Bytes)

  datatype Outcome = Refused | Stopped | Exec(argv: seq<string>)

  // ---------------------------------------------------------------- text

  /** Where the first line ends, and where the next one starts. */
  function LineEnd(data: Bytes): (end: nat)
    ensures end <= |data|
    ensures forall i :: 0 <= i < end ==> data[i] != NEWLINE && data[i] != RETURN
    ensures end < |data| ==> data[end] == NEWLINE || data[end] == RETURN
  {
    if data == [] || data[0] == NEWLINE || data[0] == RETURN then 0 else 1 + LineEnd(data[1..])
  }

  function NextLine(data: Bytes): (next: nat)
    requires data != []
    ensures 0 < next <= |data|
  {
    var end := LineEnd(data);
    if end == |data| then end
    else if data[end] == RETURN && end + 1 < |data| && data[end + 1] == NEWLINE then end + 2
    else end + 1
  }

  /** value.splitlines().count(line) */
  function LineCount(data: Bytes, line: Bytes): nat
    decreases |data|
  {
    if data == [] then 0
    else (if data[..LineEnd(data)] == line then 1 else 0) + LineCount(data[NextLine(data)..], line)
  }

  predicate OccursAt(data: Bytes, pattern: Bytes, at: nat) {
    at + |pattern| <= |data| && data[at..at + |pattern|] == pattern
  }

  function Find(data: Bytes, pattern: Bytes, from: nat): (at: Option<nat>)
    requires from <= |data|
    ensures at.Some? ==> from <= at.value && OccursAt(data, pattern, at.value)
    ensures at.Some? ==> forall i :: from <= i < at.value ==> !OccursAt(data, pattern, i)
    ensures at.None? ==> forall i :: from <= i <= |data| ==> !OccursAt(data, pattern, i)
    decreases |data| - from
  {
    if OccursAt(data, pattern, from) then Some(from)
    else if from == |data| then None
    else Find(data, pattern, from + 1)
  }

  /** data.replace(old, new, 1) */
  function ReplaceFirst(data: Bytes, original: Bytes, replacement: Bytes): Bytes {
    var at := Find(data, original, 0);
    if at.None? then data else data[..at.value] + replacement + data[at.value + |original|..]
  }

  /** replace changes exactly the first occurrence, and nothing if there is none. */
  lemma ReplaceFirstExactly(data: Bytes, original: Bytes, replacement: Bytes, at: nat)
    ensures (forall i :: 0 <= i <= |data| ==> !OccursAt(data, original, i)) ==>
              ReplaceFirst(data, original, replacement) == data
    ensures OccursAt(data, original, at) && (forall i :: 0 <= i < at ==> !OccursAt(data, original, i)) ==>
              ReplaceFirst(data, original, replacement) == data[..at] + replacement + data[at + |original|..]
  { }

  // ---------------------------------------------------------------- lines

  predicate Break(b: bv8) { b == NEWLINE || b == RETURN }

  /** Text without a line break. */
  predicate Unbroken(line: Bytes) { forall i :: 0 <= i < |line| ==> !Break(line[i]) }

  /** Whole lines: nothing, or text that ends in a line break. */
  predicate Whole(text: Bytes) { text == [] || Break(text[|text| - 1]) }

  /** What follows a line: nothing, or a line break and more. */
  predicate Rest(text: Bytes) { text == [] || Break(text[0]) }

  lemma {:induction false} LineEndIs(data: Bytes, end: nat)
    requires end <= |data| && (end < |data| ==> Break(data[end]))
    requires forall i :: 0 <= i < end ==> !Break(data[i])
    ensures LineEnd(data) == end
    decreases end
  {
    if end > 0 {
      LineEndIs(data[1..], end - 1);
    }
  }

  /** What is appended to whole lines does not move their first line. */
  lemma FirstLineKept(a: Bytes, text: Bytes)
    requires Whole(a) && a != [] && (text != [] ==> text[0] != NEWLINE || a[|a| - 1] != RETURN)
    ensures LineEnd(a + text) == LineEnd(a) < |a| && NextLine(a + text) == NextLine(a)
    ensures Whole(a[NextLine(a)..])
    ensures a[NextLine(a)..] != [] ==> a[NextLine(a)..][|a| - NextLine(a) - 1] == a[|a| - 1]
  {
    LineEndIs(a + text, LineEnd(a));
  }

  /** Lines before an unbroken start count on their own. */
  lemma {:induction false} CountAfterWhole(a: Bytes, text: Bytes, line: Bytes)
    requires Whole(a) && (text != [] ==> text[0] != NEWLINE || a == [] || a[|a| - 1] != RETURN)
    ensures LineCount(a + text, line) == LineCount(a, line) + LineCount(text, line)
    decreases |a|
  {
    hide LineEnd, NextLine, Whole;
    if a == [] {
      assert a + text == text;
    } else {
      FirstLineKept(a, text);
      var end, next := LineEnd(a), NextLine(a);
      assert (a + text)[..end] == a[..end] && (a + text)[next..] == a[next..] + text;
      CountAfterWhole(a[next..], text, line);
    }
  }

  /** One unbroken line counts once, and what follows it on its own. */
  lemma CountOneLine(own: Bytes, b: Bytes, line: Bytes)
    requires own != [] && Unbroken(own) && Rest(b)
    ensures LineCount(own + b, line) == (if own == line then 1 else 0) + LineCount(AfterBreak(b), line)
  {
    LineEndIs(own + b, |own|);
    assert (own + b)[..|own|] == own;
    assert (own + b)[NextLine(own + b)..] == AfterBreak(b);
  }

  function AfterBreak(b: Bytes): Bytes
    requires Rest(b)
  {
    if b == [] then [] else if b[0] == RETURN && 1 < |b| && b[1] == NEWLINE then b[2..] else b[1..]
  }

  /** A text is counted line by line. */
  lemma CountAround(a: Bytes, own: Bytes, b: Bytes, line: Bytes)
    requires Whole(a) && own != [] && Unbroken(own) && Rest(b)
    ensures LineCount(a + own + b, line) ==
            LineCount(a, line) + (if own == line then 1 else 0) + LineCount(AfterBreak(b), line)
  {
    assert a + own + b == a + (own + b);
    CountAfterWhole(a, own + b, line);
    CountOneLine(own, b, line);
  }

  // ---------------------------------------------------------------- one source

  predicate IsOriginal(spec: Spec, data: Bytes) {
    data == spec.original && LineCount(data, spec.oldLine) == 1 && LineCount(data, spec.newLine) == 0
  }

  predicate IsPatched(spec: Spec, data: Bytes) {
    data == spec.patched && LineCount(data, spec.newLine) == 1 && LineCount(data, spec.oldLine) == 0
  }

  function Candidate(spec: Spec, data: Bytes): Bytes {
    if IsOriginal(spec, data) then ReplaceFirst(data, spec.oldLine, spec.newLine) else data
  }

  predicate Ready(spec: Spec, data: Bytes) {
    (IsOriginal(spec, data) || IsPatched(spec, data)) && IsPatched(spec, Candidate(spec, data))
  }

  /** A patched source is its own candidate, so patching is a fixed point. */
  lemma PatchedIsFixed(spec: Spec, data: Bytes)
    requires IsPatched(spec, data)
    ensures Ready(spec, data) && Candidate(spec, data) == data
  { }

  /** The original and patched texts differ in one line, old and new, between the same
      lines before and after it. */
  predicate OneLinePatch(spec: Spec, a: Bytes, b: Bytes) {
    && Whole(a) && Rest(b)
    && spec.oldLine != [] && Unbroken(spec.oldLine) && spec.newLine != [] && Unbroken(spec.newLine)
    && spec.original == a + spec.oldLine + b && spec.patched == a + spec.newLine + b
  }

  lemma OnePatchCounts(spec: Spec, a: Bytes, b: Bytes)
    requires OneLinePatch(spec, a, b) && IsOriginal(spec, spec.original)
    ensures IsPatched(spec, spec.patched)
  {
    CountAround(a, spec.oldLine, b, spec.oldLine);
    CountAround(a, spec.oldLine, b, spec.newLine);
    CountAround(a, spec.newLine, b, spec.oldLine);
    CountAround(a, spec.newLine, b, spec.newLine);
  }

  /** An occurrence of the old line inside an earlier line. */
  predicate OccursBefore(spec: Spec, a: Bytes) {
    exists i :: 0 <= i < |a| && OccursAt(spec.original, spec.oldLine, i)
  }

  /** The first occurrence is the line itself: replacing it gives the patched text. */
  lemma ReplacesTheLine(spec: Spec, a: Bytes, b: Bytes)
    requires OneLinePatch(spec, a, b) && !OccursBefore(spec, a)
    ensures ReplaceFirst(spec.original, spec.oldLine, spec.newLine) == spec.patched
  {
    assert OccursAt(spec.original, spec.oldLine, |a|);
    ReplaceFirstExactly(spec.original, spec.oldLine, spec.newLine, |a|);
    assert spec.original[..|a|] == a && spec.original[|a| + |spec.oldLine|..] == b;
  }

  /** After a line break, different last lines make different texts. */
  lemma LastLineTells(x: Bytes, was: Bytes, a: Bytes, now: Bytes, b: Bytes)
    requires x != [] && a != [] && Break(x[|x| - 1]) && Break(a[|a| - 1]) && Unbroken(was) && Unbroken(now)
    requires was != now
    ensures x + was + b != a + now + b
  {
    if |x + was| == |a + now| {
      if |x| < |a| {
        assert (x + was + b)[|a| - 1] == was[|a| - 1 - |x|] && (a + now + b)[|a| - 1] == a[|a| - 1];
      } else if |a| < |x| {
        assert (x + was + b)[|x| - 1] == x[|x| - 1] && (a + now + b)[|x| - 1] == now[|x| - 1 - |a|];
      } else {
        assert (x + was + b)[|x|..|x + was|] == was && (a + now + b)[|a|..|a + now|] == now;
      }
    }
  }

  /** An unbroken line does not occur across the break that ends whole lines. */
  lemma NotAcross(a: Bytes, was: Bytes, b: Bytes, i: nat)
    requires Whole(a) && Unbroken(was) && i < |a| <= i + |was|
    ensures !OccursAt(a + was + b, was, i)
  {
    var data := a + was + b;
    if i + |was| <= |data| { assert data[i..i + |was|][|a| - 1 - i] == a[|a| - 1]; }
  }

  lemma ReplacedInside(a: Bytes, was: Bytes, now: Bytes, b: Bytes, i: nat)
    requires i + |was| <= |a|
    ensures var data := a + was + b;
      data[..i] + now + data[i + |was|..] == a[..i] + now + a[i + |was|..] + was + b
  {
    var data := a + was + b;
    assert data[..i] == a[..i] && data[i + |was|..] == a[i + |was|..] + was + b;
  }

  /** An earlier occurrence is replaced instead, and that never gives the patched text. */
  lemma ReplacesEarlier(spec: Spec, a: Bytes, b: Bytes)
    requires OneLinePatch(spec, a, b) && OccursBefore(spec, a) && spec.oldLine != spec.newLine
    ensures ReplaceFirst(spec.original, spec.oldLine, spec.newLine) != spec.patched
  {
    hide Unbroken, Break, OccursAt;
    var was, now := spec.oldLine, spec.newLine;
    var i := Find(spec.original, was, 0).value;
    if |a| <= i + |was| { NotAcross(a, was, b, i); }
    ReplacedInside(a, was, now, b, i);
    var x := a[..i] + now + a[i + |was|..];
    assert x[|x| - 1] == a[|a| - 1];
    LastLineTells(x, was, a, now, b);
  }

  /** Exactly when such a source is accepted in its original form: when the old line does
      not also occur inside an earlier line. */
  lemma OneLinePatchExactly(spec: Spec, a: Bytes, b: Bytes)
    requires OneLinePatch(spec, a, b)
    requires LineCount(spec.original, spec.oldLine) == 1 && LineCount(spec.original, spec.newLine) == 0
    ensures Ready(spec, spec.original) <==> !OccursBefore(spec, a)
    ensures Ready(spec, spec.patched)
    ensures !OccursBefore(spec, a) ==> Candidate(spec, spec.original) == a + spec.newLine + b
  {
    hide LineCount, ReplaceFirst;
    OnePatchCounts(spec, a, b);
    if OccursBefore(spec, a) { ReplacesEarlier(spec, a, b); } else { ReplacesTheLine(spec, a, b); }
  }

  // ---------------------------------------------------------------- all sources

  type Files = map<string, Bytes>

  predicate Distinct(specs: seq<Spec>) {
    forall i, j :: 0 <= i < j < |specs| ==> specs[i].path != specs[j].path
  }

  predicate AllReady(specs: seq<Spec>, files: Files) {
    forall i :: 0 <= i < |specs| ==> specs[i].path in files && Ready(specs[i], files[specs[i].path])
  }

  /** Every listed source patched, every other file as it was. */
  predicate AllPatched(specs: seq<Spec>, before: Files, after: Files) {
    && after.Keys == before.Keys
    && (forall i :: 0 <= i < |specs| ==> specs[i].path in after && after[specs[i].path] == specs[i].patched)
    && (forall p :: p in before && (forall i :: 0 <= i < |specs| ==> specs[i].path != p) ==> after[p] == before[p])
  }

  /** Some listed sources still as they were, the others patched. */
  predicate Between(specs: seq<Spec>, before: Files, after: Files) {
    && after.Keys == before.Keys
    && (forall p :: p in before && after[p] != before[p] ==>
          exists i :: 0 <= i < |specs| && specs[i].path == p && after[p] == specs[i].patched)
  }

  /** What one start may do, given what the GPU reports. */
  ghost predicate Ran(specs: seq<Spec>, limit: Option<int>, before: Files, after: Files, outcome: Outcome) {
    && (outcome.Refused? <==> !(AllReady(specs, before) && limit.Some? && SHARED_MEMORY <= limit.value))
    && (outcome.Refused? ==> after == before)
    && (!outcome.Refused? ==> AllReady(specs, after) && Between(specs, before, after))
    && (outcome.Exec? ==> AllPatched(specs, before, after))
  }

  lemma PatchedUnchanged(specs: seq<Spec>, before: Files, after: Files)
    requires AllPatched(specs, before, before) && Between(specs, before, after)
    ensures after == before
  {
    assert forall p :: p in before ==> after[p] == before[p];
  }

  /** A run after the sources have been patched changes nothing, whatever its outcome. */
  lemma SecondRunChangesNothing(specs: seq<Spec>, limit: Option<int>, before: Files, after: Files, outcome: Outcome)
    requires Ran(specs, limit, before, after, outcome) && AllPatched(specs, before, before)
    ensures after == before
  {
    if !outcome.Refused? { PatchedUnchanged(specs, before, after); }
  }

  ghost predicate Reruns(specs: seq<Spec>, limit: Option<int>, states: seq<Files>, outcomes: seq<Outcome>) {
    && |states| == |outcomes| + 1
    && forall i :: 0 <= i < |outcomes| ==> Ran(specs, limit, states[i], states[i + 1], outcomes[i])
  }

  lemma BetweenThenPatched(specs: seq<Spec>, a: Files, b: Files, c: Files)
    requires Between(specs, a, b) && AllPatched(specs, b, c)
    ensures AllPatched(specs, a, c)
  {
    forall p | p in a && (forall i :: 0 <= i < |specs| ==> specs[i].path != p) ensures c[p] == a[p] {
      assert b[p] == a[p];
    }
  }

  lemma BetweenChains(specs: seq<Spec>, a: Files, b: Files, c: Files)
    requires Between(specs, a, b) && Between(specs, b, c)
    ensures Between(specs, a, c)
  {
    forall p | p in a && c[p] != a[p]
      ensures exists i :: 0 <= i < |specs| && specs[i].path == p && c[p] == specs[i].patched
    {
      if c[p] == b[p] { assert b[p] != a[p]; }
    }
  }

  /** However many starts die half-way, the next one is not refused, and the first
      that reaches the server leaves every listed source patched and nothing else
      touched. */
  lemma {:induction false} RerunsConverge(specs: seq<Spec>, limit: Option<int>, states: seq<Files>,
      outcomes: seq<Outcome>)
    requires Reruns(specs, limit, states, outcomes)
    requires AllReady(specs, states[0]) && limit.Some? && SHARED_MEMORY <= limit.value
    ensures forall i :: 0 <= i < |states| ==> AllReady(specs, states[i]) && Between(specs, states[0], states[i])
    ensures forall i :: 0 <= i < |outcomes| ==> !outcomes[i].Refused?
    ensures forall i :: 0 <= i < |outcomes| && outcomes[i].Exec? ==> AllPatched(specs, states[0], states[i + 1])
    decreases |outcomes|
  {
    hide AllReady, Between, AllPatched;
    assert Between(specs, states[0], states[0]) by { BetweenSelf(specs, states[0]); }
    if outcomes != [] {
      var n := |outcomes| - 1;
      assert Reruns(specs, limit, states[..n + 1], outcomes[..n]) by {
        forall i | 0 <= i < n ensures Ran(specs, limit, states[..n + 1][i], states[..n + 1][i + 1], outcomes[..n][i]) {
          assert Ran(specs, limit, states[i], states[i + 1], outcomes[i]);
        }
      }
      RerunsConverge(specs, limit, states[..n + 1], outcomes[..n]);
      assert states[..n + 1][n] == states[n];
      assert Ran(specs, limit, states[n], states[n + 1], outcomes[n]);
      BetweenChains(specs, states[0], states[n], states[n + 1]);
      forall i | 0 <= i < |outcomes|
        ensures !outcomes[i].Refused? && (outcomes[i].Exec? ==> AllPatched(specs, states[0], states[i + 1]))
      {
        if i < n { assert outcomes[..n][i] == outcomes[i] && states[..n + 1][i + 1] == states[i + 1]; }
        else if outcomes[i].Exec? { BetweenThenPatched(specs, states[0], states[n], states[n + 1]); }
      }
    }
  }

  lemma BetweenSelf(specs: seq<Spec>, a: Files)
    ensures Between(specs, a, a)
  { }

  /** A list of sources that each differ in one line, which occurs in no earlier one. */
  ghost predicate OneLinePatches(specs: seq<Spec>) {
    forall i :: 0 <= i < |specs| ==>
      && (exists a, b :: OneLinePatch(specs[i], a, b) && !OccursBefore(specs[i], a))
      && LineCount(specs[i].original, specs[i].oldLine) == 1 && LineCount(specs[i].original, specs[i].newLine) == 0
  }

  /** Every source reads as its original or its patched text. */
  predicate Unspoiled(specs: seq<Spec>, files: Files) {
    forall i :: 0 <= i < |specs| ==>
      specs[i].path in files && (files[specs[i].path] == specs[i].original || files[specs[i].path] == specs[i].patched)
  }

  /** Such sources pass every check, in a fresh container and in one that was interrupted. */
  lemma UnspoiledIsReady(specs: seq<Spec>, files: Files)
    requires OneLinePatches(specs) && Unspoiled(specs, files)
    ensures AllReady(specs, files)
  {
    hide LineCount, ReplaceFirst, OneLinePatch, OccursBefore, Ready;
    forall i | 0 <= i < |specs| ensures Ready(specs[i], files[specs[i].path]) {
      var a, b :| OneLinePatch(specs[i], a, b) && !OccursBefore(specs[i], a);
      OneLinePatchExactly(specs[i], a, b);
    }
  }

  // ---------------------------------------------------------------- the program

  class Container {
    const specs: seq<Spec>
    var files: Files

    /** data, original_ok and candidate of every source; nothing is written. */
    method ReadAll() returns (ok: bool, rewrite: seq<bool>, candidates: seq<Bytes>)
      ensures ok <==> AllReady(specs, files)
      ensures ok ==> |rewrite| == |candidates| == |specs|
      ensures ok ==> forall i :: 0 <= i < |specs| ==>
        && rewrite[i] == IsOriginal(specs[i], files[specs[i].path])
        && candidates[i] == Candidate(specs[i], files[specs[i].path])
    {
      hide LineCount, ReplaceFirst;
      rewrite, candidates := [], [];
      for i := 0 to |specs|
        invariant |rewrite| == |candidates| == i
        invariant forall k :: 0 <= k < i ==> specs[k].path in files && Ready(specs[k], files[specs[k].path])
        invariant forall k :: 0 <= k < i ==>
          && rewrite[k] == IsOriginal(specs[k], files[specs[k].path])
          && candidates[k] == Candidate(specs[k], files[specs[k].path])
      {
        var spec := specs[i];
        if spec.path !in files { return false, rewrite, candidates; }
        var data := files[spec.path];
        var originalOk := IsOriginal(spec, data);
        if !originalOk && !IsPatched(spec, data) { return false, rewrite, candidates; }
        var candidate := if originalOk then ReplaceFirst(data, spec.oldLine, spec.newLine) else data;
        if !IsPatched(spec, candidate) { return false, rewrite, candidates; }
        rewrite, candidates := rewrite + [originalOk], candidates + [candidate];
      }
      return true, rewrite, candidates;
    }

    /** Writes the candidates of the original sources, one file after the other. */
    method WriteAll(rewrite: seq<bool>, candidates: seq<Bytes>, calm: bool) returns (alive: bool)
      requires Distinct(specs) && AllReady(specs, files) && |rewrite| == |candidates| == |specs|
      requires forall i :: 0 <= i < |specs| ==>
        && rewrite[i] == IsOriginal(specs[i], files[specs[i].path])
        && candidates[i] == Candidate(specs[i], files[specs[i].path])
      modifies this`files
      ensures AllReady(specs, files) && Between(specs, old(files), files)
      ensures calm ==> alive
      ensures alive ==> AllPatched(specs, old(files), files)
    {
      hide IsOriginal, IsPatched, Candidate;
      for i := 0 to |specs|
        invariant files.Keys == old(files).Keys && AllReady(specs, files)
        invariant forall k :: 0 <= k < i ==> files[specs[k].path] == specs[k].patched
        invariant forall k :: i <= k < |specs| ==> files[specs[k].path] == old(files)[specs[k].path]
        invariant forall p :: p in files && files[p] != old(files)[p] ==>
          exists k :: 0 <= k < i && specs[k].path == p && files[p] == specs[k].patched
      {
        ReadyCases(specs[i], files[specs[i].path]);
        if rewrite[i] {
          alive := *;
          if !alive && !calm { return; }
          files := files[specs[i].path := candidates[i]];
        }
      }
      return true;
    }

    lemma ReadyCases(spec: Spec, data: Bytes)
      requires Ready(spec, data)
      ensures Candidate(spec, data) == spec.patched && Ready(spec, spec.patched)
      ensures !IsOriginal(spec, data) ==> data == spec.patched
    { }

    /** Reads every source again. */
    method VerifyAll() returns (ok: bool)
      ensures ok <==>
              forall i :: 0 <= i < |specs| ==> specs[i].path in files && IsPatched(specs[i], files[specs[i].path])
    {
      for i := 0 to |specs|
        invariant forall k :: 0 <= k < i ==> specs[k].path in files && IsPatched(specs[k], files[specs[k].path])
      {
        if specs[i].path !in files || !IsPatched(specs[i], files[specs[i].path]) { return false; }
      }
      return true;
    }

    /** The whole program; `calm` says that the container does not die this time. */
    method Run(limit: Option<int>, argv: seq<string>, calm: bool) returns (outcome: Outcome)
      requires Distinct(specs)
      modifies this`files
      ensures Ran(specs, limit, old(files), files, outcome)
      ensures outcome.Exec? ==> 1 < |argv| && outcome.argv == argv[1..]
      ensures OneLinePatches(specs) && Unspoiled(specs, old(files)) && limit.Some? && SHARED_MEMORY <= limit.value ==>
                !outcome.Refused?
      ensures calm && !outcome.Refused? ==> AllPatched(specs, old(files), files) && (outcome.Exec? <==> 1 < |argv|)
    {
      hide Ready, OneLinePatches;
      if OneLinePatches(specs) && Unspoiled(specs, files) { UnspoiledIsReady(specs, files); }
      var ok, rewrite, candidates := ReadAll();
      if !ok || limit.None? || limit.value < SHARED_MEMORY { return Refused; }
      var alive := WriteAll(rewrite, candidates, calm);
      if !alive { return Stopped; }
      var verified := VerifyAll();
      PatchedVerifies();
      if !verified || |argv| <= 1 { return Stopped; }
      return Exec(argv[1..]);
    }

    lemma PatchedVerifies()
      requires AllReady(specs, files)
      ensures forall i :: 0 <= i < |specs| && files[specs[i].path] == specs[i].patched ==>
        IsPatched(specs[i], files[specs[i].path])
    { }
  }
}
