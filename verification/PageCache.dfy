/**
 Releasing the page cache of verified model weights before a launch: every weight is
 opened and verified first, and only if all of them pass is any of them advised.
 */
module PageCache {
  type Handle = nat

  /** One object of the pinned manifest, and how each operation on it turns out. */
  datatype Blob = Blob(
    name: string, size: nat,
    resolves: bool, opens: bool, regular: bool, hashes: bool,   // the checks
    advises: bool, closes: bool                                 // the release
  )

  datatype Failure = NoFailure | NoWeights | Unresolved | Unopened | Changed | Mismatch

  datatype Report = Report(
    attempted: bool, expected: nat, verified: nat, files: nat, bytes: nat, skipped: nat, failure: Failure
  )

  predicate IsWeight(b: Blob) {
    |".safetensors"| <= |b.name| && b.name[|b.name| - |".safetensors"|..] == ".safetensors"
  }

  /** Weights are the objects named *.safetensors. */
  lemma WeightsAreSafetensors(b: Blob)
    ensures IsWeight(b) <==> exists stem :: b.name == stem + ".safetensors"
  {
    var n := |b.name| - |".safetensors"|;
    assert IsWeight(b) ==> b.name == b.name[..n] + ".safetensors";
    forall stem | b.name == stem + ".safetensors" ensures IsWeight(b) { assert |stem| == n; }
  }

  /** Passes every check before the cache is released. */
  predicate Verifies(b: Blob) { b.resolves && b.opens && b.regular && b.hashes }

  /** Advised and closed without an error. */
  predicate Releases(b: Blob) { b.advises && b.closes }

  function Weights(objects: seq<Blob>): seq<Blob> {
    if objects == [] then []
    else (if IsWeight(objects[0]) then [objects[0]] else []) + Weights(objects[1..])
  }

  lemma {:induction false} WeightsSnoc(objects: seq<Blob>, b: Blob)
    ensures Weights(objects + [b]) == Weights(objects) + (if IsWeight(b) then [b] else [])
  {
    if objects != [] {
      WeightsSnoc(objects[1..], b);
      assert (objects + [b])[1..] == objects[1..] + [b];
    }
  }

  function Released(blobs: seq<Blob>): (n: nat)
    ensures n <= |blobs|
  {
    if blobs == [] then 0 else Released(blobs[..|blobs| - 1]) + (if Releases(blobs[|blobs| - 1]) then 1 else 0)
  }

  function ReleasedBytes(blobs: seq<Blob>): nat {
    if blobs == [] then 0
    else ReleasedBytes(blobs[..|blobs| - 1]) + (if Releases(blobs[|blobs| - 1]) then blobs[|blobs| - 1].size else 0)
  }

  function Range(from: nat, to: nat): (s: seq<nat>)
    requires from <= to
    ensures |s| == to - from && forall i :: 0 <= i < |s| ==> s[i] == from + i
  {
    seq(to - from, i => from + i)
  }

  class FileTable {
    var next: Handle            // handles are numbered as they are opened
    var open: set<Handle>
    var closed: seq<Handle>     // in the order of the close calls
    var advised: seq<Handle>

    ghost predicate Valid()
      reads this
    {
      forall h :: h in open ==> h < next
    }

    method Open() returns (h: Handle)
      requires Valid()
      modifies this
      ensures Valid() && h == old(next) && next == h + 1 && open == old(open) + {h} && closed == old(closed)
      ensures advised == old(advised)
    {
      h := next;
      open, next := open + {h}, next + 1;
    }

    /** Closing is an error in the program unless the handle is open. */
    method Close(h: Handle)
      requires Valid() && h in open
      modifies this
      ensures Valid() && open == old(open) - {h} && closed == old(closed) + [h] && next == old(next)
      ensures advised == old(advised)
    {
      open, closed := open - {h}, closed + [h];
    }

    method CloseVerified(verified: seq<Handle>, ghost before: set<Handle>, ghost from: nat, ghost to: nat)
      requires Valid() && from <= to <= next && verified == Range(from, to)
      requires (forall h :: h in before ==> h < from) && open == before + (set h | h in verified)
      modifies this
      ensures Valid() && open == before && closed == old(closed) + verified && next == old(next)
      ensures advised == old(advised)
    {
      for i := 0 to |verified|
        invariant Valid() && next == old(next) && advised == old(advised)
        invariant open == before + (set h | h in verified[i..])
        invariant closed == old(closed) + verified[..i]
      {
        assert verified[i..] == [verified[i]] + verified[i + 1..];
        assert verified[i] !in verified[i + 1..];
        Close(verified[i]);
        assert verified[..i + 1] == verified[..i] + [verified[i]];
      }
    }

    /** Opens and verifies one weight; a handle that fails a check is closed at once. */
    method OpenVerified(b: Blob) returns (failure: Failure, h: Handle)
      requires Valid()
      modifies this
      ensures failure in {NoFailure, Unresolved, Unopened, Changed, Mismatch}
      ensures Valid() && advised == old(advised)
      ensures failure == NoFailure <==> Verifies(b)
      ensures failure == NoFailure ==>
            h == old(next) && next == h + 1 && open == old(open) + {h} && closed == old(closed)
      ensures failure != NoFailure ==>
            open == old(open) && old(next) <= next <= old(next) + 1 && closed == old(closed) + Range(old(next), next)
    {
      h := 0;
      if !b.resolves { return Unresolved, h; }
      if !b.opens { return Unopened, h; }
      h := Open();
      if !b.regular { Close(h); return Changed, h; }
      if !b.hashes { Close(h); return Mismatch, h; }
      return NoFailure, h;
    }

    /** Opens and verifies every weight; after a failure nothing stays open. */
    method VerifyAll(weights: seq<Blob>) returns (failure: Failure, verified: seq<Handle>)
      requires Valid()
      modifies this
      ensures Valid() && advised == old(advised) && old(next) <= next
      ensures failure in {NoFailure, Unresolved, Unopened, Changed, Mismatch}
      ensures failure == NoFailure <==> forall i :: 0 <= i < |weights| ==> Verifies(weights[i])
      ensures |verified| <= |weights| && forall i :: 0 <= i < |verified| ==> Verifies(weights[i])
      ensures failure == NoFailure ==>
            |verified| == |weights| && Holding(verified, old(open), old(next)) && closed == old(closed)
      ensures failure != NoFailure ==> |verified| < |weights| && !Verifies(weights[|verified|]) && open == old(open)
      ensures failure != NoFailure ==> ClosedOnce(old(closed), old(next))
    {
      failure, verified := NoFailure, [];
      for i := 0 to |weights|
        invariant Valid() && advised == old(advised) && closed == old(closed) && |verified| == i && failure == NoFailure
        invariant forall k :: 0 <= k < i ==> Verifies(weights[k])
        invariant Holding(verified, old(open), old(next))
      {
        var h;
        failure, h := OpenVerified(weights[i]);
        if failure != NoFailure {
          CloseVerified(verified, old(open), old(next), old(next) + i);
          assert ClosedFrom(old(closed), old(next), old(next) + i);
          return;
        }
        verified := verified + [h];
      }
    }

    /** Exactly these handles were opened since `from`, and all of them are still open. */
    ghost predicate Holding(verified: seq<Handle>, before: set<Handle>, from: nat)
      reads this
    {
      && from <= next && verified == Range(from, next) && (forall h :: h in before ==> h < from)
      && open == before + set h | h in verified
    }

    /** Every handle opened since `from` has been closed exactly once, and no other: those
        from `k` on first, then the ones before. */
    ghost predicate ClosedFrom(before: seq<Handle>, from: nat, k: nat)
      reads this
    {
      from <= k <= next && closed == before + Range(k, next) + Range(from, k)
    }

    ghost predicate ClosedOnce(before: seq<Handle>, from: nat)
      reads this
    {
      exists k :: ClosedFrom(before, from, k)
    }

    /** Advises and closes the verified handles one after the other. */
    method AdviseAll(weights: seq<Blob>, verified: seq<Handle>, ghost before: set<Handle>, ghost from: nat)
      returns (files: nat, bytes: nat, skipped: nat)
      requires Valid() && |verified| == |weights| && Holding(verified, before, from)
      modifies this
      ensures Valid() && open == before && next == old(next)
      ensures advised == old(advised) + verified && closed == old(closed) + verified
      ensures files == Released(weights) && bytes == ReleasedBytes(weights) && files + skipped == |weights|
    {
      files, bytes, skipped := 0, 0, 0;
      for i := 0 to |weights|
        invariant Valid() && next == old(next)
        invariant open == before + set h | h in verified[i..]
        invariant advised == old(advised) + verified[..i] && closed == old(closed) + verified[..i]
        invariant files == Released(weights[..i]) && bytes == ReleasedBytes(weights[..i]) && files + skipped == i
      {
        assert verified[i..] == [verified[i]] + verified[i + 1..];
        assert verified[i] !in verified[i + 1..];
        assert verified[..i + 1] == verified[..i] + [verified[i]];
        assert weights[..i + 1][..i] == weights[..i];
        advised := advised + [verified[i]];
        Close(verified[i]);
        if !weights[i].advises || !weights[i].closes {
          skipped := skipped + 1;
          continue;
        }
        files, bytes := files + 1, bytes + weights[i].size;
      }
      assert weights[..|weights|] == weights && verified[..|verified|] == verified;
    }

    /** The weight files among the objects of the manifest, in their order. */
    method SelectWeights(objects: seq<Blob>) returns (weights: seq<Blob>)
      ensures weights == Weights(objects)
    {
      weights := [];
      for i := 0 to |objects|
        invariant weights == Weights(objects[..i])
      {
        WeightsSnoc(objects[..i], objects[i]);
        assert objects[..i + 1] == objects[..i] + [objects[i]];
        if IsWeight(objects[i]) { weights := weights + [objects[i]]; }
      }
      assert objects[..|objects|] == objects;
    }

    /** releaseQwen38PageCacheWithObjects once the repository mount has been resolved. */
    method Release(objects: seq<Blob>) returns (report: Report)
      requires Valid()
      modifies this
      ensures Valid() && open == old(open)
      ensures ClosedOnce(old(closed), old(next))
      ensures var weights := Weights(objects);
        if weights == [] then report == Report(true, 0, 0, 0, 0, 0, NoWeights)
        else if forall i :: 0 <= i < |weights| ==> Verifies(weights[i]) then
          && report == Report(true, |weights|, |weights|, Released(weights), ReleasedBytes(weights),
                              |weights| - Released(weights), NoFailure)
          && advised == old(advised) + Range(old(next), next) && next == old(next) + |weights|
        else
          && report.failure in {Unresolved, Unopened, Changed, Mismatch} && advised == old(advised)
          && report == Report(true, |weights|, report.verified, 0, 0, |weights|, report.failure)
          && FirstFailure(weights, report.verified)
    {
      var weights := SelectWeights(objects);
      if weights == [] {
        assert ClosedFrom(old(closed), old(next), next);
        return Report(true, 0, 0, 0, 0, 0, NoWeights);
      }
      var failure, verified := VerifyAll(weights);
      if failure != NoFailure {
        return Report(true, |weights|, |verified|, 0, 0, |weights|, failure);
      }
      var files, bytes, skipped := AdviseAll(weights, verified, old(open), old(next));
      assert ClosedFrom(old(closed), old(next), old(next));
      return Report(true, |weights|, |verified|, files, bytes, skipped, NoFailure);
    }
  }

  predicate FirstFailure(weights: seq<Blob>, n: nat) {
    n < |weights| && !Verifies(weights[n]) && forall i :: 0 <= i < n ==> Verifies(weights[i])
  }
}
