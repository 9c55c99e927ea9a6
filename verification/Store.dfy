/**
 The deployment journal: a document in memory, its JSON file, and writes that can fail
 before or after the rename that makes them visible.
 */
module Store {
  import opened Common

  /** A Go slice: nil is not the same as empty. */
  datatype Slice = Nil | Items(items: seq<string>)

  /** A year that RFC 3339 text can hold. */
  type Year = y: int | 0 <= y <= 9999 witness 1

  datatype Deployment = Deployment(
    id: string, idempotencyKey: string, requestHash: string,
    bindings: Slice,         // written even when nil
    members: Slice,          // omitted when nil or empty, like every other optional list
    created: int             // the year of CreatedAt
  )

  const BLANK := Deployment("", "", "", Nil, Nil, 1)

  // ---------------------------------------------------------------- JSON

  /** One JSON object: an absent member is None, null is a nil slice. */
  datatype Stored = Stored(
    id: string, idempotencyKey: string, requestHash: Option<string>,
    bindings: Slice, members: Option<Slice>, created: Year
  )

  /** json.Marshal, which refuses a time outside the years 0 to 9999. */
  function Encode(d: Deployment): Option<Stored> {
    if 0 <= d.created <= 9999 then
      Some(Stored(d.id, d.idempotencyKey, if d.requestHash == "" then None else Some(d.requestHash),
                  d.bindings, if d.members == Nil || d.members.items == [] then None else Some(d.members), d.created))
    else None
  }

  function Decode(e: Stored): Deployment {
    Deployment(e.id, e.idempotencyKey, if e.requestHash.Some? then e.requestHash.value else "",
               e.bindings, if e.members.Some? then e.members.value else Nil, e.created)
  }

  /** cloneDeployment: errors are dropped on both ways, the request hash is not. */
  function Clone(d: Deployment): Deployment {
    var e := Encode(d);
    (if e.Some? then Decode(e.value) else BLANK).(requestHash := d.requestHash)
  }

  predicate Encodable(d: Deployment) { Encode(d).Some? }

  /** A deployment that is its own copy. */
  predicate Canonical(d: Deployment) { Encodable(d) && d.members != Items([]) }

  /** A copy is the original up to an empty list that nothing wrote. Only a year that
      RFC 3339 cannot write in its four digits (section 5.6) leaves a blank with the
      original's request hash. */
  lemma CloneIsCanonical(d: Deployment)
    ensures Canonical(Clone(d)) && (Clone(d) == d <==> Canonical(d))
    ensures Encodable(d) <==> 0 <= d.created <= 9999
    ensures Clone(d) ==
            if d.created < 0 || 9999 < d.created then BLANK.(requestHash := d.requestHash)
            else if d.members == Items([]) then d.(members := Nil)
            else d
  { }

  /** The file holds a canonical deployment so that reading it gives it back. */
  lemma RoundTrip(d: Deployment)
    requires Canonical(d)
    ensures Encode(d).Some? && Decode(Encode(d).value) == d
  { }

  // ---------------------------------------------------------------- the file

  datatype File =
    | Missing
    | Unreadable
    | Document(version: int, deployments: Option<seq<Stored>>)   // None is null or absent

  const STORE_VERSION := 1

  function DecodeAll(es: seq<Stored>): (r: seq<Deployment>)
    ensures |r| == |es|
  {
    seq(|es|, i requires 0 <= i < |es| => Decode(es[i]))
  }

  /** OpenStore: what a fresh process finds, or None for its error. */
  function Opened(f: File): Option<seq<Deployment>> {
    match f
    case Missing => Some([])
    case Unreadable => None
    case Document(v, ds) =>
      if v > STORE_VERSION || v < 0 then None
      else Some(if ds.None? then [] else DecodeAll(ds.value))
  }

  /** Only a present file can fail, and only by being no document or by its version. */
  lemma OpenedExactly(f: File)
    ensures Opened(f).None? <==> f == Unreadable || (f.Document? && f.version !in {0, 1})
    ensures Opened(f).Some? ==>
              |Opened(f).value| == (if f.Document? && f.deployments.Some? then |f.deployments.value| else 0)
    ensures Opened(f).Some? ==>
              forall i :: 0 <= i < |Opened(f).value| ==> Opened(f).value[i] == Decode(f.deployments.value[i])
  { }

  /** MarshalIndent of a whole document. */
  function Marshal(ds: seq<Deployment>): (f: Option<File>)
    ensures f.Some? <==> forall d :: d in ds ==> Encodable(d)
  {
    if forall i :: 0 <= i < |ds| ==> Encodable(ds[i])
    then
      var stored := seq(|ds|, i requires 0 <= i < |ds| && Encodable(ds[i]) => Encode(ds[i]).value);
      Some(Document(STORE_VERSION, Some(stored)))
    else None
  }

  // ---------------------------------------------------------------- Put

  datatype Write =
    | FailedBeforeRename
    | FailedAfterRename      // the directory could not be synced
    | Written

  datatype State = State(doc: seq<Deployment>, file: File)

  /** Where Put looks for the deployment it replaces: the first entry with its ID. */
  function IndexOf(ds: seq<Deployment>, id: string): (index: nat)
    ensures index <= |ds| && (forall i :: 0 <= i < index ==> ds[i].id != id) && (index < |ds| ==> ds[index].id == id)
  {
    if ds == [] || ds[0].id == id then 0 else 1 + IndexOf(ds[1..], id)
  }

  function Clones(ds: seq<Deployment>): (r: seq<Deployment>)
    ensures |r| == |ds| && forall i :: 0 <= i < |ds| ==> r[i] == Clone(ds[i])
  {
    seq(|ds|, i requires 0 <= i < |ds| => Clone(ds[i]))
  }

  function Replaced(ds: seq<Deployment>, d: Deployment): seq<Deployment> {
    var next := Clones(ds);
    var index := IndexOf(next, d.id);
    if index < |next| then next[index := Clone(d)] else next + [Clone(d)]
  }

  function AfterPut(s: State, d: Deployment, w: Write): State {
    var next := Replaced(s.doc, d);
    if w == FailedBeforeRename || Marshal(next).None? then s else State(next, Marshal(next).value)
  }

  predicate FirstWithKey(ds: seq<Deployment>, key: string, index: nat) {
    index < |ds| && ds[index].idempotencyKey == key && forall i :: 0 <= i < index ==> ds[i].idempotencyKey != key
  }

  class DeploymentStore {
    var doc: seq<Deployment>
    var file: File

    ghost function Now(): State
      reads this
    {
      State(doc, file)
    }

    /** Memory and file agree. */
    ghost predicate Valid()
      reads this
    {
      Opened(file) == Some(doc)
    }

    constructor Open(f: File)
      requires Opened(f).Some?
      ensures Valid() && file == f
    {
      file := f;
      doc := Opened(f).value;
    }

    method CloneDeployments() returns (next: seq<Deployment>)
      ensures next == Clones(doc)
    {
      next := [];
      for index := 0 to |doc|
        invariant |next| == index && forall i :: 0 <= i < index ==> next[i] == Clone(doc[i])
      {
        next := next + [Clone(doc[index])];
      }
    }

    method Put(d: Deployment, w: Write) returns (ok: bool)
      requires Valid()
      modifies this
      ensures Valid() && Now() == AfterPut(old(Now()), d, w)
      ensures ok <==> w == Written
    {
      var next := CloneDeployments();
      var replaced := false;
      for index := 0 to |next|
        invariant next == Clones(doc) && !replaced
        invariant forall i :: 0 <= i < index ==> next[i].id != d.id
      {
        if next[index].id == d.id {
          IndexIs(next, d.id, index);
          next := next[index := Clone(d)];
          replaced := true;
          break;
        }
      }
      if !replaced {
        IndexIs(next, d.id, |next|);
        next := next + [Clone(d)];
      }
      assert next == Replaced(doc, d);
      ReplacedIsCanonical(doc, d);
      var data := Marshal(next);
      if w == FailedBeforeRename { return false; }
      file, doc := data.value, next;
      MarshalRoundTrip(next);
      return w == Written;
    }

    method Get(id: string) returns (found: Option<Deployment>)
      ensures found.None? <==> forall i :: 0 <= i < |doc| ==> doc[i].id != id
      ensures found.Some? ==> IndexOf(doc, id) < |doc| && found.value == Clone(doc[IndexOf(doc, id)])
    {
      for index := 0 to |doc|
        invariant forall i :: 0 <= i < index ==> doc[i].id != id
      {
        if doc[index].id == id {
          IndexIs(doc, id, index);
          return Some(Clone(doc[index]));
        }
      }
      return None;
    }

    method FindIdempotency(key: string) returns (found: Option<Deployment>)
      ensures found.None? <==> forall i :: 0 <= i < |doc| ==> doc[i].idempotencyKey != key
      ensures found.Some? ==>
                exists i :: 0 <= i < |doc| && FirstWithKey(doc, key, i) && found.value == Clone(doc[i])
    {
      for index := 0 to |doc|
        invariant forall i :: 0 <= i < index ==> doc[i].idempotencyKey != key
      {
        if doc[index].idempotencyKey == key {
          assert FirstWithKey(doc, key, index);
          return Some(Clone(doc[index]));
        }
      }
      return None;
    }
  }

  lemma {:induction false} IndexIs(ds: seq<Deployment>, id: string, index: nat)
    requires index <= |ds| && (forall i :: 0 <= i < index ==> ds[i].id != id) && (index < |ds| ==> ds[index].id == id)
    ensures IndexOf(ds, id) == index
  { }

  /** Every entry that Put writes can be marshalled, so a write never fails there. */
  lemma ReplacedIsCanonical(ds: seq<Deployment>, d: Deployment)
    ensures forall i :: 0 <= i < |Replaced(ds, d)| ==> Canonical(Replaced(ds, d)[i])
    ensures Marshal(Replaced(ds, d)).Some?
  {
    CloneIsCanonical(d);
    forall i | 0 <= i < |ds| ensures Canonical(Clones(ds)[i]) { CloneIsCanonical(ds[i]); }
  }

  lemma MarshalRoundTrip(ds: seq<Deployment>)
    requires forall i :: 0 <= i < |ds| ==> Canonical(ds[i])
    ensures Marshal(ds).Some? && Opened(Marshal(ds).value) == Some(ds)
  {
    var es := Marshal(ds).value.deployments.value;
    forall i | 0 <= i < |ds| ensures Decode(es[i]) == ds[i] { RoundTrip(ds[i]); }
    assert DecodeAll(es) == ds;
  }

  // ---------------------------------------------------------------- runs of Puts

  predicate Agrees(s: State) { Opened(s.file) == Some(s.doc) }

  predicate Settled(s: State) { forall i :: 0 <= i < |s.doc| ==> Canonical(s.doc[i]) }

  predicate DistinctIds(ds: seq<Deployment>) {
    forall i, j :: 0 <= i < j < |ds| ==> ds[i].id != ds[j].id
  }

  datatype Request = Request(deployment: Deployment, write: Write)

  function AfterPuts(s: State, requests: seq<Request>): State
    decreases |requests|
  {
    if requests == [] then s
    else AfterPuts(AfterPut(s, requests[0].deployment, requests[0].write), requests[1..])
  }

  lemma PutAgrees(s: State, d: Deployment, w: Write)
    requires Agrees(s)
    ensures Agrees(AfterPut(s, d, w))
    ensures Settled(s) ==> Settled(AfterPut(s, d, w))
    ensures w == FailedBeforeRename ==> AfterPut(s, d, w) == s
  {
    ReplacedIsCanonical(s.doc, d);
    MarshalRoundTrip(Replaced(s.doc, d));
  }

  /** Whatever mixture of failures and successes, a process that opens the file anew
      finds exactly the document this one has in memory. */
  lemma {:induction false} MemoryAgreesWithFile(s: State, requests: seq<Request>)
    requires Agrees(s)
    ensures Opened(AfterPuts(s, requests).file) == Some(AfterPuts(s, requests).doc)
    decreases |requests|
  {
    hide AfterPut, Opened;
    if requests != [] {
      PutAgrees(s, requests[0].deployment, requests[0].write);
      MemoryAgreesWithFile(AfterPut(s, requests[0].deployment, requests[0].write), requests[1..]);
    }
  }

  /** A Put that reaches its rename on a document this program wrote replaces the one
      entry with that ID or appends one, and leaves every other entry alone. */
  lemma PutChangesOneEntry(s: State, d: Deployment, w: Write)
    requires Settled(s) && w != FailedBeforeRename
    ensures var before, after, at := s.doc, AfterPut(s, d, w).doc, IndexOf(s.doc, d.id);
      && |after| == (if at < |before| then |before| else |before| + 1)
      && after[at] == Clone(d)
      && forall i :: 0 <= i < |before| && i != at ==> after[i] == before[i]
  {
    ReplacedIsCanonical(s.doc, d);
    forall i | 0 <= i < |s.doc| ensures Clone(s.doc[i]) == s.doc[i] { CloneIsCanonical(s.doc[i]); }
    assert Clones(s.doc) == s.doc;
  }

  /** IDs stay distinct exactly as long as what is put can be encoded, or its blank
      stand-in meets no other blank entry. */
  lemma PutKeepsIdsDistinctExactly(s: State, d: Deployment, w: Write)
    requires Settled(s) && DistinctIds(s.doc) && w != FailedBeforeRename
    ensures DistinctIds(AfterPut(s, d, w).doc) <==>
            Encodable(d) || d.id == "" || forall i :: 0 <= i < |s.doc| ==> s.doc[i].id != ""
  {
    PutChangesOneEntry(s, d, w);
    CloneIsCanonical(d);
    var after, at := AfterPut(s, d, w).doc, IndexOf(s.doc, d.id);
    if !Encodable(d) && d.id != "" {
      if i :| 0 <= i < |s.doc| && s.doc[i].id == "" {
        assert after[i].id == "" && after[at].id == "";
      }
    }
  }

  /** Two deployments whose creation time no JSON can hold leave two entries with the
      empty ID. */
  lemma UnencodablePutsCollide()
    ensures var a := BLANK.(id := "a", created := 10000);
      var b := BLANK.(id := "b", created := 10000);
      var s := AfterPuts(State([], Missing), [Request(a, Written), Request(b, Written)]);
      |s.doc| == 2 && s.doc[0].id == "" == s.doc[1].id
  {
    var a := BLANK.(id := "a", created := 10000);
    var b := BLANK.(id := "b", created := 10000);
    var s := State([], Missing);
    var first := AfterPut(s, a, Written);
    ReplacedIsCanonical([], a);
    assert first.doc == [BLANK];
    var second := AfterPut(first, b, Written);
    ReplacedIsCanonical([BLANK], b);
    assert second.doc == [BLANK, BLANK];
    var requests := [Request(a, Written), Request(b, Written)];
    assert requests[1..] == [Request(b, Written)] && requests[1..][1..] == [];
    assert AfterPuts(second, []) == second;
    assert AfterPuts(first, requests[1..]) == second;
  }

  lemma {:induction false} IdsStayDistinct(s: State, requests: seq<Request>)
    requires Agrees(s) && Settled(s) && DistinctIds(s.doc)
    requires forall r :: r in requests ==> Encodable(r.deployment)
    ensures DistinctIds(AfterPuts(s, requests).doc) && Settled(AfterPuts(s, requests))
    decreases |requests|
  {
    hide AfterPut, Opened, Encodable;
    if requests != [] {
      var d, w := requests[0].deployment, requests[0].write;
      assert requests[0] in requests;
      PutAgrees(s, d, w);
      if w != FailedBeforeRename { PutKeepsIdsDistinctExactly(s, d, w); }
      IdsStayDistinct(AfterPut(s, d, w), requests[1..]);
    }
  }
}
