/**
 Operation barriers: a launch or a stop registers under a name, and whoever must not
 overtake it waits for its channel to be closed. The handlers that use them are a
 transition system over the registry; the registry itself is a class.
 */
module Barriers {
  import opened Common

  type Chan = nat
  type Waiter = nat

  // ---------------------------------------------------------------- the registry

  /** The barrier map, every channel closed so far in order, and the next channel. */
  datatype Registry = Registry(active: map<string, Chan>, closed: seq<Chan>, next: Chan)

  function Begun(r: Registry, name: string): Registry {
    if name in r.active then r else Registry(r.active[name := r.next], r.closed, r.next + 1)
  }

  /** The finish function that `begin` returned for this channel. */
  function Finished(r: Registry, name: string, done: Chan): Registry {
    if name in r.active && r.active[name] == done
    then r.(active := r.active - {name}, closed := r.closed + [done])
    else r
  }

  function Looked(r: Registry, name: string): Option<Chan> {
    if name in r.active then Some(r.active[name]) else None
  }

  class OperationBarrierRegistry {
    var active: map<string, Chan>
    var closed: seq<Chan>
    var next: Chan

    ghost function Now(): Registry
      reads this
    {
      Registry(active, closed, next)
    }

    constructor ()
      ensures Now() == Registry(map[], [], 0)
    {
      active, closed, next := map[], [], 0;
    }

    method Begin(name: string) returns (done: Option<Chan>)
      modifies this
      ensures Now() == Begun(old(Now()), name)
      ensures done == if name in old(active) then None else Some(old(next))
    {
      if name in active { return None; }
      done := Some(next);
      active, next := active[name := next], next + 1;
    }

    method Finish(name: string, done: Chan)
      modifies this
      ensures Now() == Finished(old(Now()), name, done)
    {
      if name in active && active[name] == done {
        active := active - {name};
        closed := closed + [done];
      }
    }

    /** The first half of wait; the second half blocks until the channel is closed. */
    method Look(name: string) returns (done: Option<Chan>)
      ensures done == Looked(Now(), name)
    {
      return if name in active then Some(active[name]) else None;
    }
  }

  // ---------------------------------------------------------------- handlers

  /** One registered operation: `settled` once all its own work and cleanup is over. */
  datatype Operation = Operation(name: string, settled: bool)

  /** A handler that waits: what it saw, and which operations had begun before it looked. */
  datatype Watch = Watch(name: string, seen: Option<Chan>, before: set<Chan>)

  datatype State = State(registry: Registry, operations: map<Chan, Operation>, watches: map<Waiter, Watch>)

  datatype Step =
    | Begin(name: string)
    | Settle(done: Chan)
    | Finish(done: Chan)              // deferred, and harmless when repeated
    | Look(waiter: Waiter, name: string)
    | Pass(waiter: Waiter)            // wait returned nil

  function Do(s: State, step: Step): Option<State> {
    match step
    case Begin(name) =>
      if name in s.registry.active then Some(s)
      else Some(s.(registry := Begun(s.registry, name),
                   operations := s.operations[s.registry.next := Operation(name, false)]))
    case Settle(c) =>
      if c in s.operations then Some(s.(operations := s.operations[c := s.operations[c].(settled := true)])) else None
    case Finish(c) =>
      if c in s.operations && s.operations[c].settled
      then Some(s.(registry := Finished(s.registry, s.operations[c].name, c))) else None
    case Look(w, name) =>
      Some(s.(watches := s.watches[w := Watch(name, Looked(s.registry, name), s.operations.Keys)]))
    case Pass(w) =>
      if w in s.watches && (s.watches[w].seen.Some? ==> s.watches[w].seen.value in s.registry.closed)
      then Some(s) else None
  }

  const EMPTY := State(Registry(map[], [], 0), map[], map[])

  ghost predicate Run(s: State, steps: seq<Step>, t: State)
    decreases |steps|
  {
    if steps == [] then s == t else Do(s, steps[0]).Some? && Run(Do(s, steps[0]).value, steps[1..], t)
  }

  ghost predicate Reachable(s: State, steps: seq<Step>) { Run(EMPTY, steps, s) }

  /** Every operation is the active one of its name, or over and closed. */
  ghost predicate Inv(s: State) {
    && (forall c :: c in s.operations ==> c < s.registry.next)
    && (forall c :: c in s.operations ==> Live(s, c) || (s.operations[c].settled && c in s.registry.closed))
    && (forall n :: n in s.registry.active ==>
          && s.registry.active[n] in s.operations && s.operations[s.registry.active[n]].name == n
          && s.registry.active[n] !in s.registry.closed)
    && (forall c :: c in s.registry.closed ==> c < s.registry.next)
    && (forall i, j :: 0 <= i < j < |s.registry.closed| ==> s.registry.closed[i] != s.registry.closed[j])
    && (forall w :: w in s.watches ==> WatchOk(s, s.watches[w]))
  }

  predicate Live(s: State, c: Chan)
    requires c in s.operations
  {
    s.operations[c].name in s.registry.active && s.registry.active[s.operations[c].name] == c
  }

  predicate WatchOk(s: State, w: Watch) {
    forall c :: c in w.before ==>
      && c in s.operations
      && (s.operations[c].name == w.name ==> w.seen == Some(c) || (s.operations[c].settled && c in s.registry.closed))
  }

  lemma BeginKeeps(s: State, name: string, t: State)
    requires Inv(s) && Do(s, Begin(name)) == Some(t)
    ensures Inv(t)
  { }

  lemma SettleKeeps(s: State, c: Chan, t: State)
    requires Inv(s) && Do(s, Settle(c)) == Some(t)
    ensures Inv(t)
  { }

  lemma FinishKeeps(s: State, c: Chan, t: State)
    requires Inv(s) && Do(s, Finish(c)) == Some(t)
    ensures Inv(t)
  { }

  lemma LookKeeps(s: State, w: Waiter, name: string, t: State)
    requires Inv(s) && Do(s, Look(w, name)) == Some(t)
    ensures Inv(t)
  { }

  lemma StepKeeps(s: State, step: Step, t: State)
    requires Inv(s) && Do(s, step) == Some(t)
    ensures Inv(t)
  {
    hide Inv;
    match step {
      case Begin(name) => BeginKeeps(s, name, t);
      case Settle(c) => SettleKeeps(s, c, t);
      case Finish(c) => FinishKeeps(s, c, t);
      case Look(w, name) => LookKeeps(s, w, name, t);
      case Pass(w) =>
    }
  }

  lemma {:induction false} RunKeeps(s: State, steps: seq<Step>, t: State)
    requires Inv(s) && Run(s, steps, t)
    ensures Inv(t)
    decreases |steps|
  {
    hide Inv, Do;
    if steps != [] {
      StepKeeps(s, steps[0], Do(s, steps[0]).value);
      RunKeeps(Do(s, steps[0]).value, steps[1..], t);
    }
  }

  lemma ReachableInv(s: State, steps: seq<Step>)
    requires Reachable(s, steps)
    ensures Inv(s)
  {
    hide Run;
    RunKeeps(EMPTY, steps, s);
  }

  /** At most one operation per name is under way, and an operation that has not
      settled still blocks its name. */
  lemma OnePerName(s: State, steps: seq<Step>, a: Chan, b: Chan)
    requires Reachable(s, steps) && a in s.operations && b in s.operations
    requires s.operations[a].name == s.operations[b].name && !s.operations[a].settled && !s.operations[b].settled
    ensures a == b && Live(s, a)
  {
    ReachableInv(s, steps);
  }

  /** No channel is ever closed twice, and an active one has not been closed. */
  lemma ClosedOnce(s: State, steps: seq<Step>)
    requires Reachable(s, steps)
    ensures forall i, j :: 0 <= i < j < |s.registry.closed| ==> s.registry.closed[i] != s.registry.closed[j]
    ensures forall n :: n in s.registry.active ==> s.registry.active[n] !in s.registry.closed
  {
    ReachableInv(s, steps);
  }

  /** A finish ends exactly its own operation: called again, or after a newer one
      began under the name, it changes nothing. */
  lemma FinishIsExact(s: State, steps: seq<Step>, c: Chan, t: State)
    requires Reachable(s, steps) && Do(s, Finish(c)) == Some(t)
    ensures !Live(s, c) <==> c in s.registry.closed
    ensures c in s.registry.closed ==> t == s
    ensures c !in s.registry.closed ==> t.registry.closed == s.registry.closed + [c]
    ensures forall d :: d in s.operations && d != c ==> (Live(s, d) <==> Live(t, d))
    ensures Do(t, Finish(c)) == Some(t)
  {
    ReachableInv(s, steps);
  }

  /** A look finds nothing exactly when every operation of the name so far is over, and
      otherwise finds the only one that is not. */
  lemma LookIsExact(s: State, steps: seq<Step>, name: string)
    requires Reachable(s, steps)
    ensures Looked(s.registry, name).None? <==>
            forall c :: c in s.operations && s.operations[c].name == name ==>
              s.operations[c].settled && c in s.registry.closed
    ensures Looked(s.registry, name).Some? ==>
              var c := Looked(s.registry, name).value;
              && c in s.operations && s.operations[c].name == name && c !in s.registry.closed
              && forall d :: d in s.operations && s.operations[d].name == name && d != c ==> d in s.registry.closed
  {
    ReachableInv(s, steps);
  }

  /** When wait returns, every operation that was registered under the name before
      the look has settled. */
  lemma WaitOvertakesNothing(s: State, steps: seq<Step>, w: Waiter, t: State)
    requires Reachable(s, steps) && Do(s, Pass(w)) == Some(t)
    ensures s.watches[w].before <= s.operations.Keys
    ensures forall c :: c in s.watches[w].before && s.operations[c].name == s.watches[w].name ==>
              s.operations[c].settled
  {
    ReachableInv(s, steps);
    assert WatchOk(s, s.watches[w]);
    forall c | c in s.watches[w].before && s.operations[c].name == s.watches[w].name ensures s.operations[c].settled {
      if s.watches[w].seen == Some(c) { assert !Live(s, c); }
    }
  }

  // ---------------------------------------------------------------- names

  const PREFIX := "yokai-"

  predicate Plain(c: char) {
    'a' <= c <= 'z' || 'A' <= c <= 'Z' || '0' <= c <= '9' || c == '_' || c == '.' || c == '-'
  }

  function Replaced(s: string): (r: string)
    ensures |r| == |s| && forall i :: 0 <= i < |s| ==> r[i] == if Plain(s[i]) then s[i] else '-'
  {
    seq(|s|, i requires 0 <= i < |s| => if Plain(s[i]) then s[i] else '-')
  }

  function TrimLeft(s: string): (r: string)
    ensures |r| <= |s| && r == s[|s| - |r|..]
    ensures r != "" ==> r[0] != '-'
    ensures forall i :: 0 <= i < |s| - |r| ==> s[i] == '-'
  {
    if s != "" && s[0] == '-' then TrimLeft(s[1..]) else s
  }

  function TrimRight(s: string): (r: string)
    ensures |r| <= |s| && r == s[..|r|]
    ensures r != "" ==> r[|r| - 1] != '-'
    ensures forall i :: |r| <= i < |s| ==> s[i] == '-'
  {
    if s != "" && s[|s| - 1] == '-' then TrimRight(s[..|s| - 1]) else s
  }

  function SanitizeName(name: string): string {
    var trimmed := TrimRight(TrimLeft(Replaced(name)));
    if trimmed == "" then "unnamed" else trimmed
  }

  predicate HasPrefix(s: string, prefix: string) {
    |prefix| <= |s| && s[..|prefix|] == prefix
  }

  function NormalizedContainerName(name: string): string {
    var clean := SanitizeName(name);
    if HasPrefix(clean, PREFIX) then clean else PREFIX + clean
  }

  /** What normalization leaves alone. */
  predicate Normal(s: string) {
    HasPrefix(s, PREFIX) && s[|s| - 1] != '-' && forall i :: 0 <= i < |s| ==> Plain(s[i])
  }

  lemma SanitizedIsPlain(name: string)
    ensures var clean := SanitizeName(name);
      clean != "" && clean[|clean| - 1] != '-' && forall i :: 0 <= i < |clean| ==> Plain(clean[i])
  {
    hide Replaced, TrimLeft, TrimRight, Plain;
    var all := Replaced(name);
    ReplacedIsPlain(name);
    var left := TrimLeft(all);
    assert forall i :: 0 <= i < |left| ==> left[i] == all[|all| - |left| + i];
    var trimmed := TrimRight(left);
    assert forall i :: 0 <= i < |trimmed| ==> trimmed[i] == left[i];
    UnnamedIsPlain();
  }

  lemma ReplacedIsPlain(name: string)
    ensures forall i :: 0 <= i < |Replaced(name)| ==> Plain(Replaced(name)[i])
  { }

  lemma UnnamedIsPlain()
    ensures forall i :: 0 <= i < |"unnamed"| ==> Plain("unnamed"[i])
    ensures "unnamed"[|"unnamed"| - 1] != '-'
  { }

  lemma NormalizedIsNormal(name: string)
    ensures Normal(NormalizedContainerName(name))
  {
    hide SanitizeName;
    SanitizedIsPlain(name);
  }

  /** Normal names are exactly those normalization does not change, so normalizing
      twice is normalizing once. */
  lemma NormalizedExactly(name: string)
    ensures Normal(name) <==> NormalizedContainerName(name) == name
    ensures NormalizedContainerName(NormalizedContainerName(name)) == NormalizedContainerName(name)
  {
    NormalizedIsNormal(name);
    NormalIsFixed(NormalizedContainerName(name));
    if Normal(name) { NormalIsFixed(name); }
  }

  lemma NormalIsFixed(name: string)
    requires Normal(name)
    ensures NormalizedContainerName(name) == name
  {
    assert Replaced(name) == name;
    assert name[0] == PREFIX[0];
    assert TrimLeft(name) == name;
    assert TrimRight(name) == name;
  }

  /** A character that sanitizing turns into, or leaves as, a hyphen. */
  predicate Hyphened(c: char) { !Plain(c) || c == '-' }

  predicate AllHyphened(s: string) { forall i :: 0 <= i < |s| ==> Hyphened(s[i]) }

  /** Text that neither starts nor ends with such a character. */
  predicate Core(s: string) { s == "" || (!Hyphened(s[0]) && !Hyphened(s[|s| - 1])) }

  /** Every name is a core between characters that come to nothing. */
  lemma EveryNameHasACore(name: string) returns (before: string, core: string, after: string)
    ensures name == before + core + after && AllHyphened(before) && AllHyphened(after) && Core(core)
  {
    var i := 0;
    while i < |name| && Hyphened(name[i])
      invariant i <= |name| && AllHyphened(name[..i])
    {
      i := i + 1;
    }
    var j := |name|;
    while i < j && Hyphened(name[j - 1])
      invariant i <= j <= |name| && AllHyphened(name[j..])
    {
      j := j - 1;
    }
    before, core, after := name[..i], name[i..j], name[j..];
  }

  lemma TrimLeftIs(s: string, n: nat)
    requires n <= |s| && (forall i :: 0 <= i < n ==> s[i] == '-') && (n < |s| ==> s[n] != '-')
    ensures TrimLeft(s) == s[n..]
  {
    hide TrimLeft;
    var r := TrimLeft(s);
    assert r != "" ==> r[0] == s[|s| - |r|];
  }

  lemma TrimRightIs(s: string, n: nat)
    requires n <= |s| && (forall i :: n <= i < |s| ==> s[i] == '-') && (0 < n ==> s[n - 1] != '-')
    ensures TrimRight(s) == s[..n]
  {
    hide TrimRight;
    var r := TrimRight(s);
    assert r != "" ==> r[|r| - 1] == s[|r| - 1];
  }

  /** What sanitizing makes of any name: its core with every invalid character replaced
      by a hyphen, and "unnamed" only when no core is left. */
  lemma SanitizedExactly(before: string, core: string, after: string)
    requires AllHyphened(before) && AllHyphened(after) && Core(core)
    ensures SanitizeName(before + core + after) == if core == "" then "unnamed" else Replaced(core)
  {
    hide Replaced, TrimLeft, TrimRight, Plain;
    var all := Replaced(before + core + after);
    ReplacedParts(before, core, after);
    var n := if core == "" then |all| else |before|;
    TrimLeftIs(all, n);
    var left := all[n..];
    TrimRightIs(left, |core|);
    assert left[..|core|] == Replaced(core);
  }

  lemma ReplacedParts(before: string, core: string, after: string)
    requires AllHyphened(before) && AllHyphened(after) && Core(core)
    ensures var all := Replaced(before + core + after);
      && (forall i :: 0 <= i < |before| ==> all[i] == '-')
      && all[|before|..|before| + |core|] == Replaced(core)
      && (forall i :: |before| + |core| <= i < |all| ==> all[i] == '-')
      && (core != "" ==> all[|before|] != '-' && all[|before| + |core| - 1] != '-')
  { }

  /** ... and what the container is called. */
  lemma NormalizedFully(before: string, core: string, after: string)
    requires AllHyphened(before) && AllHyphened(after) && Core(core)
    ensures NormalizedContainerName(before + core + after) ==
            if core == "" then "yokai-unnamed"
            else if HasPrefix(Replaced(core), "yokai-") then Replaced(core)
            else "yokai-" + Replaced(core)
  {
    hide SanitizeName, Replaced, AllHyphened, Core;
    SanitizedExactly(before, core, after);
    assert core == "" ==> !HasPrefix("unnamed", PREFIX) by { assert "unnamed"[0] != PREFIX[0]; }
    assert "yokai-" + "unnamed" == "yokai-unnamed";
  }

  /** A name that needs no cleaning and has no prefix yet. */
  predicate Clean(s: string) {
    && s != "" && (forall i :: 0 <= i < |s| ==> Plain(s[i])) && s[0] != '-' && s[|s| - 1] != '-'
    && !HasPrefix(s, PREFIX)
  }

  lemma CleanIsPrefixed(s: string)
    requires Clean(s)
    ensures NormalizedContainerName(s) == "yokai-" + s
  {
    hide NormalizedContainerName, Clean, Core, Replaced, HasPrefix;
    CleanIsCore(s);
    assert "" + s + "" == s;
    NormalizedFully("", s, "");
  }

  lemma CleanIsCore(s: string)
    requires Clean(s)
    ensures Core(s) && s != "" && Replaced(s) == s && !HasPrefix(s, "yokai-")
  { }

  /** Launches of different clean names never share a container name, hence no barrier. */
  lemma CleanNamesStayApart(a: string, b: string)
    requires Clean(a) && Clean(b) && a != b
    ensures NormalizedContainerName(a) != NormalizedContainerName(b)
  {
    CleanIsPrefixed(a);
    CleanIsPrefixed(b);
    assert ("yokai-" + a)[6..] == a && ("yokai-" + b)[6..] == b;
  }

  // ---------------------------------------------------------------- member delete

  /** A coordinated launch registers the container name it will use ... */
  function LaunchStep(requested: string): Step { Begin(NormalizedContainerName(requested)) }

  /** ... and a member delete looks under the name in its query as it stands. */
  function DeleteStep(w: Waiter, query: string): Step { Look(w, query) }

  /** A delete that passes under the query `query` has let every launch that registered
      before it looked settle first, provided the query is that launch's container name
      as normalized. */
  lemma DeleteWaitsForLaunch(s: State, steps: seq<Step>, requested: string, c: Chan, w: Waiter)
    requires Reachable(s, steps) && Do(s, Pass(w)).Some? && c in s.watches[w].before
    requires c in s.operations ==> s.operations[c].name == NormalizedContainerName(requested)
    requires s.watches[w].name == NormalizedContainerName(requested)
    ensures c in s.operations && s.operations[c].settled
  {
    hide NormalizedContainerName;
    WaitOvertakesNothing(s, steps, w, Do(s, Pass(w)).value);
  }

  /** Whether a delete that looks right after a launch registered is held back by it:
      exactly when its query is the normalized name. With any other spelling it passes
      while the launch is still unsettled. */
  lemma DeleteIsHeldExactly(requested: string, query: string)
    ensures var steps := [LaunchStep(requested), DeleteStep(0, query)];
      exists t :: Reachable(t, steps) && (Do(t, Pass(0)).None? <==> query == NormalizedContainerName(requested))
        && 0 in t.operations && !t.operations[0].settled
  {
    hide NormalizedContainerName;
    var steps := [LaunchStep(requested), DeleteStep(0, query)];
    var launching := Do(EMPTY, steps[0]).value;
    var t := Do(launching, steps[1]).value;
    assert steps[1..][1..] == [] && steps[1..][0] == steps[1];
    assert Run(t, [], t);
    assert Run(launching, steps[1..], t);
    assert Reachable(t, steps);
  }

  // ---------------------------------------------------------------- admission

  /** The one-token lock before a Qwen GPU launch; a holder's release runs once. */
  class AgentAdmissionLock {
    var tokens: nat
    var holders: set<nat>      // who was ever let in
    var released: set<nat>     // whose sync.Once has fired

    ghost predicate Valid()
      reads this
    {
      released <= holders && tokens + |holders - released| == 1
    }

    constructor ()
      ensures Valid() && holders == {} && tokens == 1
    {
      tokens, holders, released := 1, {}, {};
    }

    /** Lets the caller in only when no one inside is unreleased. */
    method Acquire(holder: nat) returns (ok: bool)
      requires Valid() && holder !in holders
      modifies this
      ensures Valid() && released == old(released)
      ensures ok <==> old(holders) <= old(released)
      ensures holders == if ok then old(holders) + {holder} else old(holders)
    {
      if tokens == 0 {
        return false;
      }
      assert holders - released == {};
      tokens := tokens - 1;
      holders := holders + {holder};
      assert holders - released == {holder};
      return true;
    }

    /** However often it is called, one release gives back one token. */
    method Release(holder: nat)
      requires Valid() && holder in holders
      modifies this
      ensures Valid() && holders == old(holders) && released == old(released) + {holder}
      ensures tokens == if holder in old(released) then old(tokens) else 1
    {
      if holder in released { return; }
      ghost var inside := holders - released;
      assert holder in inside;
      released := released + {holder};
      assert holders - released == inside - {holder};
      tokens := tokens + 1;
    }
  }
}
