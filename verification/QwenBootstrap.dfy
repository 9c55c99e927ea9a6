/**
 The in-container bootstrap that backs up, patches and verifies five vLLM sources
 before it replaces itself with the server. Every copy of a file is one step, and
 the container may die between any two of them. Contents are only ever compared by
 digest, so a content is a number and equal digests mean equal contents.
 */
module QwenBootstrap {
  import opened Common

  type Content = nat

  /** What a path holds: nothing, a regular file, or something that is neither. */
  datatype Node = Missing | Regular(content: Content) | Irregular

  datatype Child = Link(name: string) | Copy(content: Content)

  const SOURCES: nat := 5
  const CONFIGS: seq<string> := ["config.json", "hf_quant_config.json"]

  /** The digests written into the program, and what the first of the two tools for
      source 1 hands to the second. */
  datatype Pins = Pins(
    assets: map<string, Content>, pristine: seq<Content>, patched: seq<Content>,
    config: map<string, Content>, configPatched: map<string, Content>, halfway: Content
  ) {
    /** The asset that replaces source 0 is pinned to that source's patched digest. */
    ghost predicate Valid() {
      && |pristine| == SOURCES && |patched| == SOURCES
      && "ple_layer_patched.py" in assets && assets["ple_layer_patched.py"] == patched[0]
      && (forall c :: c in CONFIGS ==> c in config && c in configPatched)
      && (forall t: Tool :: t.File() in assets)
    }
  }

  /** The external programs that do the patching. */
  datatype Tool = ModelOpt | BlockMoe | DraftVocab | Fp8Kv | CheckpointConfig {
    function File(): string {
      match this
      case ModelOpt => "patch_modelopt_mxfp8.py"
      case BlockMoe => "patch_modelopt_fp8_block_moe.py"
      case DraftVocab => "patch_mtp_draft_vocab.py"
      case Fp8Kv => "patch_qsa_fp8_kv.py"
      case CheckpointConfig => "patch_checkpoint_config.py"
    }

    /** What it has to find in the work directory besides itself ... */
    function Inputs(pins: Pins): map<string, Content>
      requires pins.Valid()
    {
      match this
      case ModelOpt => map["modelopt_patched.py.orig" := pins.pristine[1]]
      case BlockMoe => map["modelopt_patched.py.orig" := pins.pristine[1], "modelopt_patched.py" := pins.halfway]
      case DraftVocab => map["mtp_patched.py.orig" := pins.pristine[2]]
      case Fp8Kv =>
        map["qsa_ops_patched.py.orig" := pins.pristine[3], "qsa_nvidia_patched.py.orig" := pins.pristine[4]]
      case CheckpointConfig => map[]
    }

    /** ... and what it then writes there. */
    function Outputs(pins: Pins): map<string, Content>
      requires pins.Valid()
    {
      match this
      case ModelOpt => map["modelopt_patched.py" := pins.halfway]
      case BlockMoe => map["modelopt_patched.py" := pins.patched[1]]
      case DraftVocab => map["mtp_patched.py" := pins.patched[2]]
      case Fp8Kv => map["qsa_ops_patched.py" := pins.patched[3], "qsa_nvidia_patched.py" := pins.patched[4]]
      case CheckpointConfig =>
        map["config_patched.json" := pins.configPatched["config.json"],
            "hf_quant_config_patched.json" := pins.configPatched["hf_quant_config.json"]]
    }
  }

  lemma FileIsPython(t: Tool)
    ensures EndsWith(t.File(), ".py")
  { }

  predicate Holds(work: map<string, Content>, expected: map<string, Content>) {
    forall n :: n in expected ==> n in work && work[n] == expected[n]
  }

  /** Every tool is in the work directory as pinned. */
  ghost predicate Staged(pins: Pins, work: map<string, Content>)
    requires pins.Valid()
  {
    forall t: Tool :: t.File() in work && work[t.File()] == pins.assets[t.File()]
  }

  /** The two tools for source 1 fit together. */
  lemma HandsOver(pins: Pins, work: map<string, Content>)
    requires pins.Valid()
    requires "modelopt_patched.py.orig" in work && work["modelopt_patched.py.orig"] == pins.pristine[1]
    ensures Holds(work, ModelOpt.Inputs(pins)) && Holds(work + ModelOpt.Outputs(pins), BlockMoe.Inputs(pins))
    ensures "modelopt_patched.py" in BlockMoe.Outputs(pins)
    ensures BlockMoe.Outputs(pins)["modelopt_patched.py"] == pins.patched[1]
  {
    hide Tool.File;
    assert "modelopt_patched.py.orig" !in ModelOpt.Outputs(pins);
  }

  /** Nothing but the tools is called patch_... */
  lemma StagedStays(pins: Pins, work: map<string, Content>, more: map<string, Content>)
    requires pins.Valid() && Staged(pins, work) && forall n :: n in more ==> n == "" || n[0] != 'p'
    ensures Staged(pins, work + more)
  {
    forall t: Tool ensures t.File() !in more { assert t.File()[0] == 'p'; }
  }

  lemma OutputsAreNoTools(pins: Pins, tool: Tool)
    requires pins.Valid()
    ensures forall n :: n in tool.Outputs(pins) ==> n == "" || n[0] != 'p'
  { }

  /** What a container keeps from one start to the next, and its two mounts. */
  datatype Files = Files(
    live: seq<Node>, backups: seq<Node>, overlay: map<string, Child>,
    assets: map<string, Content>, model: map<string, Content>
  )

  datatype Outcome =
    | Refused                     // the preflight said no
    | Stopped                     // died, or failed after the preflight
    | Exec(argv: seq<string>)

  predicate SourceOk(pins: Pins, f: Files, i: nat)
    requires i < |f.live| && i < |f.backups| && i < |pins.pristine| && i < |pins.patched|
  {
    && (f.live[i] == Regular(pins.pristine[i]) || f.live[i] == Regular(pins.patched[i]))
    && (f.backups[i] == Missing || f.backups[i] == Regular(pins.pristine[i]))
    && (f.live[i] == Regular(pins.patched[i]) ==> f.backups[i] != Missing)
  }

  /** Every source is pristine or patched, every backup is pristine, and there is a
      backup behind every patched source. */
  ghost predicate Recoverable(pins: Pins, f: Files)
    requires pins.Valid()
  {
    |f.live| == SOURCES && |f.backups| == SOURCES && forall i :: 0 <= i < SOURCES ==> SourceOk(pins, f, i)
  }

  ghost predicate Mounted(pins: Pins, f: Files)
    requires pins.Valid()
  {
    && (forall n :: n in pins.assets ==> n in f.assets && f.assets[n] == pins.assets[n])
    && (forall c :: c in CONFIGS ==> c in f.model && f.model[c] == pins.config[c])
  }

  ghost predicate Acceptable(pins: Pins, f: Files)
    requires pins.Valid()
  {
    Recoverable(pins, f) && Mounted(pins, f)
  }

  function All(cs: seq<Content>): seq<Node> { seq(|cs|, i requires 0 <= i < |cs| => Regular(cs[i])) }

  /** The children `names` of the model directory: links, but copies of the two patched
      configurations. */
  ghost predicate OverlayOf(pins: Pins, names: set<string>, overlay: map<string, Child>)
    requires pins.Valid()
  {
    && overlay.Keys == names
    && forall n :: n in overlay ==> overlay[n] == if n in CONFIGS then Copy(pins.configPatched[n]) else Link(n)
  }

  /** The one state in which the server is ever started. */
  ghost predicate Final(pins: Pins, f: Files)
    requires pins.Valid()
  {
    && f.live == All(pins.patched) && f.backups == All(pins.pristine)
    && OverlayOf(pins, f.model.Keys, f.overlay)
  }

  /** What one start of the bootstrap may do. */
  ghost predicate Ran(pins: Pins, before: Files, after: Files, outcome: Outcome)
    requires pins.Valid()
  {
    && after.assets == before.assets && after.model == before.model
    && (outcome.Refused? <==> !Acceptable(pins, before))
    && (outcome.Refused? ==> after == before)
    && (!outcome.Refused? ==> Acceptable(pins, after))
    && (outcome.Exec? ==> Final(pins, after))
  }

  /** Runs one after another, each interrupted or not. */
  ghost predicate Reruns(pins: Pins, states: seq<Files>, outcomes: seq<Outcome>)
    requires pins.Valid()
  {
    |states| == |outcomes| + 1 && forall i :: 0 <= i < |outcomes| ==> Ran(pins, states[i], states[i + 1], outcomes[i])
  }

  /** From an acceptable state, whatever crashes happen and however often, no later
      start is refused, and every start that gets to the server does so in the same
      state. */
  lemma {:induction false} RerunsConverge(pins: Pins, states: seq<Files>, outcomes: seq<Outcome>)
    requires pins.Valid() && Reruns(pins, states, outcomes) && Acceptable(pins, states[0])
    ensures forall i :: 0 <= i < |states| ==>
          Acceptable(pins, states[i]) && states[i].model == states[0].model && states[i].assets == states[0].assets
    ensures forall i :: 0 <= i < |outcomes| ==> !outcomes[i].Refused?
    ensures forall i :: 0 <= i < |outcomes| && outcomes[i].Exec? ==> Final(pins, states[i + 1])
    ensures forall i, j :: 0 <= i < |outcomes| && 0 <= j < |outcomes| && outcomes[i].Exec? && outcomes[j].Exec? ==>
              states[i + 1] == states[j + 1]
    decreases |outcomes|
  {
    hide Acceptable, Final;
    if outcomes != [] {
      var n := |outcomes| - 1;
      assert Reruns(pins, states[..n + 1], outcomes[..n]);
      RerunsConverge(pins, states[..n + 1], outcomes[..n]);
      assert Ran(pins, states[n], states[n + 1], outcomes[n]);
      assert states[..n + 1][n] == states[n];
      forall i | 0 <= i < |outcomes| ensures !outcomes[i].Refused? {
        if i < n { assert outcomes[..n][i] == outcomes[i]; }
      }
      forall i | 0 <= i < |outcomes| && outcomes[i].Exec? ensures Final(pins, states[i + 1]) {
        if i < n { assert outcomes[..n][i] == outcomes[i] && states[..n + 1][i + 1] == states[i + 1]; }
      }
    }
    forall i, j | 0 <= i < |outcomes| && 0 <= j < |outcomes| && outcomes[i].Exec? && outcomes[j].Exec?
      ensures states[i + 1] == states[j + 1]
    {
      FinalIsUnique(pins, states[i + 1], states[j + 1]);
    }
  }

  lemma FinalIsUnique(pins: Pins, f: Files, g: Files)
    requires pins.Valid() && Final(pins, f) && Final(pins, g) && f.model == g.model && f.assets == g.assets
    ensures f == g
  {
    assert f.overlay == g.overlay;
  }

  /** A state no preflight accepts, such as one with a half-written source, is
      refused by every later start and never changed again. */
  lemma {:induction false} UnacceptableForever(pins: Pins, states: seq<Files>, outcomes: seq<Outcome>)
    requires pins.Valid() && Reruns(pins, states, outcomes) && !Acceptable(pins, states[0])
    ensures forall i :: 0 <= i < |states| ==> states[i] == states[0]
    ensures forall i :: 0 <= i < |outcomes| ==> outcomes[i].Refused?
    decreases |outcomes|
  {
    hide Acceptable, Final;
    if outcomes != [] {
      assert Ran(pins, states[0], states[1], outcomes[0]);
      assert Reruns(pins, states[1..], outcomes[1..]) by {
        forall i | 0 <= i < |outcomes[1..]| ensures Ran(pins, states[1..][i], states[1..][i + 1], outcomes[1..][i]) {
          assert Ran(pins, states[i + 1], states[i + 2], outcomes[i + 1]);
        }
      }
      UnacceptableForever(pins, states[1..], outcomes[1..]);
      forall i | 0 <= i < |states| ensures states[i] == states[0] {
        if 0 < i { assert states[1..][i - 1] == states[i]; }
      }
      forall i | 0 <= i < |outcomes| ensures outcomes[i].Refused? {
        if 0 < i { assert outcomes[1..][i - 1] == outcomes[i]; }
      }
    }
  }

  /** The server's arguments: the only --model must name the model directory and is
      pointed at the overlay. */
  predicate OneModel(args: seq<string>, model: string, at: nat) {
    && at + 1 < |args| && args[at] == "--model" && args[at + 1] == model
    && forall i :: 0 <= i < |args| && args[i] == "--model" ==> i == at
  }

  class Container {
    const pins: Pins
    const modelPath: string
    const overlayPath: string
    const assets: map<string, Content>    // read-only mounts
    const model: map<string, Content>
    var live: seq<Node>
    var backups: seq<Node>
    var work: map<string, Content>
    var overlay: map<string, Child>

    ghost function Now(): Files
      reads this`live, this`backups, this`overlay
    {
      Files(live, backups, overlay, assets, model)
    }

    ghost predicate Shape()
      reads this`live, this`backups
    {
      pins.Valid() && |live| == SOURCES && |backups| == SOURCES
    }

    /** Sources below `n` are patched, the others acceptable; all backups are there. */
    ghost predicate PatchedTo(n: nat)
      reads this`live, this`backups, this`overlay
    {
      && Shape() && Acceptable(pins, Now()) && backups == All(pins.pristine)
      && n <= SOURCES && forall i :: 0 <= i < n ==> live[i] == Regular(pins.patched[i])
    }

    /** Nothing is written before every asset, source, backup and model file passed. */
    method Preflight() returns (ok: bool)
      requires Shape()
      ensures ok <==> Acceptable(pins, Now())
    {
      var names := pins.assets.Keys;
      while names != {}
        invariant names <= pins.assets.Keys
        invariant forall n :: n in pins.assets && n !in names ==> n in assets && assets[n] == pins.assets[n]
        decreases names
      {
        var name :| name in names;
        if name !in assets || assets[name] != pins.assets[name] { return false; }
        names := names - {name};
      }
      for index := 0 to SOURCES
        invariant forall i :: 0 <= i < index ==> SourceOk(pins, Now(), i)
      {
        ghost var acceptable := SourceOk(pins, Now(), index);
        if live[index] != Regular(pins.pristine[index]) && live[index] != Regular(pins.patched[index]) { return false; }
        if backups[index] != Missing && backups[index] != Regular(pins.pristine[index]) { return false; }
        if live[index] == Regular(pins.patched[index]) && !backups[index].Regular? { return false; }
      }
      for c := 0 to |CONFIGS|
        invariant forall d :: 0 <= d < c ==> CONFIGS[d] in model && model[CONFIGS[d]] == pins.config[CONFIGS[d]]
      {
        var name := CONFIGS[c];
        if name !in model || model[name] != pins.config[name] { return false; }
      }
      return true;
    }

    /** Copies each source that has no backup yet, then verifies the backup. */
    method BackUp(calm: bool) returns (ok: bool)
      requires Shape() && Acceptable(pins, Now())
      modifies this`backups
      ensures Acceptable(pins, Now())
      ensures (calm ==> ok) && (ok ==> PatchedTo(0))
    {
      for index := 0 to SOURCES
        invariant |backups| == SOURCES && Acceptable(pins, Now())
        invariant forall i :: 0 <= i < index ==> backups[i] == Regular(pins.pristine[i])
      {
        assert SourceOk(pins, Now(), index);
        if backups[index] == Missing {
          var alive: bool := *;
          if !alive && !calm { return false; }
          ghost var was := Now();
          backups := backups[index := live[index]];
          forall i | 0 <= i < SOURCES ensures SourceOk(pins, Now(), i) { assert SourceOk(pins, was, i); }
        }
        if backups[index] != Regular(pins.pristine[index]) { return false; }
      }
      return true;
    }

    /** What a tool needs to do its work. */
    predicate Sees(tool: Tool)
      requires Shape()
      reads this
    {
      && tool.File() in work && work[tool.File()] == pins.assets[tool.File()]
      && Holds(work, tool.Inputs(pins))
      && (tool.CheckpointConfig? ==> forall c :: c in CONFIGS ==> c in model && model[c] == pins.config[c])
    }

    /** A staged tool finds itself. */
    lemma StagedSees(tool: Tool)
      requires Shape() && Staged(pins, work) && Holds(work, tool.Inputs(pins))
      requires tool.CheckpointConfig? ==> forall c :: c in CONFIGS ==> c in model && model[c] == pins.config[c]
      ensures Sees(tool)
    { }

    /** A patch tool: an external program that may write anything into the work
        directory. When nothing goes wrong and it finds what it needs, it adds its
        pinned outputs. */
    method RunTool(tool: Tool, calm: bool) returns (ok: bool)
      requires Shape()
      modifies this`work
      ensures calm && old(Sees(tool)) ==> ok && work == old(work) + tool.Outputs(pins)
      ensures calm && old(Sees(tool) && Staged(pins, work)) ==> Staged(pins, work)
    {
      hide Staged, Tool.File, Tool.Inputs, Tool.Outputs;
      OutputsAreNoTools(pins, tool);
      if calm && Sees(tool) && Staged(pins, work) { StagedStays(pins, work, tool.Outputs(pins)); }
      if calm && Sees(tool) { work, ok := work + tool.Outputs(pins), true; } else { work, ok := *, *; }
    }

    /** Puts verified contents in the place of one live source. */
    method Install(index: nat, content: Content, calm: bool) returns (alive: bool)
      requires index < SOURCES && PatchedTo(index) && content == pins.patched[index]
      modifies this`live
      ensures if alive then PatchedTo(index + 1) else !calm && Acceptable(pins, Now())
    {
      alive := *;
      alive := alive || calm;
      if !alive { return; }
      ghost var was := Now();
      live := live[index := Regular(content)];
      forall i | 0 <= i < SOURCES ensures SourceOk(pins, Now(), i) { assert SourceOk(pins, was, i); }
    }

    /** The work directory holds copies of these assets and nothing else. */
    ghost predicate Copied(names: set<string>)
      reads this`work
    {
      work.Keys == names && forall n :: n in work ==> n in assets && work[n] == assets[n]
    }

    /** A fresh work directory with a copy of every tool. */
    method PrepareWork(calm: bool) returns (alive: bool)
      modifies this`work
      ensures calm ==> alive
      ensures alive ==> Copied(set n | n in assets && n in pins.assets && EndsWith(n, ".py"))
    {
      work := map[];
      var names := set n | n in assets && n in pins.assets && EndsWith(n, ".py");
      var left := names;
      while left != {}
        invariant left <= names
        invariant names <= assets.Keys && Copied(names - left)
        decreases left
      {
        alive := *;
        alive := alive || calm;
        if !alive { return; }
        var name :| name in left;
        work := work[name := assets[name]];
        left := left - {name};
      }
      return true;
    }

    /** Copies the pristine backup of a source into the work directory. */
    method StageOriginal(index: nat, name: string, calm: bool) returns (alive: bool)
      requires index < SOURCES && PatchedTo(0)
      modifies this`work
      ensures (calm ==> alive) && (alive ==> work == old(work)[name := pins.pristine[index]])
      ensures alive && old(Staged(pins, work)) && name != "" && name[0] != 'p' ==> Staged(pins, work)
    {
      alive := *;
      alive := alive || calm;
      if !alive { return; }
      assert backups[index] == Regular(pins.pristine[index]);
      if Staged(pins, work) && name != "" && name[0] != 'p' {
        StagedStays(pins, work, map[name := backups[index].content]);
        assert work[name := backups[index].content] == work + map[name := backups[index].content];
      }
      work := work[name := backups[index].content];
    }

    /** One tool output: its digest must be the pinned one. */
    predicate Verified(name: string, index: nat)
      requires index < |pins.patched|
      reads this
    {
      name in work && work[name] == pins.patched[index]
    }

    /** Source 1: two tools in a row over one staged original. */
    method PatchModelOpt(calm: bool) returns (ok: bool)
      requires PatchedTo(1)
      modifies this`work, this`live
      ensures if ok then PatchedTo(2) else Acceptable(pins, Now())
      ensures calm && old(Staged(pins, work)) ==> ok && Staged(pins, work)
    {
      hide Acceptable, Tool.File, Tool.Inputs, Tool.Outputs, Staged, Holds;
      ok := StageOriginal(1, "modelopt_patched.py.orig", calm);
      if !ok { return; }
      HandsOver(pins, work);
      if calm && old(Staged(pins, work)) { StagedSees(ModelOpt); }
      ok := RunTool(ModelOpt, calm);
      if !ok { return; }
      if calm && old(Staged(pins, work)) { StagedSees(BlockMoe); }
      ok := RunTool(BlockMoe, calm);
      if !ok || !Verified("modelopt_patched.py", 1) { return false; }
      ok := Install(1, work["modelopt_patched.py"], calm);
    }

    method PatchMtp(calm: bool) returns (ok: bool)
      requires PatchedTo(2)
      modifies this`work, this`live
      ensures if ok then PatchedTo(3) else Acceptable(pins, Now())
      ensures calm && old(Staged(pins, work)) ==> ok && Staged(pins, work)
    {
      hide Acceptable;
      ok := StageOriginal(2, "mtp_patched.py.orig", calm);
      if !ok { return; }
      if calm && old(Staged(pins, work)) { StagedSees(DraftVocab); }
      ok := RunTool(DraftVocab, calm);
      if !ok || !Verified("mtp_patched.py", 2) { return false; }
      ok := Install(2, work["mtp_patched.py"], calm);
    }

    /** Sources 3 and 4: one tool writes both, and both are verified before either is installed. */
    method PatchQsa(calm: bool) returns (ok: bool)
      requires PatchedTo(3)
      modifies this`work, this`live
      ensures if ok then PatchedTo(5) else Acceptable(pins, Now())
      ensures calm && old(Staged(pins, work)) ==> ok && Staged(pins, work)
    {
      hide Acceptable, Tool.File, Staged;
      ok := StageOriginal(3, "qsa_ops_patched.py.orig", calm);
      if !ok { return; }
      ok := StageOriginal(4, "qsa_nvidia_patched.py.orig", calm);
      if !ok { return; }
      if calm && old(Staged(pins, work)) { StagedSees(Fp8Kv); }
      ok := RunTool(Fp8Kv, calm);
      if !ok || !Verified("qsa_ops_patched.py", 3) || !Verified("qsa_nvidia_patched.py", 4) { return false; }
      ok := Install(3, work["qsa_ops_patched.py"], calm);
      if !ok { return; }
      ok := Install(4, work["qsa_nvidia_patched.py"], calm);
    }

    ghost predicate Linked(names: set<string>)
      reads this`overlay
    {
      overlay.Keys == names && forall n :: n in overlay ==> overlay[n] == Link(n)
    }

    /** Links every child of the model directory except the two configurations. */
    method LinkModel(calm: bool) returns (alive: bool)
      modifies this`overlay
      ensures (calm ==> alive) && (alive ==> Linked(model.Keys - (set n | n in CONFIGS)))
    {
      overlay := map[];
      var children := model.Keys - (set n | n in CONFIGS);
      var left := children;
      while left != {}
        invariant left <= children
        invariant Linked(children - left)
        decreases left
      {
        alive := *;
        alive := alive || calm;
        if !alive { return; }
        var child :| child in left;
        overlay := overlay[child := Link(child)];
        left := left - {child};
      }
      return true;
    }

    ghost predicate ConfigsWritten()
      requires Shape()
      reads this
    {
      forall c :: c in CONFIGS ==> ConfigOutput(c) in work && work[ConfigOutput(c)] == pins.configPatched[c]
    }

    /** Each configuration the tool wrote is verified and only then copied. */
    method CopyConfigs(calm: bool) returns (ok: bool)
      requires Shape() && (forall c :: c in CONFIGS ==> c in model)
      requires Linked(model.Keys - (set n | n in CONFIGS))
      modifies this`overlay
      ensures (calm && ConfigsWritten() ==> ok) && (ok ==> OverlayOf(pins, model.Keys, overlay))
    {
      for c := 0 to |CONFIGS|
        invariant OverlayOf(pins, model.Keys - (set n | n in CONFIGS[c..]), overlay)
      {
        var name := CONFIGS[c];
        if ConfigOutput(name) !in work || work[ConfigOutput(name)] != pins.configPatched[name] { return false; }
        ok := *;
        if !ok && !calm { return; }
        overlay := overlay[name := Copy(work[ConfigOutput(name)])];
        assert CONFIGS[c..] == [name] + CONFIGS[c + 1..];
      }
      return true;
    }

    /** positions == [i for i, value in enumerate(args) if value == "--model"] and the
        checks on it, then the argument of --model is replaced. */
    method RewriteModel(args: seq<string>) returns (argv: Option<seq<string>>)
      ensures argv.Some? <==> exists at :: OneModel(args, modelPath, at)
      ensures argv.Some? ==> exists at :: OneModel(args, modelPath, at) && argv.value == args[at + 1 := overlayPath]
    {
      var positions: seq<nat> := [];
      for i := 0 to |args|
        invariant forall j :: 0 <= j < |positions| ==> positions[j] < i && args[positions[j]] == "--model"
        invariant forall k :: 0 <= k < i && args[k] == "--model" ==> k in positions
        invariant forall j, k :: 0 <= j < k < |positions| ==> positions[j] < positions[k]
      {
        if args[i] == "--model" { positions := positions + [i]; }
      }
      if |positions| != 1 {
        if |positions| > 1 { assert positions[0] < positions[1]; }
        return None;
      }
      var at := positions[0];
      if at + 1 >= |args| || args[at + 1] != modelPath { return None; }
      assert OneModel(args, modelPath, at);
      return Some(args[at + 1 := overlayPath]);
    }

    /** Backups first, then the five sources in their order. */
    method PatchSources(calm: bool) returns (ok: bool)
      requires Shape() && Acceptable(pins, Now())
      modifies this`backups, this`work, this`live
      ensures if ok then PatchedTo(SOURCES) else Acceptable(pins, Now())
      ensures calm ==> ok && Staged(pins, work)
    {
      hide Acceptable;
      ok := BackUp(calm);
      if !ok { return; }
      ok := PrepareWork(calm);
      if !ok { return; }
      ToolsAreStaged();
      PleIsPinned();
      ok := Install(0, assets["ple_layer_patched.py"], calm);
      if !ok { return; }
      ok := PatchModelOpt(calm);
      if !ok { return; }
      ok := PatchMtp(calm);
      if !ok { return; }
      ok := PatchQsa(calm);
    }

    lemma ToolsAreStaged()
      requires PatchedTo(0) && Copied(set n | n in assets && n in pins.assets && EndsWith(n, ".py"))
      ensures Staged(pins, work)
    {
      hide EndsWith, Tool.File, Recoverable;
      forall t: Tool ensures t.File() in work && work[t.File()] == pins.assets[t.File()] { FileIsPython(t); }
    }

    lemma PleIsPinned()
      requires PatchedTo(0)
      ensures "ple_layer_patched.py" in assets && assets["ple_layer_patched.py"] == pins.patched[0]
    { }

    /** The overlay model directory with its two patched configurations. */
    method BuildOverlay(calm: bool) returns (ok: bool)
      requires Shape() && Mounted(pins, Now())
      modifies this`overlay, this`work
      ensures (calm && old(Staged(pins, work)) ==> ok) && (ok ==> OverlayOf(pins, model.Keys, overlay))
    {
      hide Tool.File, Staged, OverlayOf;
      ok := LinkModel(calm);
      if !ok { return; }
      if calm && Staged(pins, work) { StagedSees(CheckpointConfig); }
      ok := RunTool(CheckpointConfig, calm);
      if !ok { return; }
      ok := CopyConfigs(calm);
    }

    lemma AllPatched()
      requires PatchedTo(SOURCES) && OverlayOf(pins, model.Keys, overlay)
      ensures Final(pins, Now())
    { }

    /** The whole bootstrap; `calm` says that nothing outside it goes wrong this time. */
    method Run(args: seq<string>, calm: bool) returns (outcome: Outcome)
      requires Shape()
      modifies this
      ensures Shape() && Ran(pins, old(Now()), Now(), outcome)
      ensures calm && Acceptable(pins, old(Now())) && (exists at :: OneModel(args, modelPath, at)) ==> outcome.Exec?
      ensures outcome.Exec? ==>
                exists at ::
                  && OneModel(args, modelPath, at)
                  && outcome.argv == ["vllm", "serve"] + args[at + 1 := overlayPath]
    {
      var ok := Preflight();
      if !ok { return Refused; }
      ok := PatchSources(calm);
      if !ok { return Stopped; }
      ok := BuildOverlay(calm);
      if !ok { return Stopped; }
      AllPatched();
      var argv := RewriteModel(args);
      if argv.None? { return Stopped; }
      return Exec(["vllm", "serve"] + argv.value);
    }
  }

  function ConfigOutput(name: string): string {
    if name == "config.json" then "config_patched.json" else "hf_quant_config_patched.json"
  }

  predicate EndsWith(s: string, suffix: string) {
    |suffix| <= |s| && s[|s| - |suffix|..] == suffix
  }
}
