/** The branch compiler of the translator (`handleBranch`, `handleSwitcher`,
    `buildScript`): a worklist walk over one script's graph that renders every
    block once, turns a revisit into a Goto and a dead end into a Hangup, and
    queues the targets of a switch.

    The compiler is specified by functions over an abstract `State`: the
    pieces appended to the output so far (`trace`), the local ids already
    handled (`visited`) and the deque of branch starts (`pending`, its last
    element being the deque's last).  The class `BranchState` holds the
    translator's mutable string builder, id set and deque and is proved to
    follow those functions step by step. */
module BranchCompiler {
  import opened Graph
  import opened Lookup

  /** The line appended when a branch runs out of successors. */
  const HangupLine: string := "\tsame = n,Hangup()\n"

  /** The line appended when a branch reaches a block already handled. */
  function GotoLine(labelName: string): string
  {
    "\tsame = n,Goto(" + labelName + ")\n"
  }

  /** One append to the output: the text of a plain block, the text of a
      switch, a jump back to a handled block, or the end of a branch. */
  datatype Piece =
    | Rendered(localId: int, text: string)
    | Switched(localId: int, text: string)
    | Jump(localId: int, labelName: string)
    | Hangup
  {
    /** The piece is the translation of a block. */
    predicate IsRender() { Rendered? || Switched? }

    function Text(): string
    {
      match this
      case Rendered(_, text) => text
      case Switched(_, text) => text
      case Jump(_, labelName) => GotoLine(labelName)
      case Hangup => HangupLine
    }
  }

  /** The output text of a sequence of pieces. */
  function Flatten(trace: seq<Piece>): string
  {
    if trace == [] then "" else Flatten(trace[..|trace| - 1]) + trace[|trace| - 1].Text()
  }

  lemma FlattenSnoc(trace: seq<Piece>, p: Piece)
    ensures Flatten(trace + [p]) == Flatten(trace) + p.Text()
  {
    assert (trace + [p])[..|trace|] == trace;
  }

  datatype State = State(trace: seq<Piece>, visited: set<int>, pending: seq<nat>)

  /** Every queued branch start is a block of the script. */
  ghost predicate PendingIn(script: Script, pending: seq<nat>)
  {
    forall j :: j in pending ==> j < |script.blocks|
  }

  /** What every step of the compiler keeps: the queue stays inside the
      script, and ids are only ever added to `visited`, and only ids of the
      script. */
  ghost predicate Grows(script: Script, st: State, st': State)
  {
    && PendingIn(script, st'.pending)
    && st.visited <= st'.visited <= st.visited + Ids(script)
  }

  /** `Deque.remove(Object)`: drops the first occurrence of `x`. */
  function RemoveFirst(s: seq<nat>, x: nat): (r: seq<nat>)
    ensures x in s ==> |r| == |s| - 1
    ensures x !in s ==> r == s
    ensures forall y :: y in r ==> y in s
    ensures forall y :: y in s && y != x ==> y in r
  {
    if s == [] then []
    else if s[0] == x then s[1..]
    else [s[0]] + RemoveFirst(s[1..], x)
  }

  /** The blocks at the given indices, the case list the switch renders. */
  function BlocksAt(script: Script, indices: seq<nat>): (blocks: seq<Block>)
    requires forall k :: 0 <= k < |indices| ==> indices[k] < |script.blocks|
    ensures |blocks| == |indices|
    ensures forall k :: 0 <= k < |indices| ==> blocks[k] == script.blocks[indices[k]]
  {
    seq(|indices|, k requires 0 <= k < |indices| => script.blocks[indices[k]])
  }

  /** Adding an id of the script that was not visited leaves fewer ids to visit. */
  lemma FewerUnvisited(ids: set<int>, visited: set<int>, visited': set<int>)
    requires visited <= visited' <= visited + ids && visited' != visited
    ensures |ids - visited'| < |ids - visited|
  {
    var added := visited' - visited;
    assert visited' == visited + added;
    assert added <= ids;
    assert ids - visited == (ids - visited') + added;
    assert (ids - visited') * added == {};
  }

  /** `handleSwitcher`: render switch `b` with its Case targets, mark it, and
      queue the Case targets in connection order followed by the default. */
  function Switch(script: Script, renderer: Renderer, host: string, st: State, b: nat): (r: Result<State>)
    requires b < |script.blocks| && PendingIn(script, st.pending)
    ensures r.Ok? ==> Grows(script, st, r.value) && r.value.visited == st.visited + {script.blocks[b].localId}
  {
    var block := script.blocks[b];
    match CaseTargets(script, b, 0)
    case Err(e) => Err(e)
    case Ok(cases) =>
      match DefaultTarget(script, b, 0)
      case Err(e) => Err(e)
      case Ok(f) =>
        Ok(State(st.trace + [Switched(block.localId, SwitchText(script, renderer, host, b, cases))],
                 st.visited + {block.localId}, st.pending + cases + [f]))
  }

  /** The text of switch `b` given its Case targets: the host-dependent
      overload for AGI blocks, the plain case overload otherwise. */
  function SwitchText(script: Script, renderer: Renderer, host: string, b: nat, cases: seq<nat>): string
    requires b < |script.blocks|
    requires forall k :: 0 <= k < |cases| ==> cases[k] < |script.blocks|
  {
    var block := script.blocks[b];
    if block.isAgiComplexBlock then renderer.withCasesAndHost(block, BlocksAt(script, cases), host)
    else renderer.withCases(block, BlocksAt(script, cases))
  }

  /** Render a plain block and mark its id as handled. */
  function RenderPlain(renderer: Renderer, st: State, block: Block): State
  {
    State(st.trace + [Rendered(block.localId, renderer.plain(block))], st.visited + {block.localId}, st.pending)
  }

  /** Close a branch that ran out of successors. */
  function Ended(st: State): State
  {
    State(st.trace + [Hangup], st.visited, st.pending)
  }

  /** The walk of `handleBranch` from block `b`, with `b` already taken off the
      deque. */
  function Walk(script: Script, renderer: Renderer, host: string, st: State, b: nat): (r: Result<State>)
    requires b < |script.blocks| && PendingIn(script, st.pending)
    decreases |Ids(script) - st.visited|
    ensures r.Ok? ==> Grows(script, st, r.value)
    ensures r.Ok? && r.value.visited == st.visited ==> r.value.pending == st.pending
  {
    var block := script.blocks[b];
    if block.localId in st.visited then
      Ok(State(st.trace + [Jump(block.localId, block.labelName)], st.visited, st.pending))
    else if block.isSwitcher then
      Switch(script, renderer, host, st, b)
    else
      var st' := RenderPlain(renderer, st, block);
      match Successor(script, b)
      case Err(e) => Err(e)
      case Ok(None) => Ok(Ended(st'))
      case Ok(Some(n)) =>
        FewerUnvisited(Ids(script), st.visited, st'.visited);
        Walk(script, renderer, host, st', n)
  }

  /** One step of the walk from a block that was not handled yet and is not
      a switch: render it, mark it, and go on to its successor. */
  lemma WalkPlainStep(script: Script, renderer: Renderer, host: string, st: State, b: nat)
    requires b < |script.blocks| && PendingIn(script, st.pending)
    requires script.blocks[b].localId !in st.visited && !script.blocks[b].isSwitcher
    ensures Successor(script, b).Err? ==>
      Walk(script, renderer, host, st, b) == Err(Successor(script, b).error)
    ensures Successor(script, b) == Ok(None) ==>
      Walk(script, renderer, host, st, b) == Ok(Ended(RenderPlain(renderer, st, script.blocks[b])))
    ensures Successor(script, b).Ok? && Successor(script, b).value.Some? ==>
      Walk(script, renderer, host, st, b) ==
        Walk(script, renderer, host, RenderPlain(renderer, st, script.blocks[b]), Successor(script, b).value.value)
  {
  }

  /** `handleBranch`: take the last branch start off the deque (removing its
      first occurrence) and walk from it. */
  function Branch(script: Script, renderer: Renderer, host: string, st: State): (r: Result<State>)
    requires st.pending != [] && PendingIn(script, st.pending)
    ensures r.Ok? ==> Grows(script, st, r.value)
    ensures r.Ok? && r.value.visited == st.visited ==> |r.value.pending| == |st.pending| - 1
  {
    var b := st.pending[|st.pending| - 1];
    Walk(script, renderer, host, State(st.trace, st.visited, RemoveFirst(st.pending, b)), b)
  }

  /** The loop of `buildScript`: handle branches until the deque is empty. */
  function Run(script: Script, renderer: Renderer, host: string, st: State): (r: Result<State>)
    requires PendingIn(script, st.pending)
    decreases |Ids(script) - st.visited|, |st.pending|
    ensures r.Ok? ==> r.value.pending == [] && st.visited <= r.value.visited <= st.visited + Ids(script)
  {
    if st.pending == [] then Ok(st)
    else
      match Branch(script, renderer, host, st)
      case Err(e) => Err(e)
      case Ok(st') =>
        if st'.visited != st.visited then FewerUnvisited(Ids(script), st.visited, st'.visited); Run(script, renderer, host, st')
        else Run(script, renderer, host, st')
  }

  /** `buildScript`: a fresh `visited` set and a deque holding just the start block. */
  function Compile(script: Script, renderer: Renderer, host: string): (r: Result<State>)
    ensures r.Ok? ==> StartIndex(script, 0).Ok? && r.value.pending == [] && r.value.visited <= Ids(script)
    ensures StartIndex(script, 0).Err? ==> r == Err(StartBlockNotFound)
  {
    match StartIndex(script, 0)
    case Err(e) => Err(e)
    case Ok(s) => Run(script, renderer, host, State([], {}, [s]))
  }

  /** The text `buildScript` returns. */
  function ScriptText(script: Script, renderer: Renderer, host: string): Result<string>
  {
    match Compile(script, renderer, host)
    case Ok(st) => Ok(Flatten(st.trace))
    case Err(e) => Err(e)
  }

  /** The string builder, the set of handled ids and the deque of branch
      starts that `buildScript` shares with `handleBranch` and
      `handleSwitcher`.  `trace` records the pieces behind `result`. */
  class BranchState {
    const script: Script
    const renderer: Renderer
    const host: string
    var result: string
    var handledBlocksId: set<int>
    var rootBlocks: seq<nat>
    ghost var trace: seq<Piece>

    ghost predicate Valid()
      reads this
    {
      result == Flatten(trace) && PendingIn(script, rootBlocks)
    }

    ghost function Abs(): State
      reads this
    {
      State(trace, handledBlocksId, rootBlocks)
    }

    /** The empty builder, the empty set, and the deque holding just `start`. */
    constructor (script: Script, renderer: Renderer, host: string, start: nat)
      requires start < |script.blocks|
      ensures Valid()
      ensures this.script == script && this.renderer == renderer && this.host == host
      ensures result == "" && Abs() == State([], {}, [start])
    {
      this.script := script;
      this.renderer := renderer;
      this.host := host;
      result := "";
      handledBlocksId := {};
      rootBlocks := [start];
      trace := [];
    }

    method HandleSwitcher(b: nat) returns (outcome: Outcome)
      requires Valid() && b < |script.blocks|
      modifies this
      ensures Valid()
      ensures outcome.Pass? ==> Switch(script, renderer, host, old(Abs()), b) == Ok(Abs())
      ensures outcome.Fail? ==> Switch(script, renderer, host, old(Abs()), b) == Err(outcome.error)
      ensures outcome.Fail? ==> unchanged(this)
    {
      var trueCaseBlocks := FindTrueCaseBlocks(b, script);
      if trueCaseBlocks.Err? {
        return Fail(trueCaseBlocks.error);
      }
      var falseCaseBlock := FindFalseCaseBlock(b, script);
      if falseCaseBlock.Err? {
        return Fail(falseCaseBlock.error);
      }
      var block := script.blocks[b];
      var text;
      if block.isAgiComplexBlock {
        text := renderer.withCasesAndHost(block, BlocksAt(script, trueCaseBlocks.value), host);
      } else {
        text := renderer.withCases(block, BlocksAt(script, trueCaseBlocks.value));
      }
      assert text == SwitchText(script, renderer, host, b, trueCaseBlocks.value);
      ghost var goal := Switch(script, renderer, host, Abs(), b);
      assert goal == Ok(State(trace + [Switched(block.localId, text)], handledBlocksId + {block.localId},
                              rootBlocks + trueCaseBlocks.value + [falseCaseBlock.value]));
      FlattenSnoc(trace, Switched(block.localId, text));
      result := result + text;
      trace := trace + [Switched(block.localId, text)];
      handledBlocksId := handledBlocksId + {block.localId};
      rootBlocks := rootBlocks + trueCaseBlocks.value;
      rootBlocks := rootBlocks + [falseCaseBlock.value];
      return Pass;
    }

    /** `result.append(...Goto(label)...)` for a revisited block. */
    method AppendGoto(block: Block)
      requires Valid()
      modifies this`result, this`trace
      ensures Valid() && Abs() == State(old(trace) + [Jump(block.localId, block.labelName)], handledBlocksId, rootBlocks)
    {
      FlattenSnoc(trace, Jump(block.localId, block.labelName));
      result := result + GotoLine(block.labelName);
      trace := trace + [Jump(block.localId, block.labelName)];
    }

    /** `result.append(block.translate())` followed by marking the block handled. */
    method AppendBlock(block: Block)
      requires Valid()
      modifies this`result, this`trace, this`handledBlocksId
      ensures Valid() && Abs() == RenderPlain(renderer, old(Abs()), block)
    {
      FlattenSnoc(trace, Rendered(block.localId, renderer.plain(block)));
      result := result + renderer.plain(block);
      trace := trace + [Rendered(block.localId, renderer.plain(block))];
      handledBlocksId := handledBlocksId + {block.localId};
    }

    /** `result.append(...Hangup()...)` at the end of a branch. */
    method AppendHangup()
      requires Valid()
      modifies this`result, this`trace
      ensures Valid() && Abs() == Ended(old(Abs()))
    {
      FlattenSnoc(trace, Hangup);
      result := result + HangupLine;
      trace := trace + [Hangup];
    }

    method HandleBranch() returns (outcome: Outcome)
      requires Valid() && rootBlocks != []
      modifies this
      ensures Valid()
      ensures outcome.Pass? ==> Branch(script, renderer, host, old(Abs())) == Ok(Abs())
      ensures outcome.Fail? ==> Branch(script, renderer, host, old(Abs())) == Err(outcome.error)
    {
      var first := rootBlocks[|rootBlocks| - 1];
      rootBlocks := RemoveFirst(rootBlocks, first);
      ghost var goal := Walk(script, renderer, host, Abs(), first);
      assert goal == Branch(script, renderer, host, old(Abs()));
      var block: Option<nat> := Some(first);
      while block.Some?
        invariant Valid()
        invariant block.Some? ==> block.value < |script.blocks| && goal == Walk(script, renderer, host, Abs(), block.value)
        invariant block.None? ==> goal == Ok(Ended(Abs()))
        decreases |Ids(script) - handledBlocksId|, block.Some?
      {
        var b := block.value;
        var current := script.blocks[b];
        if current.localId in handledBlocksId {
          AppendGoto(current);
          return Pass;
        }
        if current.isSwitcher {
          outcome := HandleSwitcher(b);
          return;
        }
        ghost var before := Abs();
        WalkPlainStep(script, renderer, host, before, b);
        AppendBlock(current);
        FewerUnvisited(Ids(script), before.visited, handledBlocksId);
        var next := FindNextBlock(b, script);
        if next.Err? {
          return Fail(next.error);
        }
        block := next.value;
      }
      AppendHangup();
      return Pass;
    }
  }

  /** `buildScript`. */
  method BuildScript(script: Script, renderer: Renderer, host: string) returns (r: Result<string>)
    ensures r == ScriptText(script, renderer, host)
  {
    var start := FindStartBlock(script);
    if start.Err? {
      return Err(start.error);
    }
    var state := new BranchState(script, renderer, host, start.value);
    while |state.rootBlocks| > 0
      invariant state.Valid()
      invariant state.script == script && state.renderer == renderer && state.host == host
      invariant Compile(script, renderer, host) == Run(script, renderer, host, state.Abs())
      decreases |Ids(script) - state.handledBlocksId|, |state.rootBlocks|
    {
      ghost var before := state.Abs();
      var outcome := state.HandleBranch();
      if outcome.Fail? {
        return Err(outcome.error);
      }
      if state.handledBlocksId != before.visited {
        FewerUnvisited(Ids(script), before.visited, state.handledBlocksId);
      }
    }
    return Ok(state.result);
  }
}
