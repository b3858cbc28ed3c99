/** Small scripts compiled end to end, for every rendering of the blocks:
    a linear chain, a cycle closed by a Goto, a switch without a default,
    which fails, and a switch whose branches are handled default first, then
    the Case targets in reverse order. */
module Scenarios {
  import opened Graph
  import opened Lookup
  import opened BranchCompiler
  import opened BranchProperties

  // ---------------------------------------------------------------------
  // Steps shared by the scenarios

  function Plain(localId: int, kind: string, labelName: string): Block
  {
    Block(localId, kind, labelName, false, false, false)
  }

  /** One round of the `buildScript` loop. */
  lemma RunBranch(script: Script, renderer: Renderer, host: string, st: State)
    requires st.pending != [] && PendingIn(script, st.pending)
    requires Branch(script, renderer, host, st).Ok?
    ensures Run(script, renderer, host, st) == Run(script, renderer, host, Branch(script, renderer, host, st).value)
  {
    var st' := Branch(script, renderer, host, st).value;
    if st'.visited != st.visited {
      FewerUnvisited(Ids(script), st.visited, st'.visited);
    }
  }

  /** A branch from the only block in the deque is a walk from it. */
  lemma BranchOfOne(script: Script, renderer: Renderer, host: string, a: nat)
    requires a < |script.blocks|
    ensures Branch(script, renderer, host, State([], {}, [a])) == Walk(script, renderer, host, State([], {}, []), a)
  {
    assert RemoveFirst([a], a) == [];
  }

  /** `buildScript` starts with one branch from the start block `s`. */
  lemma CompileVia(script: Script, renderer: Renderer, host: string, s: nat, st: State)
    requires StartIndex(script, 0) == Ok(s)
    requires Branch(script, renderer, host, State([], {}, [s])) == Ok(st)
    ensures PendingIn(script, st.pending)
    ensures Compile(script, renderer, host) == Run(script, renderer, host, st)
  {
    RunBranch(script, renderer, host, State([], {}, [s]));
  }

  lemma TextOfCompiled(script: Script, renderer: Renderer, host: string, st: State)
    requires Compile(script, renderer, host) == Ok(st)
    ensures ScriptText(script, renderer, host) == Ok(Flatten(st.trace))
  {
  }

  /** Leaving a fresh plain block for its successor `n`. */
  lemma PlainStep(script: Script, renderer: Renderer, host: string, st: State, b: nat, n: nat)
    requires b < |script.blocks| && PendingIn(script, st.pending)
    requires script.blocks[b].localId !in st.visited && !script.blocks[b].isSwitcher
    requires Successor(script, b) == Ok(Some(n))
    ensures Walk(script, renderer, host, st, b) == Walk(script, renderer, host, RenderPlain(renderer, st, script.blocks[b]), n)
  {
    WalkPlainStep(script, renderer, host, st, b);
  }

  /** Reaching a fresh switch whose Case targets and default are found. */
  lemma SwitchStep(script: Script, renderer: Renderer, host: string, st: State, b: nat, cases: seq<nat>, f: nat)
    requires b < |script.blocks| && PendingIn(script, st.pending)
    requires script.blocks[b].localId !in st.visited && script.blocks[b].isSwitcher
    requires CaseTargets(script, b, 0) == Ok(cases) && DefaultTarget(script, b, 0) == Ok(f)
    ensures Walk(script, renderer, host, st, b) == Ok(State(
      st.trace + [Switched(script.blocks[b].localId, SwitchText(script, renderer, host, b, cases))],
      st.visited + {script.blocks[b].localId}, st.pending + cases + [f]))
  {
  }

  /** A walk from a fresh plain block `a` whose successor is the fresh
      switch `b`. */
  lemma PlainThenSwitch(script: Script, renderer: Renderer, host: string, st: State, a: nat, b: nat, cases: seq<nat>, f: nat)
    requires a < |script.blocks| && b < |script.blocks| && PendingIn(script, st.pending)
    requires !script.blocks[a].isSwitcher && script.blocks[b].isSwitcher
    requires script.blocks[a].localId !in st.visited && script.blocks[b].localId !in st.visited
    requires script.blocks[a].localId != script.blocks[b].localId
    requires Successor(script, a) == Ok(Some(b))
    requires CaseTargets(script, b, 0) == Ok(cases) && DefaultTarget(script, b, 0) == Ok(f)
    ensures Walk(script, renderer, host, st, a) == Ok(State(
      st.trace + [Rendered(script.blocks[a].localId, renderer.plain(script.blocks[a]))]
               + [Switched(script.blocks[b].localId, SwitchText(script, renderer, host, b, cases))],
      st.visited + {script.blocks[a].localId} + {script.blocks[b].localId}, st.pending + cases + [f]))
  {
    PlainStep(script, renderer, host, st, a, b);
    SwitchStep(script, renderer, host, RenderPlain(renderer, st, script.blocks[a]), b, cases, f);
  }

  /** A branch that starts at a block queued once, not handled yet, not a
      switch and with nothing leaving it: the block, then a Hangup. */
  lemma LeafBranch(script: Script, renderer: Renderer, host: string, st: State)
    requires st.pending != [] && PendingIn(script, st.pending)
    requires st.pending[|st.pending| - 1] !in st.pending[..|st.pending| - 1]
    requires var b := st.pending[|st.pending| - 1];
      b < |script.blocks| &&
      var block := script.blocks[b];
      block.localId !in st.visited && !block.isSwitcher && !HasOutgoing(script, block.localId)
    ensures var b := st.pending[|st.pending| - 1];
      Branch(script, renderer, host, st) == Ok(State(
        st.trace + [Rendered(script.blocks[b].localId, renderer.plain(script.blocks[b])), Hangup],
        st.visited + {script.blocks[b].localId}, st.pending[..|st.pending| - 1]))
  {
    var b := st.pending[|st.pending| - 1];
    RemoveFirstAt(st.pending, b, |st.pending| - 1);
    assert st.pending[..|st.pending| - 1] + st.pending[|st.pending|..] == st.pending[..|st.pending| - 1];
    var w := State(st.trace, st.visited, st.pending[..|st.pending| - 1]);
    WalkPlainStep(script, renderer, host, w, b);
    assert st.trace + [Rendered(script.blocks[b].localId, renderer.plain(script.blocks[b]))] + [Hangup] ==
      st.trace + [Rendered(script.blocks[b].localId, renderer.plain(script.blocks[b])), Hangup];
  }

  /** One round of the `buildScript` loop on a leaf, as `LeafBranch` has it. */
  lemma LeafRun(script: Script, renderer: Renderer, host: string, st: State)
    requires st.pending != [] && PendingIn(script, st.pending)
    requires st.pending[|st.pending| - 1] !in st.pending[..|st.pending| - 1]
    requires var b := st.pending[|st.pending| - 1];
      b < |script.blocks| &&
      var block := script.blocks[b];
      block.localId !in st.visited && !block.isSwitcher && !HasOutgoing(script, block.localId)
    ensures PendingIn(script, st.pending[..|st.pending| - 1])
    ensures var block := script.blocks[st.pending[|st.pending| - 1]];
      Run(script, renderer, host, st) == Run(script, renderer, host, State(
        st.trace + [Rendered(block.localId, renderer.plain(block)), Hangup],
        st.visited + {block.localId}, st.pending[..|st.pending| - 1]))
  {
    LeafBranch(script, renderer, host, st);
    RunBranch(script, renderer, host, st);
  }

  /** The first branch's state, built from the empty one. */
  lemma FromEmpty(p: Piece, q: Piece, a: int, b: int, cases: seq<nat>, f: nat)
    ensures [] + [p] + [q] == [p, q]
    ensures {} + {a} + {b} == {a, b}
    ensures [] + cases + [f] == cases + [f]
  {
    var none: seq<Piece> := [];
    assert none + [p] == [p];
    var empty: seq<nat> := [];
    assert empty + cases == cases;
  }

  lemma FlattenTwo(p1: Piece, p2: Piece)
    ensures Flatten([p1, p2]) == p1.Text() + p2.Text()
  {
    assert [p1, p2][..1] == [p1];
    assert [p1][..0] == [];
    assert Flatten([p1]) == p1.Text();
  }

  lemma FlattenThree(p1: Piece, p2: Piece, p3: Piece)
    ensures Flatten([p1, p2, p3]) == p1.Text() + p2.Text() + p3.Text()
  {
    FlattenTwo(p1, p2);
    FlattenSnoc([p1, p2], p3);
    assert [p1, p2, p3] == [p1, p2] + [p3];
  }

  lemma FlattenBranchEnd(trace: seq<Piece>, p: Piece)
    ensures Flatten(trace + [p, Hangup]) == Flatten(trace) + p.Text() + HangupLine
  {
    FlattenSnoc(trace, p);
    FlattenSnoc(trace + [p], Hangup);
    assert trace + [p, Hangup] == trace + [p] + [Hangup];
  }

  /** The text of a trace followed by three branches of one block and a
      Hangup each. */
  lemma FlattenThreeLeaves(trace: seq<Piece>, p1: Piece, p2: Piece, p3: Piece)
    ensures Flatten(trace + [p1, Hangup] + [p2, Hangup] + [p3, Hangup]) ==
      Flatten(trace) + p1.Text() + HangupLine + p2.Text() + HangupLine + p3.Text() + HangupLine
  {
    FlattenBranchEnd(trace, p1);
    FlattenBranchEnd(trace + [p1, Hangup], p2);
    FlattenBranchEnd(trace + [p1, Hangup] + [p2, Hangup], p3);
  }

  // ---------------------------------------------------------------------
  // A linear chain

  /** Start(1) -> B(2), and nothing leaves B. */
  function LinearChain(): Script
  {
    Script([Plain(1, "Start", "s"), Plain(2, "Generic", "b")], [Connection(1, 2)])
  }

  lemma LinearChainCompile(renderer: Renderer, host: string)
    ensures Compile(LinearChain(), renderer, host) == Ok(State(
      [Rendered(1, renderer.plain(Plain(1, "Start", "s"))), Rendered(2, renderer.plain(Plain(2, "Generic", "b"))), Hangup],
      {1, 2}, []))
  {
    var script := LinearChain();
    assert StartIndex(script, 0) == Ok(0);
    var s0 := State([], {}, [0]);
    assert RemoveFirst([0], 0) == [];
    var w0 := State([], {}, []);
    var w1 := RenderPlain(renderer, w0, script.blocks[0]);
    assert Successor(script, 0) == Ok(Some(1)) by {
      assert FirstLeaving(script, 1, 0) == Some(0);
      assert IndexOfId(script, 2, 0) == Ok(1);
    }
    WalkPlainStep(script, renderer, host, w0, 0);
    assert Successor(script, 1) == Ok(None) by {
      assert FirstLeaving(script, 2, 0) == None;
    }
    WalkPlainStep(script, renderer, host, w1, 1);
    var s1 := Ended(RenderPlain(renderer, w1, script.blocks[1]));
    assert Walk(script, renderer, host, w0, 0) == Ok(s1);
    assert Branch(script, renderer, host, s0) == Ok(s1);
    RunBranch(script, renderer, host, s0);
    assert Run(script, renderer, host, s1) == Ok(s1);
    assert Compile(script, renderer, host) == Ok(s1);
    assert s1.trace == [Rendered(1, renderer.plain(Plain(1, "Start", "s"))), Rendered(2, renderer.plain(Plain(2, "Generic", "b"))), Hangup];
    assert s1.visited == {1, 2};
  }

  /** The chain renders Start, then B, then ends the branch with a Hangup. */
  lemma LinearChainText(renderer: Renderer, host: string)
    ensures ScriptText(LinearChain(), renderer, host) ==
      Ok(renderer.plain(Plain(1, "Start", "s")) + renderer.plain(Plain(2, "Generic", "b")) + HangupLine)
  {
    LinearChainCompile(renderer, host);
    FlattenThree(Rendered(1, renderer.plain(Plain(1, "Start", "s"))), Rendered(2, renderer.plain(Plain(2, "Generic", "b"))), Hangup);
  }

  // ---------------------------------------------------------------------
  // A cycle

  /** Start(1) -> B(2) -> C(3) -> B(2): a loop back to B. */
  function Cycle(): Script
  {
    Script([Plain(1, "Start", "s"), Plain(2, "Generic", "b"), Plain(3, "Generic", "c")],
           [Connection(1, 2), Connection(2, 3), Connection(3, 2)])
  }

  lemma CycleSuccessors()
    ensures Successor(Cycle(), 0) == Ok(Some(1))
    ensures Successor(Cycle(), 1) == Ok(Some(2))
    ensures Successor(Cycle(), 2) == Ok(Some(1))
  {
    var script := Cycle();
    assert FirstLeaving(script, 1, 0) == Some(0);
    assert FirstLeaving(script, 2, 0) == Some(1);
    assert FirstLeaving(script, 3, 0) == Some(2);
    assert IndexOfId(script, 2, 0) == Ok(1);
    assert IndexOfId(script, 3, 0) == Ok(2);
  }

  /** The walk from Start: Start, B and C are translated, and the edge back
      to B becomes its Goto. */
  lemma CycleWalk(renderer: Renderer, host: string)
    ensures Walk(Cycle(), renderer, host, State([], {}, []), 0) == Ok(State(
      [Rendered(1, renderer.plain(Plain(1, "Start", "s"))),
       Rendered(2, renderer.plain(Plain(2, "Generic", "b"))),
       Rendered(3, renderer.plain(Plain(3, "Generic", "c"))),
       Jump(2, "b")],
      {1, 2, 3}, []))
  {
    var script := Cycle();
    var w0 := State([], {}, []);
    var w1 := RenderPlain(renderer, w0, script.blocks[0]);
    var w2 := RenderPlain(renderer, w1, script.blocks[1]);
    var w3 := RenderPlain(renderer, w2, script.blocks[2]);
    CycleSuccessors();
    WalkPlainStep(script, renderer, host, w0, 0);
    WalkPlainStep(script, renderer, host, w1, 1);
    WalkPlainStep(script, renderer, host, w2, 2);
    assert 2 in w3.visited;
    assert w3.visited == {1, 2, 3};
    assert w3.trace + [Jump(2, "b")] == [Rendered(1, renderer.plain(Plain(1, "Start", "s"))),
       Rendered(2, renderer.plain(Plain(2, "Generic", "b"))),
       Rendered(3, renderer.plain(Plain(3, "Generic", "c"))),
       Jump(2, "b")];
  }

  lemma CycleCompile(renderer: Renderer, host: string)
    ensures Compile(Cycle(), renderer, host) == Ok(State(
      [Rendered(1, renderer.plain(Plain(1, "Start", "s"))),
       Rendered(2, renderer.plain(Plain(2, "Generic", "b"))),
       Rendered(3, renderer.plain(Plain(3, "Generic", "c"))),
       Jump(2, "b")],
      {1, 2, 3}, []))
  {
    var script := Cycle();
    assert StartIndex(script, 0) == Ok(0);
    var s0 := State([], {}, [0]);
    assert RemoveFirst([0], 0) == [];
    CycleWalk(renderer, host);
    var s1 := Walk(script, renderer, host, State([], {}, []), 0).value;
    assert Branch(script, renderer, host, s0) == Ok(s1);
    RunBranch(script, renderer, host, s0);
    assert Run(script, renderer, host, s1) == Ok(s1);
  }

  /** B and C are translated once each; reaching B again appends its Goto. */
  lemma CycleText(renderer: Renderer, host: string)
    ensures ScriptText(Cycle(), renderer, host) ==
      Ok(renderer.plain(Plain(1, "Start", "s")) + renderer.plain(Plain(2, "Generic", "b"))
         + renderer.plain(Plain(3, "Generic", "c")) + GotoLine("b"))
  {
    CycleCompile(renderer, host);
    var p1 := Rendered(1, renderer.plain(Plain(1, "Start", "s")));
    var p2 := Rendered(2, renderer.plain(Plain(2, "Generic", "b")));
    var p3 := Rendered(3, renderer.plain(Plain(3, "Generic", "c")));
    var p4 := Jump(2, "b");
    FlattenThree(p1, p2, p3);
    FlattenSnoc([p1, p2, p3], p4);
    assert [p1, p2, p3, p4] == [p1, p2, p3] + [p4];
  }

  // ---------------------------------------------------------------------
  // A switch without a default

  /** Start(1) -> S(2), a switch whose only target is the Case block T(3). */
  function NoDefault(): Script
  {
    Script([Plain(1, "Start", "s"),
            Block(2, "Switch", "sw", true, false, false),
            Block(3, "Case", "t", false, true, false)],
           [Connection(1, 2), Connection(2, 3)])
  }

  /** The script fails as a whole with "default case not found": no text of
      it is returned, not even the Start block's. */
  lemma NoDefaultFails(renderer: Renderer, host: string)
    ensures ScriptText(NoDefault(), renderer, host) == Err(DefaultCaseNotFound)
  {
    var script := NoDefault();
    assert StartIndex(script, 0) == Ok(0);
    assert Successor(script, 0) == Ok(Some(1)) by {
      assert FirstLeaving(script, 1, 0) == Some(0);
      assert IndexOfId(script, 2, 0) == Ok(1);
    }
    assert Resolve(script, 1) == Ok(2) by {
      assert IndexOfId(script, 3, 0) == Ok(2);
    }
    var w0 := State([], {}, []);
    WalkPlainStep(script, renderer, host, w0, 0);
    SwitchWithoutDefaultFails(script, renderer, host, RenderPlain(renderer, w0, script.blocks[0]), 1);
    BranchOfOne(script, renderer, host, 0);
  }

  // ---------------------------------------------------------------------
  // A switch

  /** Start(1) -> S(2), a switch with Case targets T1(3) and T2(4), in that
      connection order, and the default F(5); nothing leaves the targets. */
  function Switcher(): Script
  {
    Script([Plain(1, "Start", "s"),
            Block(2, "Switch", "sw", true, false, false),
            Block(3, "Case", "t1", false, true, false),
            Block(4, "Case", "t2", false, true, false),
            Plain(5, "FalseCase", "f")],
           [Connection(1, 2), Connection(2, 3), Connection(2, 4), Connection(2, 5)])
  }

  lemma SwitcherStart()
    ensures Successor(Switcher(), 0) == Ok(Some(1))
  {
    var script := Switcher();
    assert FirstLeaving(script, 1, 0) == Some(0);
    assert IndexOfId(script, 2, 0) == Ok(1);
  }

  /** The switch's Case targets are T1 and T2, in that order, and its
      default is F. */
  lemma SwitcherTargets()
    ensures CaseTargets(Switcher(), 1, 0) == Ok([2, 3])
    ensures DefaultTarget(Switcher(), 1, 0) == Ok(4)
  {
    var script := Switcher();
    assert IndexOfId(script, 3, 0) == Ok(2);
    assert IndexOfId(script, 4, 0) == Ok(3);
    assert IndexOfId(script, 5, 0) == Ok(4);
    assert Resolve(script, 1) == Ok(2) && Resolve(script, 2) == Ok(3) && Resolve(script, 3) == Ok(4);
    assert CaseTargets(script, 1, 4) == Ok([]);
    assert CaseTargets(script, 1, 3) == Ok([]) by {
      var none: seq<nat> := [];
      assert none + none == none;
    }
    assert CaseTargets(script, 1, 2) == Ok([3]) by {
      assert [3] + [] == [3];
    }
    assert CaseTargets(script, 1, 1) == Ok([2, 3]) by {
      assert [2] + [3] == [2, 3];
    }
    assert CaseTargets(script, 1, 0) == Ok([2, 3]);
    assert DefaultTarget(script, 1, 3) == Ok(4);
    assert DefaultTarget(script, 1, 2) == Ok(4);
    assert DefaultTarget(script, 1, 1) == Ok(4);
  }

  /** Nothing leaves the Case targets or the default. */
  lemma SwitcherLeaves()
    ensures !HasOutgoing(Switcher(), 3) && !HasOutgoing(Switcher(), 4) && !HasOutgoing(Switcher(), 5)
  {
    var script := Switcher();
    forall k | 0 <= k < |script.connections|
      ensures script.connections[k].source != 3 && script.connections[k].source != 4 && script.connections[k].source != 5
    {
    }
  }

  lemma SwitcherCasesLine(renderer: Renderer, host: string)
    ensures SwitchText(Switcher(), renderer, host, 1, [2, 3]) ==
      renderer.withCases(Switcher().blocks[1], [Switcher().blocks[2], Switcher().blocks[3]])
  {
    var script := Switcher();
    assert BlocksAt(script, [2, 3]) == [script.blocks[2], script.blocks[3]];
  }

  lemma SwitcherFirstWalk(renderer: Renderer, host: string)
    ensures Walk(Switcher(), renderer, host, State([], {}, []), 0) == Ok(State(
      [Rendered(1, renderer.plain(Switcher().blocks[0])), Switched(2, SwitchText(Switcher(), renderer, host, 1, [2, 3]))],
      {1, 2}, [2, 3] + [4]))
  {
    var script := Switcher();
    SwitcherStart();
    SwitcherTargets();
    PlainThenSwitch(script, renderer, host, State([], {}, []), 0, 1, [2, 3], 4);
    FromEmpty(Rendered(1, renderer.plain(script.blocks[0])), Switched(2, SwitchText(script, renderer, host, 1, [2, 3])), 1, 2, [2, 3], 4);
  }

  /** The first branch: Start, then the switch, which queues T1, T2 and F. */
  lemma SwitcherFirstBranch(renderer: Renderer, host: string)
    ensures Branch(Switcher(), renderer, host, State([], {}, [0])) == Ok(State(
      [Rendered(1, renderer.plain(Switcher().blocks[0])), Switched(2, SwitchText(Switcher(), renderer, host, 1, [2, 3]))],
      {1, 2}, [2, 3] + [4]))
  {
    BranchOfOne(Switcher(), renderer, host, 0);
    SwitcherFirstWalk(renderer, host);
  }

  /** One of the three leaf branches of the switch scenario. */
  lemma SwitcherLeaf(renderer: Renderer, host: string, trace: seq<Piece>, visited: set<int>, pending: seq<nat>)
    requires pending != [] && forall k :: 0 <= k < |pending| ==> 2 <= pending[k] <= 4
    requires Distinct(pending)
    requires Switcher().blocks[pending[|pending| - 1]].localId !in visited
    ensures var block := Switcher().blocks[pending[|pending| - 1]];
      Run(Switcher(), renderer, host, State(trace, visited, pending)) == Run(Switcher(), renderer, host, State(
        trace + [Rendered(block.localId, renderer.plain(block)), Hangup], visited + {block.localId}, pending[..|pending| - 1]))
  {
    SwitcherLeaves();
    var b := pending[|pending| - 1];
    assert b !in pending[..|pending| - 1];
    assert PendingIn(Switcher(), pending);
    LeafRun(Switcher(), renderer, host, State(trace, visited, pending));
  }

  lemma SwitcherDefaultLeaf(renderer: Renderer, host: string, trace: seq<Piece>)
    ensures Run(Switcher(), renderer, host, State(trace, {1, 2}, [2, 3] + [4])) ==
      Run(Switcher(), renderer, host, State(trace + [Rendered(5, renderer.plain(Switcher().blocks[4])), Hangup], {1, 2, 5}, [2, 3]))
  {
    assert ([2, 3] + [4])[..2] == [2, 3];
    assert {1, 2} + {5} == {1, 2, 5};
    SwitcherLeaf(renderer, host, trace, {1, 2}, [2, 3] + [4]);
  }

  lemma SwitcherSecondLeaf(renderer: Renderer, host: string, trace: seq<Piece>)
    ensures Run(Switcher(), renderer, host, State(trace, {1, 2, 5}, [2, 3])) ==
      Run(Switcher(), renderer, host, State(trace + [Rendered(4, renderer.plain(Switcher().blocks[3])), Hangup], {1, 2, 5, 4}, [2]))
  {
    assert [2, 3][..1] == [2];
    assert {1, 2, 5} + {4} == {1, 2, 5, 4};
    SwitcherLeaf(renderer, host, trace, {1, 2, 5}, [2, 3]);
  }

  lemma SwitcherFirstLeaf(renderer: Renderer, host: string, trace: seq<Piece>)
    ensures Run(Switcher(), renderer, host, State(trace, {1, 2, 5, 4}, [2])) ==
      Ok(State(trace + [Rendered(3, renderer.plain(Switcher().blocks[2])), Hangup], {1, 2, 5, 4, 3}, []))
  {
    assert [2][..0] == [];
    assert {1, 2, 5, 4} + {3} == {1, 2, 5, 4, 3};
    SwitcherLeaf(renderer, host, trace, {1, 2, 5, 4}, [2]);
  }

  /** After the switch the deque holds T1, T2, F: F's branch is handled
      first, then T2's, then T1's, each a translation and a Hangup. */
  lemma SwitcherRest(renderer: Renderer, host: string, trace: seq<Piece>)
    ensures Run(Switcher(), renderer, host, State(trace, {1, 2}, [2, 3] + [4])) == Ok(State(
      trace + [Rendered(5, renderer.plain(Switcher().blocks[4])), Hangup]
            + [Rendered(4, renderer.plain(Switcher().blocks[3])), Hangup]
            + [Rendered(3, renderer.plain(Switcher().blocks[2])), Hangup],
      {1, 2, 5, 4, 3}, []))
  {
    var script := Switcher();
    var t1 := trace + [Rendered(5, renderer.plain(script.blocks[4])), Hangup];
    var t2 := t1 + [Rendered(4, renderer.plain(script.blocks[3])), Hangup];
    var t3 := t2 + [Rendered(3, renderer.plain(script.blocks[2])), Hangup];
    SwitcherDefaultLeaf(renderer, host, trace);
    SwitcherSecondLeaf(renderer, host, t1);
    SwitcherFirstLeaf(renderer, host, t2);
  }

  /** The whole compilation: Start, the switch, then F's branch, T2's and
      T1's, each ended by a Hangup. */
  lemma SwitcherCompile(renderer: Renderer, host: string)
    ensures var blocks := Switcher().blocks;
      Compile(Switcher(), renderer, host) == Ok(State(
        [Rendered(1, renderer.plain(blocks[0])), Switched(2, SwitchText(Switcher(), renderer, host, 1, [2, 3]))]
        + [Rendered(5, renderer.plain(blocks[4])), Hangup]
        + [Rendered(4, renderer.plain(blocks[3])), Hangup]
        + [Rendered(3, renderer.plain(blocks[2])), Hangup],
        {1, 2, 5, 4, 3}, []))
  {
    var script := Switcher();
    var first := [Rendered(1, renderer.plain(script.blocks[0])), Switched(2, SwitchText(script, renderer, host, 1, [2, 3]))];
    assert StartIndex(script, 0) == Ok(0);
    SwitcherFirstBranch(renderer, host);
    CompileVia(script, renderer, host, 0, State(first, {1, 2}, [2, 3] + [4]));
    SwitcherRest(renderer, host, first);
  }

  /** The switch line carries its two Case blocks in connection order; the
      default F is translated right after it and T1 last. */
  lemma SwitcherText(renderer: Renderer, host: string)
    ensures var blocks := Switcher().blocks;
      ScriptText(Switcher(), renderer, host) == Ok(
        renderer.plain(blocks[0]) + renderer.withCases(blocks[1], [blocks[2], blocks[3]])
        + renderer.plain(blocks[4]) + HangupLine
        + renderer.plain(blocks[3]) + HangupLine
        + renderer.plain(blocks[2]) + HangupLine)
  {
    var script := Switcher();
    var blocks := script.blocks;
    var first := [Rendered(1, renderer.plain(blocks[0])), Switched(2, SwitchText(script, renderer, host, 1, [2, 3]))];
    var p3, p4, p5 := Rendered(5, renderer.plain(blocks[4])), Rendered(4, renderer.plain(blocks[3])), Rendered(3, renderer.plain(blocks[2]));
    SwitcherCompile(renderer, host);
    SwitcherCasesLine(renderer, host);
    FlattenTwo(first[0], first[1]);
    FlattenThreeLeaves(first, p3, p4, p5);
    TextOfCompiled(script, renderer, host, State(first + [p3, Hangup] + [p4, Hangup] + [p5, Hangup], {1, 2, 5, 4, 3}, []));
  }
}
