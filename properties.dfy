/** What the branch compiler guarantees about the text it builds: every block
    is translated at most once and every Goto jumps back to a block already
    translated; each branch is a run of plain blocks closed by exactly one
    Goto, switch or Hangup, the Hangup coming exactly where the last block has
    no outgoing connection; a switch queues its default target last; and, for
    a script whose local ids are unique, every block reachable from the start
    block is translated. */
module BranchProperties {
  import opened Graph
  import opened Lookup
  import opened BranchCompiler

  /** The ids of the blocks whose translation is in the trace. */
  ghost function RenderedIds(trace: seq<Piece>): set<int>
  {
    set k | 0 <= k < |trace| && trace[k].IsRender() :: trace[k].localId
  }

  /** No block id is translated twice. */
  ghost predicate RendersOnce(trace: seq<Piece>)
  {
    forall i, j :: 0 <= i < j < |trace| && trace[i].IsRender() && trace[j].IsRender() ==>
      trace[i].localId != trace[j].localId
  }

  /** Every Goto names a block whose translation comes earlier. */
  ghost predicate JumpsBack(trace: seq<Piece>)
  {
    forall k :: 0 <= k < |trace| && trace[k].Jump? ==>
      exists j :: 0 <= j < k && trace[j].IsRender() && trace[j].localId == trace[k].localId
  }

  ghost predicate Consistent(st: State)
  {
    st.visited == RenderedIds(st.trace) && RendersOnce(st.trace) && JumpsBack(st.trace)
  }

  lemma ConsistentRender(st: State, p: Piece, pending: seq<nat>)
    requires Consistent(st) && p.IsRender() && p.localId !in st.visited
    ensures Consistent(State(st.trace + [p], st.visited + {p.localId}, pending))
  {
    var t := st.trace + [p];
    assert RenderedIds(t) == RenderedIds(st.trace) + {p.localId} by {
      assert forall k :: 0 <= k < |st.trace| ==> t[k] == st.trace[k];
      assert t[|st.trace|] == p;
    }
    forall i, j | 0 <= i < j < |t| && t[i].IsRender() && t[j].IsRender()
      ensures t[i].localId != t[j].localId
    {
      if j == |st.trace| {
        assert t[i].localId in RenderedIds(st.trace) by { assert st.trace[i] == t[i]; }
      } else {
        assert st.trace[i] == t[i] && st.trace[j] == t[j];
      }
    }
    forall k | 0 <= k < |t| && t[k].Jump?
      ensures exists j :: 0 <= j < k && t[j].IsRender() && t[j].localId == t[k].localId
    {
      assert k < |st.trace| && st.trace[k] == t[k];
      var j :| 0 <= j < k && st.trace[j].IsRender() && st.trace[j].localId == st.trace[k].localId;
      assert t[j] == st.trace[j];
    }
  }

  lemma ConsistentExit(st: State, p: Piece, pending: seq<nat>)
    requires Consistent(st) && (p == Hangup || (p.Jump? && p.localId in st.visited))
    ensures Consistent(State(st.trace + [p], st.visited, pending))
  {
    var t := st.trace + [p];
    assert RenderedIds(t) == RenderedIds(st.trace) by {
      assert forall k :: 0 <= k < |st.trace| ==> t[k] == st.trace[k];
      assert t[|st.trace|] == p;
    }
    forall i, j | 0 <= i < j < |t| && t[i].IsRender() && t[j].IsRender()
      ensures t[i].localId != t[j].localId
    {
      assert st.trace[i] == t[i] && st.trace[j] == t[j];
    }
    forall k | 0 <= k < |t| && t[k].Jump?
      ensures exists j :: 0 <= j < k && t[j].IsRender() && t[j].localId == t[k].localId
    {
      if k == |st.trace| {
        var j :| 0 <= j < |st.trace| && st.trace[j].IsRender() && st.trace[j].localId == p.localId;
        assert t[j] == st.trace[j];
      } else {
        assert st.trace[k] == t[k];
        var j :| 0 <= j < k && st.trace[j].IsRender() && st.trace[j].localId == st.trace[k].localId;
        assert t[j] == st.trace[j];
      }
    }
  }

  lemma {:induction false} WalkConsistent(script: Script, renderer: Renderer, host: string, st: State, b: nat)
    requires b < |script.blocks| && PendingIn(script, st.pending) && Consistent(st)
    requires Walk(script, renderer, host, st, b).Ok?
    ensures Consistent(Walk(script, renderer, host, st, b).value)
    decreases |Ids(script) - st.visited|
  {
    var block := script.blocks[b];
    if block.localId in st.visited {
      ConsistentExit(st, Jump(block.localId, block.labelName), st.pending);
    } else if block.isSwitcher {
      var cases := CaseTargets(script, b, 0).value;
      var f := DefaultTarget(script, b, 0).value;
      ConsistentRender(st, Switched(block.localId, SwitchText(script, renderer, host, b, cases)), st.pending + cases + [f]);
    } else {
      var st' := RenderPlain(renderer, st, block);
      ConsistentRender(st, Rendered(block.localId, renderer.plain(block)), st.pending);
      WalkPlainStep(script, renderer, host, st, b);
      match Successor(script, b)
      case Ok(None) =>
        ConsistentExit(st', Hangup, st'.pending);
      case Ok(Some(n)) =>
        FewerUnvisited(Ids(script), st.visited, st'.visited);
        WalkConsistent(script, renderer, host, st', n);
    }
  }

  lemma BranchConsistent(script: Script, renderer: Renderer, host: string, st: State)
    requires st.pending != [] && PendingIn(script, st.pending) && Consistent(st)
    requires Branch(script, renderer, host, st).Ok?
    ensures Consistent(Branch(script, renderer, host, st).value)
  {
    var b := st.pending[|st.pending| - 1];
    WalkConsistent(script, renderer, host, State(st.trace, st.visited, RemoveFirst(st.pending, b)), b);
  }

  lemma {:induction false} RunConsistent(script: Script, renderer: Renderer, host: string, st: State)
    requires PendingIn(script, st.pending) && Consistent(st)
    requires Run(script, renderer, host, st).Ok?
    ensures Consistent(Run(script, renderer, host, st).value)
    decreases |Ids(script) - st.visited|, |st.pending|
  {
    if st.pending != [] {
      var st' := Branch(script, renderer, host, st).value;
      BranchConsistent(script, renderer, host, st);
      if st'.visited != st.visited {
        FewerUnvisited(Ids(script), st.visited, st'.visited);
      }
      RunConsistent(script, renderer, host, st');
    }
  }

  /** Within one compiled script each block id contributes its translation at
      most once, `visited` holds exactly the translated ids, and every Goto
      jumps back to a block translated earlier. */
  lemma CompiledRendersOnce(script: Script, renderer: Renderer, host: string)
    requires Compile(script, renderer, host).Ok?
    ensures var st := Compile(script, renderer, host).value;
      && RendersOnce(st.trace)
      && JumpsBack(st.trace)
      && st.visited == RenderedIds(st.trace)
  {
    var s := StartIndex(script, 0).value;
    RunConsistent(script, renderer, host, State([], {}, [s]));
  }

  // ---------------------------------------------------------------------
  // The shape of one branch

  /** The pieces one `handleBranch` appends: plain translations, then exactly
      one Goto, switch translation or Hangup; a plain block is followed by
      Hangup exactly when no connection leaves it. */
  ghost predicate BranchShaped(script: Script, seg: seq<Piece>)
  {
    && |seg| >= 1
    && (forall k :: 0 <= k < |seg| - 1 ==> seg[k].Rendered?)
    && !seg[|seg| - 1].Rendered?
    && (seg[|seg| - 1] == Hangup ==> |seg| >= 2)
    && (forall k :: 0 <= k < |seg| - 1 ==> (seg[k + 1] == Hangup <==> !HasOutgoing(script, seg[k].localId)))
  }

  /** `t'` is `t` followed by one well-shaped branch. */
  ghost predicate ExtendedByBranch(script: Script, t: seq<Piece>, t': seq<Piece>)
  {
    |t| < |t'| && t'[..|t|] == t && BranchShaped(script, t'[|t|..])
  }

  lemma {:induction false} WalkShape(script: Script, renderer: Renderer, host: string, st: State, b: nat)
    requires b < |script.blocks| && PendingIn(script, st.pending)
    requires Walk(script, renderer, host, st, b).Ok?
    ensures ExtendedByBranch(script, st.trace, Walk(script, renderer, host, st, b).value.trace)
    decreases |Ids(script) - st.visited|
  {
    var block := script.blocks[b];
    var st' := Walk(script, renderer, host, st, b).value;
    if block.localId in st.visited {
      ExitShaped(script, st.trace, Jump(block.localId, block.labelName));
    } else if block.isSwitcher {
      var cases := CaseTargets(script, b, 0).value;
      ExitShaped(script, st.trace, Switched(block.localId, SwitchText(script, renderer, host, b, cases)));
    } else {
      var st1 := RenderPlain(renderer, st, block);
      var p := Rendered(block.localId, renderer.plain(block));
      WalkPlainStep(script, renderer, host, st, b);
      match Successor(script, b)
      case Ok(None) =>
        HangupShaped(script, st.trace, p);
      case Ok(Some(n)) =>
        FewerUnvisited(Ids(script), st.visited, st1.visited);
        WalkShape(script, renderer, host, st1, n);
        ShapedCons(script, st.trace, p, st'.trace);
    }
  }

  lemma ExitShaped(script: Script, t: seq<Piece>, x: Piece)
    requires !x.Rendered? && x != Hangup
    ensures ExtendedByBranch(script, t, t + [x])
  {
    assert (t + [x])[|t|..] == [x];
  }

  lemma HangupShaped(script: Script, t: seq<Piece>, p: Piece)
    requires p.Rendered? && !HasOutgoing(script, p.localId)
    ensures ExtendedByBranch(script, t, t + [p] + [Hangup])
  {
    assert (t + [p] + [Hangup])[|t|..] == [p, Hangup];
  }

  /** A plain block that has an outgoing connection, followed by a branch. */
  lemma ShapedCons(script: Script, t: seq<Piece>, p: Piece, t': seq<Piece>)
    requires p.Rendered? && HasOutgoing(script, p.localId) && ExtendedByBranch(script, t + [p], t')
    ensures ExtendedByBranch(script, t, t')
  {
    var seg := t'[|t| + 1..];
    var seg' := t'[|t|..];
    assert t'[..|t|] == (t + [p])[..|t|] == t;
    assert seg' == [p] + seg;
    assert seg[0] != Hangup;
    forall k | 0 <= k < |seg'| - 1
      ensures seg'[k + 1] == Hangup <==> !HasOutgoing(script, seg'[k].localId)
    {
      if k > 0 {
        assert seg'[k] == seg[k - 1] && seg'[k + 1] == seg[k];
      }
    }
  }

  /** One `handleBranch` appends a well-shaped run of pieces and changes
      nothing already appended. */
  lemma BranchShape(script: Script, renderer: Renderer, host: string, st: State)
    requires st.pending != [] && PendingIn(script, st.pending)
    requires Branch(script, renderer, host, st).Ok?
    ensures ExtendedByBranch(script, st.trace, Branch(script, renderer, host, st).value.trace)
  {
    var b := st.pending[|st.pending| - 1];
    WalkShape(script, renderer, host, State(st.trace, st.visited, RemoveFirst(st.pending, b)), b);
  }

  /** A block already handled is not translated again: the walk appends
      exactly the Goto line for its label and ends the branch. */
  lemma RevisitAppendsGoto(script: Script, renderer: Renderer, host: string, st: State, b: nat)
    requires b < |script.blocks| && PendingIn(script, st.pending)
    requires script.blocks[b].localId in st.visited
    ensures Walk(script, renderer, host, st, b).Ok?
    ensures var st' := Walk(script, renderer, host, st, b).value;
      && st'.visited == st.visited && st'.pending == st.pending
      && Flatten(st'.trace) == Flatten(st.trace) + "\tsame = n,Goto(" + script.blocks[b].labelName + ")\n"
  {
    var block := script.blocks[b];
    FlattenSnoc(st.trace, Jump(block.localId, block.labelName));
  }

  // ---------------------------------------------------------------------
  // Switches

  /** A switch whose targets all exist but none of which is a FalseCase
      block fails with "default case not found". */
  lemma SwitchWithoutDefaultFails(script: Script, renderer: Renderer, host: string, st: State, b: nat)
    requires b < |script.blocks| && PendingIn(script, st.pending)
    requires script.blocks[b].localId !in st.visited && script.blocks[b].isSwitcher
    requires forall k :: 0 <= k < |script.connections| && Leaves(script, script.blocks[b].localId, k) ==>
      Resolve(script, k).Ok? && script.blocks[Resolve(script, k).value].kind != "FalseCase"
    ensures Walk(script, renderer, host, st, b) == Err(DefaultCaseNotFound)
  {
  }

  /** A switch that is translated queues its Case targets in connection order
      and then its default target, so the deque's last element, the next
      branch to be handled, is the FalseCase block. */
  lemma SwitchQueuesDefaultLast(script: Script, renderer: Renderer, host: string, st: State, b: nat)
    requires b < |script.blocks| && PendingIn(script, st.pending)
    requires script.blocks[b].localId !in st.visited && script.blocks[b].isSwitcher
    requires Walk(script, renderer, host, st, b).Ok?
    ensures CaseTargets(script, b, 0).Ok? && DefaultTarget(script, b, 0).Ok?
    ensures var st' := Walk(script, renderer, host, st, b).value;
      var f := DefaultTarget(script, b, 0).value;
      && st'.pending == st.pending + CaseTargets(script, b, 0).value + [f]
      && st'.pending[|st'.pending| - 1] == f
      && script.blocks[f].kind == "FalseCase"
      && (forall j :: j in CaseTargets(script, b, 0).value ==> script.blocks[j].isCaseBlock)
  {
    var cases := CaseTargets(script, b, 0).value;
    forall j | j in cases
      ensures script.blocks[j].isCaseBlock
    {
      var k :| 0 <= k < |cases| && cases[k] == j;
    }
  }

  // ---------------------------------------------------------------------
  // The pop of `handleBranch`: take the last, remove the first equal one

  /** The position of the first occurrence of `x` in `s`. */
  function FirstIndex(s: seq<nat>, x: nat): (i: nat)
    requires x in s
    ensures i < |s| && s[i] == x && x !in s[..i]
  {
    if s[0] == x then 0
    else
      var i := 1 + FirstIndex(s[1..], x);
      assert s[..i] == [s[0]] + s[1..][..i - 1];
      i
  }

  /** `RemoveFirst` drops exactly the first occurrence. */
  lemma {:induction false} RemoveFirstAt(s: seq<nat>, x: nat, i: nat)
    requires i < |s| && s[i] == x && x !in s[..i]
    ensures RemoveFirst(s, x) == s[..i] + s[i + 1..]
  {
    if i == 0 {
      assert s[..0] + s[1..] == s[1..];
    } else {
      assert s[0] in s[..i];
      assert s[1..][..i - 1] == s[1..i];
      RemoveFirstAt(s[1..], x, i - 1);
      assert s[..i] == [s[0]] + s[1..i];
      assert s[1..][i..] == s[i + 1..];
    }
  }

  ghost predicate Distinct(s: seq<nat>)
  {
    forall i, j :: 0 <= i < j < |s| ==> s[i] != s[j]
  }

  /** When the deque holds no block twice, the pop is a plain pop of the last
      element. */
  lemma PopOfDistinctIsLast(s: seq<nat>)
    requires s != [] && Distinct(s)
    ensures RemoveFirst(s, s[|s| - 1]) == s[..|s| - 1]
  {
    var x := s[|s| - 1];
    assert forall k :: 0 <= k < |s| - 1 ==> s[..|s| - 1][k] == s[k];
    RemoveFirstAt(s, x, |s| - 1);
    assert s[..|s| - 1] + s[|s|..] == s[..|s| - 1];
  }

  /** When the last block of the deque also occurs earlier, the pop removes
      the earlier copy and the same block stays last: the next
      `handleBranch` takes it again and, its id now handled, emits a Goto. */
  lemma PopOfRepeatedKeepsItLast(s: seq<nat>)
    requires |s| >= 2 && s[|s| - 1] in s[..|s| - 1]
    ensures var r := RemoveFirst(s, s[|s| - 1]);
      |r| == |s| - 1 && r[|r| - 1] == s[|s| - 1]
  {
    var x := s[|s| - 1];
    var i := FirstIndex(s, x);
    RemoveFirstAt(s, x, i);
    var k :| 0 <= k < |s| - 1 && s[..|s| - 1][k] == x;
    assert forall j :: 0 <= j < i ==> s[..i][j] == s[j];
  }

  lemma WalkHandlesStart(script: Script, renderer: Renderer, host: string, st: State, b: nat)
    requires b < |script.blocks| && PendingIn(script, st.pending)
    requires Walk(script, renderer, host, st, b).Ok?
    ensures script.blocks[b].localId in Walk(script, renderer, host, st, b).value.visited
  {
    var block := script.blocks[b];
    if block.localId !in st.visited && !block.isSwitcher {
      WalkPlainStep(script, renderer, host, st, b);
    }
  }

  // ---------------------------------------------------------------------
  // Coverage: every reachable block is translated

  /** Block `c` is one the compiler goes on to from block `b`: a Case target
      or the default of a switch, or the successor of a plain block. */
  ghost predicate Step(script: Script, b: nat, c: nat)
    requires b < |script.blocks|
  {
    if script.blocks[b].isSwitcher then
      (CaseTargets(script, b, 0).Ok? && c in CaseTargets(script, b, 0).value) || DefaultTarget(script, b, 0) == Ok(c)
    else Successor(script, b) == Ok(Some(c))
  }

  /** Block `j` is translated, queued, or the one the walk stands on. */
  ghost predicate Covered(script: Script, st: State, j: nat, cur: Option<nat>)
  {
    j < |script.blocks| && (script.blocks[j].localId in st.visited || j in st.pending || cur == Some(j))
  }

  /** Every step out of a handled block leads to a covered block. */
  ghost predicate Closed(script: Script, st: State, cur: Option<nat>)
  {
    forall b, c :: 0 <= b < |script.blocks| && script.blocks[b].localId in st.visited && Step(script, b, c) ==>
      Covered(script, st, c, cur)
  }

  lemma StepInRange(script: Script, b: nat, c: nat)
    requires b < |script.blocks| && Step(script, b, c)
    ensures c < |script.blocks|
  {
    if script.blocks[b].isSwitcher && CaseTargets(script, b, 0).Ok? && c in CaseTargets(script, b, 0).value {
      var cases := CaseTargets(script, b, 0).value;
      var k :| 0 <= k < |cases| && cases[k] == c;
    }
  }

  lemma {:induction false} WalkClosed(script: Script, renderer: Renderer, host: string, st: State, b: nat)
    requires UniqueIds(script)
    requires b < |script.blocks| && PendingIn(script, st.pending) && Closed(script, st, Some(b))
    requires Walk(script, renderer, host, st, b).Ok?
    ensures Closed(script, Walk(script, renderer, host, st, b).value, None)
    decreases |Ids(script) - st.visited|
  {
    var block := script.blocks[b];
    if block.localId in st.visited {
      RevisitClosed(script, renderer, host, st, b);
    } else if block.isSwitcher {
      SwitchClosed(script, renderer, host, st, b);
    } else {
      var st1 := RenderPlain(renderer, st, block);
      WalkPlainStep(script, renderer, host, st, b);
      var next := Successor(script, b).value;
      PlainClosed(script, renderer, st, b);
      match next
      case None =>
        assert Walk(script, renderer, host, st, b).value == Ended(st1);
      case Some(n) =>
        FewerUnvisited(Ids(script), st.visited, st1.visited);
        WalkClosed(script, renderer, host, st1, n);
    }
  }

  lemma RevisitClosed(script: Script, renderer: Renderer, host: string, st: State, b: nat)
    requires b < |script.blocks| && PendingIn(script, st.pending) && Closed(script, st, Some(b))
    requires script.blocks[b].localId in st.visited
    ensures Walk(script, renderer, host, st, b).Ok?
    ensures Closed(script, Walk(script, renderer, host, st, b).value, None)
  {
    var st' := Walk(script, renderer, host, st, b).value;
    forall x, c | 0 <= x < |script.blocks| && script.blocks[x].localId in st'.visited && Step(script, x, c)
      ensures Covered(script, st', c, None)
    {
      assert Covered(script, st, c, Some(b));
    }
  }

  lemma SwitchClosed(script: Script, renderer: Renderer, host: string, st: State, b: nat)
    requires UniqueIds(script)
    requires b < |script.blocks| && PendingIn(script, st.pending) && Closed(script, st, Some(b))
    requires script.blocks[b].localId !in st.visited && script.blocks[b].isSwitcher
    requires Walk(script, renderer, host, st, b).Ok?
    ensures Closed(script, Walk(script, renderer, host, st, b).value, None)
  {
    var st' := Walk(script, renderer, host, st, b).value;
    var cases := CaseTargets(script, b, 0).value;
    var f := DefaultTarget(script, b, 0).value;
    assert st'.pending == st.pending + cases + [f];
    forall x, c | 0 <= x < |script.blocks| && script.blocks[x].localId in st'.visited && Step(script, x, c)
      ensures Covered(script, st', c, None)
    {
      StepInRange(script, x, c);
      if x == b {
        assert c in cases || c == f;
      } else {
        assert script.blocks[x].localId in st.visited;
        assert Covered(script, st, c, Some(b));
      }
    }
  }

  lemma PlainClosed(script: Script, renderer: Renderer, st: State, b: nat)
    requires UniqueIds(script)
    requires b < |script.blocks| && Closed(script, st, Some(b))
    requires !script.blocks[b].isSwitcher && Successor(script, b).Ok?
    ensures Closed(script, RenderPlain(renderer, st, script.blocks[b]), Successor(script, b).value)
  {
    var st1 := RenderPlain(renderer, st, script.blocks[b]);
    var next := Successor(script, b).value;
    forall x, c | 0 <= x < |script.blocks| && script.blocks[x].localId in st1.visited && Step(script, x, c)
      ensures Covered(script, st1, c, next)
    {
      StepInRange(script, x, c);
      if x != b {
        assert script.blocks[x].localId in st.visited;
        assert Covered(script, st, c, Some(b));
      }
    }
  }

  lemma BranchClosed(script: Script, renderer: Renderer, host: string, st: State)
    requires UniqueIds(script)
    requires st.pending != [] && PendingIn(script, st.pending) && Closed(script, st, None)
    requires Branch(script, renderer, host, st).Ok?
    ensures Closed(script, Branch(script, renderer, host, st).value, None)
  {
    var b := st.pending[|st.pending| - 1];
    var st0 := State(st.trace, st.visited, RemoveFirst(st.pending, b));
    forall x, c | 0 <= x < |script.blocks| && script.blocks[x].localId in st0.visited && Step(script, x, c)
      ensures Covered(script, st0, c, Some(b))
    {
      assert Covered(script, st, c, None);
    }
    WalkClosed(script, renderer, host, st0, b);
  }

  lemma {:induction false} RunClosed(script: Script, renderer: Renderer, host: string, st: State)
    requires UniqueIds(script)
    requires PendingIn(script, st.pending) && Closed(script, st, None)
    requires Run(script, renderer, host, st).Ok?
    ensures Closed(script, Run(script, renderer, host, st).value, None)
    decreases |Ids(script) - st.visited|, |st.pending|
  {
    if st.pending != [] {
      var st' := Branch(script, renderer, host, st).value;
      BranchClosed(script, renderer, host, st);
      if st'.visited != st.visited {
        FewerUnvisited(Ids(script), st.visited, st'.visited);
      }
      RunClosed(script, renderer, host, st');
    }
  }

  /** The start block is translated by a successful compilation. */
  lemma CompileHandlesStart(script: Script, renderer: Renderer, host: string)
    requires Compile(script, renderer, host).Ok?
    ensures StartIndex(script, 0).Ok?
    ensures script.blocks[StartIndex(script, 0).value].localId in Compile(script, renderer, host).value.visited
  {
    var s := StartIndex(script, 0).value;
    var st0 := State([], {}, [s]);
    var st1 := Branch(script, renderer, host, st0).value;
    WalkHandlesStart(script, renderer, host, State([], {}, RemoveFirst([s], s)), s);
    if st1.visited != st0.visited {
      FewerUnvisited(Ids(script), st0.visited, st1.visited);
    }
    assert Run(script, renderer, host, st0) == Run(script, renderer, host, st1);
  }

  /** A path of compiler steps through the script. */
  ghost predicate Path(script: Script, p: seq<nat>)
  {
    && (forall k :: 0 <= k < |p| ==> p[k] < |script.blocks|)
    && (forall k :: 0 <= k < |p| - 1 ==> Step(script, p[k], p[k + 1]))
  }

  /** For a script with unique local ids, every block on a path from the start
      block is translated in the compiled text. */
  lemma CompileCoversReachable(script: Script, renderer: Renderer, host: string, p: seq<nat>)
    requires UniqueIds(script)
    requires Compile(script, renderer, host).Ok?
    requires Path(script, p) && |p| > 0 && p[0] == StartIndex(script, 0).value
    ensures forall k :: 0 <= k < |p| ==>
      script.blocks[p[k]].localId in RenderedIds(Compile(script, renderer, host).value.trace)
  {
    var st := Compile(script, renderer, host).value;
    var s := StartIndex(script, 0).value;
    RunClosed(script, renderer, host, State([], {}, [s]));
    CompileHandlesStart(script, renderer, host);
    CompiledRendersOnce(script, renderer, host);
    var k := 0;
    while k < |p| - 1
      invariant 0 <= k <= |p| - 1
      invariant forall i :: 0 <= i <= k ==> script.blocks[p[i]].localId in st.visited
    {
      assert Step(script, p[k], p[k + 1]);
      assert Covered(script, st, p[k + 1], None);
      k := k + 1;
    }
  }
}
