/** The lookups of the translator: first-match and filter searches over the
    ordered block and connection lists of a script.  Each search is specified
    by a recursive function that scans from position `from` on (callers pass
    0) and implemented by a loop method, as the translator does it.  Blocks
    are denoted by their index in `script.blocks`, which stands for the
    block object the translator returns. */
module Lookup {
  import opened Graph

  /** The first block, from position `from` on, whose type is "Start". */
  function StartIndex(script: Script, from: nat): (r: Result<nat>)
    requires from <= |script.blocks|
    decreases |script.blocks| - from
    ensures r.Ok? ==>
      && from <= r.value < |script.blocks|
      && script.blocks[r.value].kind == "Start"
      && forall k :: from <= k < r.value ==> script.blocks[k].kind != "Start"
    ensures r.Err? ==>
      && r.error == StartBlockNotFound
      && forall k :: from <= k < |script.blocks| ==> script.blocks[k].kind != "Start"
  {
    if from == |script.blocks| then Err(StartBlockNotFound)
    else if script.blocks[from].kind == "Start" then Ok(from)
    else StartIndex(script, from + 1)
  }

  /** The first block, from position `from` on, whose local id is `id`. */
  function IndexOfId(script: Script, id: int, from: nat): (r: Result<nat>)
    requires from <= |script.blocks|
    decreases |script.blocks| - from
    ensures r.Ok? ==>
      && from <= r.value < |script.blocks|
      && script.blocks[r.value].localId == id
      && forall k :: from <= k < r.value ==> script.blocks[k].localId != id
    ensures r.Err? ==>
      && r.error == BlockIdNotFound(id)
      && forall k :: from <= k < |script.blocks| ==> script.blocks[k].localId != id
  {
    if from == |script.blocks| then Err(BlockIdNotFound(id))
    else if script.blocks[from].localId == id then Ok(from)
    else IndexOfId(script, id, from + 1)
  }

  /** The block that connection `k` points to, looked up by its local id. */
  function Resolve(script: Script, k: nat): Result<nat>
    requires k < |script.connections|
  {
    IndexOfId(script, script.connections[k].target, 0)
  }

  /** The first connection, from position `from` on, that leaves the block
      with local id `id`. */
  function FirstLeaving(script: Script, id: int, from: nat): (r: Option<nat>)
    requires from <= |script.connections|
    decreases |script.connections| - from
    ensures r.Some? ==>
      && from <= r.value < |script.connections|
      && Leaves(script, id, r.value)
      && forall j :: from <= j < r.value ==> !Leaves(script, id, j)
    ensures r.None? ==> forall k :: from <= k < |script.connections| ==> !Leaves(script, id, k)
  {
    if from == |script.connections| then None
    else if script.connections[from].source == id then Some(from)
    else FirstLeaving(script, id, from + 1)
  }

  /** The successor of block `b`: the target of the first connection that
      leaves `b`; `None` when no connection leaves it. */
  function Successor(script: Script, b: nat): (r: Result<Option<nat>>)
    requires b < |script.blocks|
    ensures r == Ok(None) <==> !HasOutgoing(script, script.blocks[b].localId)
    ensures r.Ok? && r.value.Some? ==>
      && r.value.value < |script.blocks|
      && exists k :: FirstLeaving(script, script.blocks[b].localId, 0) == Some(k) && Resolve(script, k) == Ok(r.value.value)
    ensures r.Err? ==>
      exists k :: FirstLeaving(script, script.blocks[b].localId, 0) == Some(k) && Resolve(script, k) == Err(r.error)
  {
    match FirstLeaving(script, script.blocks[b].localId, 0)
    case None => Ok(None)
    case Some(k) =>
      match Resolve(script, k)
      case Ok(n) => Ok(Some(n))
      case Err(e) => Err(e)
  }

  /** Every connection at a position in `[from, to)` that leaves the block
      with local id `id` points to an existing block. */
  ghost predicate ResolvesBetween(script: Script, id: int, from: nat, to: nat)
  {
    forall j :: from <= j < to && Leaves(script, id, j) ==> Resolve(script, j).Ok?
  }

  /** ... and none of those blocks is a FalseCase block. */
  ghost predicate NoDefaultBetween(script: Script, id: int, from: nat, to: nat)
  {
    forall j :: from <= j < to && Leaves(script, id, j) ==>
      Resolve(script, j).Ok? && script.blocks[Resolve(script, j).value].kind != "FalseCase"
  }

  /** The positions, from `from` on and in increasing order, of the
      connections that leave block `b` and lead to an existing Case block. */
  ghost function CaseIndices(script: Script, b: nat, from: nat): (ks: seq<nat>)
    requires b < |script.blocks| && from <= |script.connections|
    decreases |script.connections| - from
    ensures forall i :: 0 <= i < |ks| ==> from <= ks[i] < |script.connections|
  {
    if from == |script.connections| then []
    else if LeadsToCase(script, b, from) then [from] + CaseIndices(script, b, from + 1)
    else CaseIndices(script, b, from + 1)
  }

  /** The connection at position `k` leaves switch `b` for an existing Case block. */
  ghost predicate LeadsToCase(script: Script, b: nat, k: nat)
    requires b < |script.blocks|
  {
    && k < |script.connections|
    && Leaves(script, script.blocks[b].localId, k)
    && Resolve(script, k).Ok?
    && script.blocks[Resolve(script, k).value].isCaseBlock
  }

  /** `CaseIndices` lists, in strictly increasing order, exactly the
      positions from `from` on whose connection leads from `b` to a Case
      block. */
  lemma {:induction false} CaseIndicesSpec(script: Script, b: nat, from: nat)
    requires b < |script.blocks| && from <= |script.connections|
    decreases |script.connections| - from
    ensures var ks := CaseIndices(script, b, from);
      && (forall i :: 0 <= i < |ks| ==> from <= ks[i] && LeadsToCase(script, b, ks[i]))
      && (forall i, j :: 0 <= i < j < |ks| ==> ks[i] < ks[j])
      && (forall k :: from <= k && LeadsToCase(script, b, k) ==> k in ks)
  {
    if from < |script.connections| {
      CaseIndicesSpec(script, b, from + 1);
      var rest := CaseIndices(script, b, from + 1);
      var ks := CaseIndices(script, b, from);
      forall k | from <= k && LeadsToCase(script, b, k)
        ensures k in ks
      {
        if k != from {
          assert k in rest;
        }
      }
      if LeadsToCase(script, b, from) {
        assert ks == [from] + rest;
        assert forall i :: 0 < i < |ks| ==> ks[i] == rest[i - 1];
      }
    }
  }

  /** `r` lists, entry by entry, the targets of the connections at the
      positions `CaseIndices` gives: one per leaving connection to a Case
      block, in connection order. */
  ghost predicate InConnectionOrder(script: Script, b: nat, from: nat, r: seq<nat>)
    requires b < |script.blocks| && from <= |script.connections|
  {
    var ks := CaseIndices(script, b, from);
    |r| == |ks| && forall i :: 0 <= i < |r| ==> Resolve(script, ks[i]) == Ok(r[i])
  }

  /** The Case blocks that switch `b` leads to, in connection order, from
      position `from` on: one entry per leaving connection whose target is a
      Case block.  Every connection leaving `b` is resolved, so a missing
      target fails the search even when it would not be a Case, and the
      first missing target is the one reported. */
  function CaseTargets(script: Script, b: nat, from: nat): (r: Result<seq<nat>>)
    requires b < |script.blocks| && from <= |script.connections|
    ensures r.Ok? ==> InConnectionOrder(script, b, from, r.value)
    ensures r.Err? ==>
      exists k :: from <= k < |script.connections| && Leaves(script, script.blocks[b].localId, k)
        && Resolve(script, k) == Err(r.error)
    ensures r.Ok? ==> forall k :: 0 <= k < |r.value| ==> r.value[k] < |script.blocks| && script.blocks[r.value[k]].isCaseBlock
    ensures r.Ok? ==> forall j :: j in r.value ==>
      exists k :: from <= k < |script.connections| && Leaves(script, script.blocks[b].localId, k)
        && Resolve(script, k) == Ok(j)
    ensures r.Ok? ==> forall k :: from <= k < |script.connections| && Leaves(script, script.blocks[b].localId, k) ==>
      && Resolve(script, k).Ok?
      && (script.blocks[Resolve(script, k).value].isCaseBlock ==> Resolve(script, k).value in r.value)
  {
    var r := CaseTargetsBody(script, b, from);
    if r.Ok? then CaseTargetsMembers(script, b, from, r.value); r else r
  }

  /** The search of `CaseTargets`, one leaving connection at a time. */
  function CaseTargetsBody(script: Script, b: nat, from: nat): (r: Result<seq<nat>>)
    requires b < |script.blocks| && from <= |script.connections|
    decreases |script.connections| - from
    ensures r.Ok? ==>
      InConnectionOrder(script, b, from, r.value)
      && ResolvesBetween(script, script.blocks[b].localId, from, |script.connections|)
    ensures r.Err? ==>
      exists k :: from <= k < |script.connections| && Leaves(script, script.blocks[b].localId, k)
        && Resolve(script, k) == Err(r.error)
  {
    if from == |script.connections| then Ok([])
    else if script.connections[from].source == script.blocks[b].localId then
      match Resolve(script, from)
      case Err(e) => Err(e)
      case Ok(t) =>
        match CaseTargetsBody(script, b, from + 1)
        case Err(e) => Err(e)
        case Ok(rest) =>
          CaseTargetsStep(script, b, from, t, rest);
          Ok((if script.blocks[t].isCaseBlock then [t] else []) + rest)
    else CaseTargetsBody(script, b, from + 1)
  }

  /** The Case targets listed in the order of their connections are exactly
      the Case blocks reached from switch `b`. */
  lemma CaseTargetsMembers(script: Script, b: nat, from: nat, r: seq<nat>)
    requires b < |script.blocks| && from <= |script.connections|
    requires InConnectionOrder(script, b, from, r)
    ensures forall k :: 0 <= k < |r| ==> r[k] < |script.blocks| && script.blocks[r[k]].isCaseBlock
    ensures forall j :: j in r ==>
      exists k :: from <= k < |script.connections| && Leaves(script, script.blocks[b].localId, k)
        && Resolve(script, k) == Ok(j)
    ensures forall k :: from <= k < |script.connections| && Leaves(script, script.blocks[b].localId, k) ==>
      Resolve(script, k).Ok? && script.blocks[Resolve(script, k).value].isCaseBlock ==> Resolve(script, k).value in r
  {
    var ks := CaseIndices(script, b, from);
    CaseIndicesSpec(script, b, from);
    forall i | 0 <= i < |r|
      ensures LeadsToCase(script, b, ks[i]) && Resolve(script, ks[i]) == Ok(r[i])
    {
    }
    forall j | j in r
      ensures exists k :: from <= k < |script.connections| && Leaves(script, script.blocks[b].localId, k)
                         && Resolve(script, k) == Ok(j)
    {
      var i :| 0 <= i < |r| && r[i] == j;
      assert Leaves(script, script.blocks[b].localId, ks[i]) && Resolve(script, ks[i]) == Ok(j);
    }
    forall k | from <= k < |script.connections| && Leaves(script, script.blocks[b].localId, k)
      && Resolve(script, k).Ok? && script.blocks[Resolve(script, k).value].isCaseBlock
      ensures Resolve(script, k).value in r
    {
      assert LeadsToCase(script, b, k);
      var i :| 0 <= i < |ks| && ks[i] == k;
      assert Resolve(script, k) == Ok(r[i]);
    }
  }

  /** A failed search for the Case targets reports the first connection
      leaving the switch whose target is missing: every leaving connection
      before it resolves. */
  lemma {:induction false} CaseTargetsFirstMissing(script: Script, b: nat, from: nat)
    requires b < |script.blocks| && from <= |script.connections|
    requires CaseTargets(script, b, from).Err?
    decreases |script.connections| - from
    ensures exists k ::
      && from <= k < |script.connections| && Leaves(script, script.blocks[b].localId, k)
      && Resolve(script, k) == Err(CaseTargets(script, b, from).error)
      && ResolvesBetween(script, script.blocks[b].localId, from, k)
  {
    var id := script.blocks[b].localId;
    var e := CaseTargets(script, b, from).error;
    if Leaves(script, id, from) && Resolve(script, from).Err? {
      assert Resolve(script, from) == Err(e);
      assert ResolvesBetween(script, id, from, from);
    } else {
      assert CaseTargets(script, b, from + 1) == Err(e);
      CaseTargetsFirstMissing(script, b, from + 1);
      var k :| from + 1 <= k < |script.connections| && Leaves(script, id, k)
        && Resolve(script, k) == Err(e) && ResolvesBetween(script, id, from + 1, k);
      assert ResolvesBetween(script, id, from, k);
    }
  }

  /** One leaving connection, to block `t`, in front of the Case targets
      found after it: the Case positions gain `from` exactly when `t` is a
      Case block. */
  lemma CaseTargetsStep(script: Script, b: nat, from: nat, t: nat, rest: seq<nat>)
    requires b < |script.blocks| && from < |script.connections|
    requires Leaves(script, script.blocks[b].localId, from) && Resolve(script, from) == Ok(t)
    requires InConnectionOrder(script, b, from + 1, rest)
    ensures t < |script.blocks|
    ensures InConnectionOrder(script, b, from, (if script.blocks[t].isCaseBlock then [t] else []) + rest)
  {
    var ks := CaseIndices(script, b, from + 1);
    if script.blocks[t].isCaseBlock {
      assert CaseIndices(script, b, from) == [from] + ks;
      var r := [t] + rest;
      forall i | 0 <= i < |r|
        ensures Resolve(script, CaseIndices(script, b, from)[i]) == Ok(r[i])
      {
        if i > 0 {
          assert r[i] == rest[i - 1] && CaseIndices(script, b, from)[i] == ks[i - 1];
        }
      }
    } else {
      assert CaseIndices(script, b, from) == ks;
      assert [] + rest == rest;
    }
  }

  /** The default (FalseCase) block of switch `b`: the first target, from
      position `from` on, among the connections leaving `b`, whose type is
      "FalseCase".  Targets passed on the way must exist. */
  function DefaultTarget(script: Script, b: nat, from: nat): (r: Result<nat>)
    requires b < |script.blocks| && from <= |script.connections|
    decreases |script.connections| - from
    ensures r.Ok? ==>
      && r.value < |script.blocks|
      && script.blocks[r.value].kind == "FalseCase"
      && exists k :: from <= k < |script.connections| && Leaves(script, script.blocks[b].localId, k)
           && Resolve(script, k) == Ok(r.value)
           && forall j :: from <= j < k && Leaves(script, script.blocks[b].localId, j) ==>
                Resolve(script, j).Ok? && script.blocks[Resolve(script, j).value].kind != "FalseCase"
    ensures r == Err(DefaultCaseNotFound) <==>
      forall k :: from <= k < |script.connections| && Leaves(script, script.blocks[b].localId, k) ==>
        Resolve(script, k).Ok? && script.blocks[Resolve(script, k).value].kind != "FalseCase"
  {
    if from == |script.connections| then Err(DefaultCaseNotFound)
    else if script.connections[from].source == script.blocks[b].localId then
      match Resolve(script, from)
      case Err(e) => Err(e)
      case Ok(t) =>
        if script.blocks[t].kind == "FalseCase" then Ok(t)
        else DefaultTarget(script, b, from + 1)
    else DefaultTarget(script, b, from + 1)
  }

  /** A failed search for the default other than "default case not found"
      reports the first connection leaving the switch whose target is
      missing: every leaving connection before it resolves to a block that
      is not FalseCase. */
  lemma {:induction false} DefaultTargetFirstMissing(script: Script, b: nat, from: nat)
    requires b < |script.blocks| && from <= |script.connections|
    requires DefaultTarget(script, b, from).Err? && DefaultTarget(script, b, from).error != DefaultCaseNotFound
    decreases |script.connections| - from
    ensures exists k ::
      && from <= k < |script.connections| && Leaves(script, script.blocks[b].localId, k)
      && Resolve(script, k) == Err(DefaultTarget(script, b, from).error)
      && NoDefaultBetween(script, script.blocks[b].localId, from, k)
  {
    var id := script.blocks[b].localId;
    var e := DefaultTarget(script, b, from).error;
    if Leaves(script, id, from) && Resolve(script, from).Err? {
      assert Resolve(script, from) == Err(e);
      assert NoDefaultBetween(script, id, from, from);
    } else {
      assert DefaultTarget(script, b, from + 1) == Err(e);
      DefaultTargetFirstMissing(script, b, from + 1);
      var k :| from + 1 <= k < |script.connections| && Leaves(script, id, k)
        && Resolve(script, k) == Err(e) && NoDefaultBetween(script, id, from + 1, k);
      assert NoDefaultBetween(script, id, from, k);
    }
  }

  /** `findStartBlock`. */
  method FindStartBlock(script: Script) returns (r: Result<nat>)
    ensures r == StartIndex(script, 0)
  {
    for i := 0 to |script.blocks|
      invariant StartIndex(script, i) == StartIndex(script, 0)
    {
      if script.blocks[i].kind == "Start" {
        return Ok(i);
      }
    }
    return Err(StartBlockNotFound);
  }

  /** `findBlockByLocalId`. */
  method FindBlockByLocalId(localId: int, script: Script) returns (r: Result<nat>)
    ensures r == IndexOfId(script, localId, 0)
  {
    for i := 0 to |script.blocks|
      invariant IndexOfId(script, localId, i) == IndexOfId(script, localId, 0)
    {
      if script.blocks[i].localId == localId {
        return Ok(i);
      }
    }
    return Err(BlockIdNotFound(localId));
  }

  /** `findNextBlock`; `None` stands for the `null` it returns. */
  method FindNextBlock(b: nat, script: Script) returns (r: Result<Option<nat>>)
    requires b < |script.blocks|
    ensures r == Successor(script, b)
  {
    for i := 0 to |script.connections|
      invariant FirstLeaving(script, script.blocks[b].localId, i) == FirstLeaving(script, script.blocks[b].localId, 0)
    {
      if script.connections[i].source == script.blocks[b].localId {
        var target := FindBlockByLocalId(script.connections[i].target, script);
        if target.Err? {
          return Err(target.error);
        }
        return Ok(Some(target.value));
      }
    }
    return Ok(None);
  }

  /** `findTrueCaseBlocks`, filling its result list in a loop. */
  method FindTrueCaseBlocks(b: nat, script: Script) returns (r: Result<seq<nat>>)
    requires b < |script.blocks|
    ensures r == CaseTargets(script, b, 0)
  {
    var result: seq<nat> := [];
    PrependNothing(CaseTargets(script, b, 0));
    for i := 0 to |script.connections|
      invariant CaseTargets(script, b, 0) == Prepend(result, CaseTargets(script, b, i))
    {
      if script.connections[i].source == script.blocks[b].localId {
        var block := FindBlockByLocalId(script.connections[i].target, script);
        if block.Err? {
          return Err(block.error);
        }
        var found := if script.blocks[block.value].isCaseBlock then [block.value] else [];
        PrependTwice(result, found, CaseTargets(script, b, i + 1));
        result := result + found;
      }
    }
    assert result + [] == result;
    return Ok(result);
  }

  lemma PrependNothing(rest: Result<seq<nat>>)
    ensures Prepend([], rest) == rest
  {
    if rest.Ok? {
      assert [] + rest.value == rest.value;
    }
  }

  lemma PrependTwice(a: seq<nat>, c: seq<nat>, rest: Result<seq<nat>>)
    ensures Prepend(a, Prepend(c, rest)) == Prepend(a + c, rest)
  {
    if rest.Ok? {
      assert a + (c + rest.value) == (a + c) + rest.value;
    }
  }

  /** `findFalseCaseBlock`. */
  method FindFalseCaseBlock(b: nat, script: Script) returns (r: Result<nat>)
    requires b < |script.blocks|
    ensures r == DefaultTarget(script, b, 0)
  {
    for i := 0 to |script.connections|
      invariant DefaultTarget(script, b, i) == DefaultTarget(script, b, 0)
    {
      if script.connections[i].source == script.blocks[b].localId {
        var block := FindBlockByLocalId(script.connections[i].target, script);
        if block.Err? {
          return Err(block.error);
        }
        if script.blocks[block.value].kind == "FalseCase" {
          return Ok(block.value);
        }
      }
    }
    return Err(DefaultCaseNotFound);
  }

  /** The list built so far, followed by what the rest of the search finds. */
  function Prepend(prefix: seq<nat>, rest: Result<seq<nat>>): Result<seq<nat>>
  {
    match rest
    case Ok(s) => Ok(prefix + s)
    case Err(e) => Err(e)
  }
}
