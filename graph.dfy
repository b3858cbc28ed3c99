/** The script graph that the translator compiles: blocks, connections,
    scripts, contexts and extensions, the errors the translator raises and
    the rendering operations of the block classes. */
module Graph {

  datatype Option<+T> = None | Some(value: T)

  /** The failures of a translation.  The first three are the
      `BlockNotFoundException`s of the lookups ("Could not find start block",
      "Could not find block with local id <id>", "Could not find default case
      block"); `LoadFailed` is the `ServiceException` of the persistence layer. */
  datatype Error =
    | StartBlockNotFound
    | BlockIdNotFound(localId: int)
    | DefaultCaseNotFound
    | LoadFailed

  datatype Result<+T> = Ok(value: T) | Err(error: Error)

  datatype Outcome = Pass | Fail(error: Error)

  /** One node of a script.  `kind` is `getType()`; the three flags are the
      block-kind predicates `isSwitcher()`, `isCaseBlock()` and
      `isAgiComplexBlock()` of the block classes. */
  datatype Block = Block(
    localId: int,
    kind: string,
    labelName: string,
    isSwitcher: bool,
    isCaseBlock: bool,
    isAgiComplexBlock: bool)

  /** A directed edge between two local ids of one script. */
  datatype Connection = Connection(source: int, target: int)

  /** Blocks and connections in their stored order; the order decides every
      first-match lookup. */
  datatype Script = Script(blocks: seq<Block>, connections: seq<Connection>)

  /** An extension with the id of its script and the script itself, when one
      is attached.  As the context list delivers it, an attached script is
      only a stub; the full script is loaded by its id. */
  datatype Extension = Extension(name: string, scriptId: int, script: Option<Script>)

  datatype Context = Context(name: string, extensions: seq<Extension>)

  /** The three `translate` overloads of the block classes: `translate()`,
      `translate(caseBlocks)` and `translate(caseBlocks, fastAgiHost)`.  Their
      bodies belong to the block classes, so every result below holds for
      every renderer. */
  datatype Renderer = Renderer(
    plain: Block -> string,
    withCases: (Block, seq<Block>) -> string,
    withCasesAndHost: (Block, seq<Block>, string) -> string)

  /** The set of local ids of a script. */
  function Ids(script: Script): (ids: set<int>)
    ensures forall k :: 0 <= k < |script.blocks| ==> script.blocks[k].localId in ids
    ensures forall id :: id in ids ==> exists k :: 0 <= k < |script.blocks| && script.blocks[k].localId == id
  {
    set k | 0 <= k < |script.blocks| :: script.blocks[k].localId
  }

  /** Local ids are unique within a script, as the data model requires. */
  ghost predicate UniqueIds(script: Script)
  {
    forall i, j :: 0 <= i < j < |script.blocks| ==> script.blocks[i].localId != script.blocks[j].localId
  }

  /** The connection at index `k` leaves the block with local id `id`. */
  ghost predicate Leaves(script: Script, id: int, k: int)
  {
    0 <= k < |script.connections| && script.connections[k].source == id
  }

  /** Some connection leaves the block with local id `id`. */
  ghost predicate HasOutgoing(script: Script, id: int)
  {
    exists k :: Leaves(script, id, k)
  }
}
