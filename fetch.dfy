/** `fetchBlocksWithChildren` (script_note.js:313-339): fetch a block's
    children and, for every child flagged `has_children`, fetch its children
    in turn and attach them. The remote API is an oracle; a call that throws
    is `None`. The recursion is bounded by `depth`: at depth 0 the model
    answers as a failed call does. */
module Fetch {
  import opened Wrappers
  import opened Blocks

  /** `GET /blocks/{id}/children` as a function of the id: the `results`
      list, or `None` when the call throws. */
  type Oracle = string -> Option<seq<Block>>

  /** The children of `id` with their own descendants resolved. */
  function FetchTree(o: Oracle, id: string, depth: nat): (r: seq<Block>)
    ensures depth == 0 || o(id).None? ==> r == []
    ensures depth > 0 && o(id).Some? ==> |r| == |o(id).value|
    decreases depth, 0
  {
    if depth == 0 then []
    else
      match o(id)
      case None => []
      case Some(bs) => seq(|bs|, i requires 0 <= i < |bs| => Resolve(o, bs[i], depth - 1))
  }

  /** One pass of the loop body: a flagged block gets the resolved list as
      its `children`; any other block is returned untouched. */
  function Resolve(o: Oracle, b: Block, depth: nat): (r: Block)
    ensures r.id == b.id && r.hasChildren == b.hasChildren && r.content == b.content
    ensures b.hasChildren ==> r.children == Resolved(FetchTree(o, b.id, depth))
    ensures !b.hasChildren ==> r == b
    decreases depth, 1
  {
    if b.hasChildren then b.(children := Resolved(FetchTree(o, b.id, depth))) else b
  }

  /** The source's loop: walk the fetched list and replace every flagged
      block by one carrying its children, fetched by a recursive call. */
  method FetchBlocksWithChildren(o: Oracle, blockId: string, depth: nat) returns (blocks: seq<Block>)
    ensures blocks == FetchTree(o, blockId, depth)
    decreases depth
  {
    if depth == 0 {
      return [];
    }
    var data := o(blockId);
    if data.None? {
      return [];
    }
    var fetched := data.value;
    blocks := fetched;
    var i := 0;
    while i < |blocks|
      invariant 0 <= i <= |blocks| == |fetched|
      invariant forall k :: 0 <= k < i ==> blocks[k] == Resolve(o, fetched[k], depth - 1)
      invariant forall k :: i <= k < |blocks| ==> blocks[k] == fetched[k]
    {
      var block := blocks[i];
      if block.hasChildren {
        var childBlocks := FetchBlocksWithChildren(o, block.id, depth - 1);
        blocks := blocks[i := block.(children := Resolved(childBlocks))];
      }
      i := i + 1;
    }
  }

  /** Every fetched block keeps its id, flag and payload, and sits at the
      index the API gave it; a flagged block carries its own fetched
      children. */
  lemma FetchKeepsBlocks(o: Oracle, id: string, depth: nat, i: nat)
    requires depth > 0 && o(id).Some? && i < |o(id).value|
    ensures var b := o(id).value[i]; var r := FetchTree(o, id, depth)[i];
      r.id == b.id && r.hasChildren == b.hasChildren && r.content == b.content
      && (!b.hasChildren ==> r == b)
      && (b.hasChildren ==> r.children == Resolved(FetchTree(o, b.id, depth - 1)))
  {
  }

  /** A flagged block whose own fetch fails gets an empty `children` list;
      the failure goes no further than that block. */
  lemma NestedFailureIsolated(o: Oracle, id: string, depth: nat, i: nat)
    requires depth > 0 && o(id).Some? && i < |o(id).value|
    requires o(id).value[i].hasChildren && o(o(id).value[i].id).None?
    ensures FetchTree(o, id, depth)[i].children == Resolved([])
    ensures forall j :: 0 <= j < |o(id).value| ==>
      FetchTree(o, id, depth)[j] == Resolve(o, o(id).value[j], depth - 1)
  {
  }

  /** The API never returns a `children` field: what the fetcher adds is
      the only source of children. */
  ghost predicate Fresh(o: Oracle) {
    forall x :: o(x).Some? ==> forall b :: b in o(x).value ==> b.children.Absent?
  }

  /** At every depth of the tree, a block has children exactly when it is
      flagged. */
  predicate ChildrenMatchFlags(bs: seq<Block>)
    decreases bs, 0
  {
    forall i :: 0 <= i < |bs| ==> BlockChildrenMatchFlag(bs[i])
  }

  predicate BlockChildrenMatchFlag(b: Block)
    decreases b, 1
  {
    (b.children.Resolved? <==> b.hasChildren)
    && (b.children.Resolved? ==> ChildrenMatchFlags(b.children.blocks))
  }

  lemma {:induction false} FetchedTreeMatchesFlags(o: Oracle, id: string, depth: nat)
    requires Fresh(o)
    ensures ChildrenMatchFlags(FetchTree(o, id, depth))
    decreases depth
  {
    if depth > 0 && o(id).Some? {
      var bs := o(id).value;
      var r := FetchTree(o, id, depth);
      forall i | 0 <= i < |r|
        ensures BlockChildrenMatchFlag(r[i])
      {
        assert bs[i] in bs;
        if bs[i].hasChildren {
          FetchedTreeMatchesFlags(o, bs[i].id, depth - 1);
        }
      }
    }
  }
}
