/**
 * The converter's driver `blockToHast` (src/lib/notion2hast.ts): it walks the children
 * of a block with the pager, groups consecutive blocks with the run grouper, renders
 * blocks that have children by converting those children first, and wraps the groups.
 */
module Notion2Hast {
  import opened Wrappers
  import opened Seqs
  import opened Hast
  import opened Color
  import opened RichText
  import opened Blocks
  import opened Builders
  import opened Surround

  /** The options of one conversion: the block whose children are converted, its parent, and the option groups. */
  datatype ToHastOpts = ToHastOpts(
    blockId: string, parent: Option<Block>, blocktoHastOpts: BlockToHastOpts,
    richTexttoHastOpts: RichTexttoHastOpts, colorPropsOpts: map<string, Props>)

  /** What a conversion returns: one root fragment at the top, the list of groups below it. */
  datatype Child = Root(node: Node) | Nodes(nodes: seq<Node>)

  /** The nodes a conversion contributes to a parent's `nest`: the list itself, or the single node. */
  function Spread(c: Child): seq<Node> {
    match c
    case Root(n) => [n]
    case Nodes(ns) => ns
  }

  /** The options of the conversion of block `b`'s children. */
  function ChildOpts(opts: ToHastOpts, b: Block): ToHastOpts {
    opts.(blockId := b.id, parent := Some(b))
  }

  /** What every `append` of one conversion shares: the builder table, the parent block, the inline renderer and the colour resolver. */
  datatype Env = Env(table: map<string, Builder>, parent: Option<Block>, rt: RichTextToHast, cp: ColorProps)

  /** The shared values a conversion builds from its options. */
  function EnvOf(opts: ToHastOpts): Env {
    var cp := NewColorProps(opts.colorPropsOpts);
    Env(BuilderTable(opts.blocktoHastOpts), opts.parent, NewRichTextToHast(opts.richTexttoHastOpts, cp), cp)
  }

  /** The type string of a block. */
  function TypeOf(b: Block): string {
    TypeName(b.content)
  }

  /** Whether block `j` starts a new run after block `j - 1`. */
  predicate BreaksAt(table: map<string, Builder>, bs: seq<Block>, j: nat)
    requires 0 < j < |bs|
  {
    Breaks(table, TypeOf(bs[j - 1]), TypeOf(bs[j]))
  }

  /**
   * The end of the run that starts at `start`: the first position `j > start` at which
   * the block before breaks with the block at `j`, or the end of the list.
   */
  function RunEnd(table: map<string, Builder>, bs: seq<Block>, start: nat): (e: nat)
    requires start < |bs|
    ensures start < e <= |bs|
    ensures forall j :: start < j < e ==> !BreaksAt(table, bs, j)
    ensures e < |bs| ==> BreaksAt(table, bs, e)
  {
    RunEndFrom(table, bs, start, start + 1)
  }

  /** `RunEnd`, searching from `j` on. */
  function RunEndFrom(table: map<string, Builder>, bs: seq<Block>, start: nat, j: nat): (e: nat)
    requires start < j <= |bs|
    requires forall k :: start < k < j ==> !BreaksAt(table, bs, k)
    ensures j <= e <= |bs|
    ensures forall k :: start < k < e ==> !BreaksAt(table, bs, k)
    ensures e < |bs| ==> BreaksAt(table, bs, e)
    decreases |bs| - j
  {
    if j == |bs| || BreaksAt(table, bs, j) then j else RunEndFrom(table, bs, start, j + 1)
  }

  /** A block that does not break with the one before it is still inside the run. */
  lemma InsideRun(table: map<string, Builder>, bs: seq<Block>, start: nat, j: nat)
    requires start <= j < |bs| && j <= RunEnd(table, bs, start)
    requires j > start ==> !BreaksAt(table, bs, j)
    ensures j < RunEnd(table, bs, start)
  {
  }

  /** A run ends at the first break after its start, or at the end of the list. */
  lemma RunEndAtBreak(table: map<string, Builder>, bs: seq<Block>, start: nat, j: nat)
    requires start < j <= |bs| && start < |bs| && j <= RunEnd(table, bs, start)
    requires j < |bs| ==> BreaksAt(table, bs, j)
    ensures j == RunEnd(table, bs, start)
  {
  }

  /** A flushed group: its builder's tag element when that has a name, otherwise a fragment. */
  function GroupNode(tag: Option<Tag>, content: seq<Node>): (n: Node)
    ensures n.Elem? && n.kids == content
    ensures n.name.Some? <==> tag.Some? && tag.value.name.Some?
    ensures n.name.Some? ==> n.name == tag.value.name && n.props == tag.value.properties.GetOr(EmptyProps)
    ensures n.name.None? ==> n.props == EmptyProps
  {
    if tag.Some? && tag.value.name.Some? then H(tag.value.name.value, tag.value.properties.GetOr(EmptyProps), content)
    else Fragment(content)
  }

  /** The arguments `append` gets for block `b`, at position `index`, with `nest` as its converted children. */
  function BlockOpts(env: Env, b: Block, nest: seq<Node>, index: nat): BuildOpts {
    BuildOpts(b, nest, env.parent, index, env.rt, env.cp)
  }

  /** What `append` adds for each block of `bs`, `nests` holding their converted children. */
  function Outputs(env: Env, bs: seq<Block>, nests: seq<seq<Node>>): (outs: seq<seq<Node>>)
    requires |bs| == |nests|
    ensures |outs| == |bs|
    ensures forall k :: 0 <= k < |bs| ==> outs[k] == Appended(env.table, BlockOpts(env, bs[k], nests[k], k))
  {
    seq(|bs|, k requires 0 <= k < |bs| => Appended(env.table, BlockOpts(env, bs[k], nests[k], k)))
  }

  /** What the grouper has collected after appending the blocks `start` to `end - 1`, whose outputs are `outs`. */
  function Contents(outs: seq<seq<Node>>, start: nat, end: nat): seq<Node>
    requires start <= end <= |outs|
    decreases end - start
  {
    if end == start then [] else Contents(outs, start, end - 1) + outs[end - 1]
  }

  /** The groups of the blocks from `start` on, `start` being the first block of a run. */
  function GroupsFrom(table: map<string, Builder>, bs: seq<Block>, outs: seq<seq<Node>>, start: nat): seq<Node>
    requires start <= |bs| == |outs|
    decreases |bs| - start
  {
    if start == |bs| then []
    else
      var end := RunEnd(table, bs, start);
      [GroupNode(GroupTag(table, TypeOf(bs[end - 1])), Contents(outs, start, end))]
      + GroupsFrom(table, bs, outs, end)
  }

  /** The groups from the start of a run are its flushed group, then the groups from the run's end. */
  lemma GroupsFromRun(table: map<string, Builder>, bs: seq<Block>, outs: seq<seq<Node>>, start: nat, end: nat)
    requires start < |bs| == |outs| && end == RunEnd(table, bs, start)
    ensures GroupsFrom(table, bs, outs, start)
      == [GroupNode(GroupTag(table, TypeOf(bs[end - 1])), Contents(outs, start, end))] + GroupsFrom(table, bs, outs, end)
  {
  }

  /** There are at most as many groups as blocks, and at least one when there is a block: every group holds a run of one or more blocks. */
  lemma {:induction false} GroupsAtMostBlocks(table: map<string, Builder>, bs: seq<Block>, outs: seq<seq<Node>>, start: nat)
    requires start <= |bs| == |outs|
    ensures |GroupsFrom(table, bs, outs, start)| <= |bs| - start
    ensures start < |bs| ==> |GroupsFrom(table, bs, outs, start)| >= 1
    decreases |bs| - start
  {
    if start < |bs| {
      var end := RunEnd(table, bs, start);
      GroupsFromRun(table, bs, outs, start, end);
      GroupsAtMostBlocks(table, bs, outs, end);
    }
  }

  /** The two block types whose runs the default builders group. */
  predicate IsListItemType(t: string) {
    t == "bulleted_list_item" || t == "numbered_list_item"
  }

  /**
   * Blocks `start` to `e - 1` are consecutive list items of one type, or a single block,
   * save that a block after one of type `""` always joins it; the block at `e`, if any,
   * does not continue them.
   */
  ghost predicate ListRun(bs: seq<Block>, start: nat, e: nat)
    requires start < e <= |bs|
  {
    (forall j :: start < j < e ==>
      TypeOf(bs[j - 1]) == "" || (TypeOf(bs[j]) == TypeOf(bs[j - 1]) && IsListItemType(TypeOf(bs[j]))))
    && (e < |bs| ==> TypeOf(bs[e - 1]) != "" && !(TypeOf(bs[e]) == TypeOf(bs[e - 1]) && IsListItemType(TypeOf(bs[e]))))
  }

  /** A builder table that continues a run exactly on a list item of the previous block's type. */
  ghost predicate GroupsListItems(table: map<string, Builder>) {
    forall prev, cur {:trigger Breaks(table, prev, cur)} :: prev != "" ==>
      (!Breaks(table, prev, cur) <==> prev == cur && IsListItemType(prev))
  }

  /** The default builder table groups list items. */
  lemma DefaultTableGroups(bopts: BlockToHastOpts)
    requires bopts.blockToHastBuilders == map[]
    ensures GroupsListItems(BuilderTable(bopts))
  {
    forall prev, cur | prev != ""
      ensures !Breaks(BuilderTable(bopts), prev, cur) <==> prev == cur && IsListItemType(prev)
    {
      DefaultBreaks(bopts, prev, cur);
    }
  }

  /**
   * Under a table that groups list items, a run is a maximal stretch of consecutive list
   * items of one type, and any other block is a run of its own.
   */
  lemma ListItemRuns(table: map<string, Builder>, bs: seq<Block>, start: nat)
    requires GroupsListItems(table) && start < |bs|
    ensures ListRun(bs, start, RunEnd(table, bs, start))
  {
    var e := RunEnd(table, bs, start);
    forall j | start < j < e
      ensures TypeOf(bs[j - 1]) == "" || (TypeOf(bs[j]) == TypeOf(bs[j - 1]) && IsListItemType(TypeOf(bs[j])))
    {
      assert !BreaksAt(table, bs, j);
    }
    if e < |bs| {
      assert BreaksAt(table, bs, e);
    }
  }

  /**
   * With the default builders, a run is a maximal stretch of consecutive list items of
   * one type, and any other block is a run of its own.
   */
  lemma DefaultRuns(bopts: BlockToHastOpts, bs: seq<Block>, start: nat)
    requires bopts.blockToHastBuilders == map[] && start < |bs|
    ensures ListRun(bs, start, RunEnd(BuilderTable(bopts), bs, start))
  {
    DefaultTableGroups(bopts);
    ListItemRuns(BuilderTable(bopts), bs, start);
  }

  /** What `blockToHast(client, opts, depth)` returns. */
  function Render(client: Client, opts: ToHastOpts, depth: nat): Child
    requires client.Valid()
    decreases client.Rank(opts.blockId), 2, 0
  {
    var bs := Stream(client, opts.blockId);
    StreamBelow(client, opts.blockId);
    var nests := Nests(client, opts, depth, bs);
    var env := EnvOf(opts);
    Wrap(depth, GroupsFrom(env.table, bs, Outputs(env, bs, nests), 0))
  }

  /** The groups of a conversion as it returns them: inside one fragment at depth 0, as they are below it. */
  function Wrap(depth: nat, groups: seq<Node>): Child {
    if depth == 0 then Root(Fragment(groups)) else Nodes(groups)
  }

  /** The converted children of each block of `bs`. */
  function Nests(client: Client, opts: ToHastOpts, depth: nat, bs: seq<Block>): (ns: seq<seq<Node>>)
    requires client.Valid() && Below(client, bs, client.Rank(opts.blockId))
    ensures |ns| == |bs|
    ensures forall k :: 0 <= k < |bs| ==> ns[k] == (assert bs[k] in bs; NestOf(client, opts, depth, bs[k]))
    decreases client.Rank(opts.blockId), 1, 0
  {
    seq(|bs|, k requires 0 <= k < |bs| => assert bs[k] in bs; NestOf(client, opts, depth, bs[k]))
  }

  /** The children of `b`, converted one level down, or nothing when it has none. */
  function NestOf(client: Client, opts: ToHastOpts, depth: nat, b: Block): seq<Node>
    requires client.Valid() && (b.hasChildren ==> client.Rank(b.id) < client.Rank(opts.blockId))
    decreases client.Rank(opts.blockId), 0, 0
  {
    if b.hasChildren then Spread(Render(client, ChildOpts(opts, b), depth + 1)) else []
  }

  /** Entry `k` of `s`; facts stated about `Entry(s, k)` come into play only where an entry is read that way. */
  function Entry<T>(s: seq<T>, k: nat): T
    requires k < |s|
  {
    s[k]
  }

  /** Entry `k` of `nests` is block `k`'s children, converted. */
  ghost predicate NestsPlanned(client: Client, opts: ToHastOpts, depth: nat, bs: seq<Block>, nests: seq<seq<Node>>)
    requires client.Valid() && Below(client, bs, client.Rank(opts.blockId)) && |nests| == |bs|
  {
    forall k {:trigger Entry(nests, k)} :: 0 <= k < |bs| ==>
      bs[k] in bs && Entry(nests, k) == NestOf(client, opts, depth, bs[k])
  }

  /** Entry `k` of `outs` is what `append` adds for block `k`. */
  ghost predicate OutsPlanned(env: Env, bs: seq<Block>, nests: seq<seq<Node>>, outs: seq<seq<Node>>)
    requires |nests| == |bs| == |outs|
  {
    forall k {:trigger Entry(outs, k)} :: 0 <= k < |bs| ==>
      Entry(outs, k) == Appended(env.table, BlockOpts(env, bs[k], nests[k], k))
  }

  /** `nests` and `outs` are the converted children and the `append` outputs of the blocks `bs`, the children of `opts.blockId`. */
  ghost predicate Planned(client: Client, opts: ToHastOpts, depth: nat, env: Env, bs: seq<Block>,
                          nests: seq<seq<Node>>, outs: seq<seq<Node>>) {
    client.Valid() && Below(client, bs, client.Rank(opts.blockId)) && |nests| == |bs| && |outs| == |bs|
    && NestsPlanned(client, opts, depth, bs, nests) && OutsPlanned(env, bs, nests, outs)
  }

  /** `Nests` satisfies `NestsPlanned`. */
  lemma NestsPlan(client: Client, opts: ToHastOpts, depth: nat, bs: seq<Block>)
    requires client.Valid() && Below(client, bs, client.Rank(opts.blockId))
    ensures NestsPlanned(client, opts, depth, bs, Nests(client, opts, depth, bs))
  {
  }

  /** `Outputs` satisfies `OutsPlanned`. */
  lemma OutsPlan(env: Env, bs: seq<Block>, nests: seq<seq<Node>>)
    requires |bs| == |nests|
    ensures OutsPlanned(env, bs, nests, Outputs(env, bs, nests))
  {
  }

  /** The conversion of `opts.blockId` returns the groups of the outputs of its children. */
  lemma RenderPlan(client: Client, opts: ToHastOpts, depth: nat, env: Env, bs: seq<Block>)
    requires client.Valid() && env == EnvOf(opts) && bs == Stream(client, opts.blockId)
    requires Below(client, bs, client.Rank(opts.blockId))
    ensures Render(client, opts, depth) == Wrap(depth, GroupsFrom(env.table, bs, Outputs(env, bs, Nests(client, opts, depth, bs)), 0))
  {
  }

  /**
   * A plan for the children of `opts.blockId`, and the conversion's result stated over it.
   */
  lemma PlanFor(client: Client, opts: ToHastOpts, depth: nat, env: Env, bs: seq<Block>)
      returns (nests: seq<seq<Node>>, outs: seq<seq<Node>>)
    requires client.Valid() && env == EnvOf(opts) && bs == Stream(client, opts.blockId)
    ensures Planned(client, opts, depth, env, bs, nests, outs)
    ensures Render(client, opts, depth) == Wrap(depth, GroupsFrom(env.table, bs, outs, 0))
  {
    StreamBelow(client, opts.blockId);
    nests := Nests(client, opts, depth, bs);
    outs := Outputs(env, bs, nests);
    NestsPlan(client, opts, depth, bs);
    OutsPlan(env, bs, nests);
    RenderPlan(client, opts, depth, env, bs);
  }

  /**
   * The pager of `id`, in state `s`, has handed out `bs[..index]` and, in `i`, the block
   * at `index`, or `null` at the end; what it will still hand out is the rest of `bs`.
   */
  ghost predicate PagerAt(client: Client, id: string, s: PagerState, bs: seq<Block>, index: nat, i: Option<Block>) {
    PagerInv(client, id, s) && index <= |bs| && (i.None? ==> index == |bs|)
    && (i.Some? ==> index < |bs| && i.value == bs[index] && StreamFrom(client, id, s) == bs[index + 1..])
  }

  /** A `block()` call from a state whose stream is `bs[index..]` leaves the pager at `index`. */
  lemma Advance(client: Client, id: string, s: PagerState, bs: seq<Block>, index: nat)
    requires PagerInv(client, id, s) && index <= |bs| && StreamFrom(client, id, s) == bs[index..]
    ensures PagerAt(client, id, Step(client, id, s).1, bs, index, Step(client, id, s).0)
  {
    StepYields(client, id, s, bs[index..]);
    if Step(client, id, s).0.Some? {
      assert bs[index..][1..] == bs[index + 1..];
    }
  }

  /**
   * `blockToHast(client, opts, depth)`: pulls blocks from the pager while the grouper
   * does not break, appends each (with its converted children), flushes the group when it
   * does, and wraps all groups in a fragment at depth 0.
   */
  method BlockToHast(client: Client, opts: ToHastOpts, depth: nat) returns (r: Child)
    requires client.Valid()
    ensures r == Render(client, opts, depth)
    decreases client.Rank(opts.blockId), 3, 0
  {
    var colorProps := NewColorProps(opts.colorPropsOpts);
    var richTextToHast := NewRichTextToHast(opts.richTexttoHastOpts, colorProps);
    var ite := new BlockItem(client, opts.blockId);
    ite.Init();
    ghost var bs := Stream(client, opts.blockId);
    assert bs[0..] == bs;
    var i := NextBlock(client, opts, ite, bs, 0);
    var surround := new SurroundElement("", opts.blocktoHastOpts);
    var env := Env(surround.builders, opts.parent, richTextToHast, colorProps);
    assert env == EnvOf(opts);
    ghost var nests, outs := PlanFor(client, opts, depth, env, bs);
    var children := GroupRuns(client, opts, depth, env, bs, nests, outs, ite, surround, i);
    if depth == 0 {
      return Root(Fragment(children));
    }
    return Nodes(children);
  }

  /**
   * The outer loop of `blockToHast`: collects one run at a time and flushes it as one
   * group, until the pager ends.
   */
  method GroupRuns(client: Client, opts: ToHastOpts, depth: nat, env: Env, ghost bs: seq<Block>, ghost nests: seq<seq<Node>>,
                   ghost outs: seq<seq<Node>>, ite: BlockItem, surround: SurroundElement, i0: Option<Block>)
      returns (children: seq<Node>)
    requires Planned(client, opts, depth, env, bs, nests, outs) && surround.builders == env.table
    requires ite.client == client && ite.blockId == opts.blockId && PagerAt(client, opts.blockId, ite.State(), bs, 0, i0)
    requires surround.prevType == "" && surround.children == []
    modifies ite, surround
    ensures children == GroupsFrom(env.table, bs, outs, 0)
    decreases client.Rank(opts.blockId), 2, 1
  {
    ghost var table := env.table;
    var index := 0;
    var i := i0;
    children := [];
    while i.Some?
      invariant ite.client == client && ite.blockId == opts.blockId && PagerAt(client, opts.blockId, ite.State(), bs, index, i)
      invariant surround.builders == table
      invariant surround.prevType == "" && surround.children == []
      invariant children + GroupsFrom(table, bs, outs, index) == GroupsFrom(table, bs, outs, 0)
      decreases |bs| - index
    {
      ghost var start := index;
      index, i := CollectRun(client, opts, depth, env, bs, nests, outs, ite, surround, index, i);
      var tag := surround.OuterTag();
      var group: Node;
      if tag.Some? && tag.value.name.Some? {
        group := H(tag.value.name.value, tag.value.properties.GetOr(EmptyProps), surround.Content());
      } else {
        group := Fragment(surround.Content());
      }
      assert tag == GroupTag(table, TypeOf(bs[index - 1]));
      GroupsFromRun(table, bs, outs, start, index);
      assert [group] + GroupsFrom(table, bs, outs, index) == GroupsFrom(table, bs, outs, start);
      AppendAssoc(children, [group], GroupsFrom(table, bs, outs, index));
      children := children + [group];
      surround.Reset();
    }
  }

  /**
   * The inner loop of `blockToHast`: from the first block of a run, appends blocks to the
   * grouper until the pager ends or the grouper breaks, which is exactly at `RunEnd`.
   */
  method CollectRun(client: Client, opts: ToHastOpts, depth: nat, env: Env, ghost bs: seq<Block>, ghost nests: seq<seq<Node>>,
                    ghost outs: seq<seq<Node>>, ite: BlockItem, surround: SurroundElement, start: nat, i0: Option<Block>)
      returns (index: nat, i: Option<Block>)
    requires Planned(client, opts, depth, env, bs, nests, outs) && surround.builders == env.table
    requires ite.client == client && ite.blockId == opts.blockId && PagerAt(client, opts.blockId, ite.State(), bs, start, i0) && i0.Some?
    requires surround.prevType == "" && surround.children == []
    modifies ite, surround
    ensures ite.client == client && ite.blockId == opts.blockId && PagerAt(client, opts.blockId, ite.State(), bs, index, i)
    ensures index == RunEnd(surround.builders, bs, start)
    ensures surround.prevType == TypeOf(bs[index - 1])
    ensures surround.children == Contents(outs, start, index)
    decreases client.Rank(opts.blockId), 2, 0
  {
    ghost var table := surround.builders;
    ghost var end := RunEnd(table, bs, start);
    index, i := start, i0;
    while i.Some? && !surround.IsBreak(TypeName(i.value.content))
      invariant ite.client == client && ite.blockId == opts.blockId && PagerAt(client, opts.blockId, ite.State(), bs, index, i)
      invariant surround.builders == table
      invariant start <= index <= end
      invariant index == start ==> surround.prevType == ""
      invariant index > start ==> surround.prevType == TypeOf(bs[index - 1])
      invariant surround.children == Contents(outs, start, index)
      decreases |bs| - index
    {
      assert index > start ==> !BreaksAt(table, bs, index);
      InsideRun(table, bs, start, index);
      AppendBlock(client, opts, depth, env, bs, nests, outs, surround, i.value, index);
      index := index + 1;
      i := NextBlock(client, opts, ite, bs, index);
    }
    if i.Some? {
      assert index > start;
      assert BreaksAt(table, bs, index);
    }
    RunEndAtBreak(table, bs, start, index);
  }

  /** One step of the inner loop: converts the children of block `index`, then appends the block. */
  method AppendBlock(client: Client, opts: ToHastOpts, depth: nat, env: Env, ghost bs: seq<Block>, ghost nests: seq<seq<Node>>,
                     ghost outs: seq<seq<Node>>, surround: SurroundElement, b: Block, index: nat)
    requires Planned(client, opts, depth, env, bs, nests, outs) && surround.builders == env.table
    requires index < |bs| && b == bs[index]
    modifies surround
    ensures surround.children == old(surround.children) + outs[index]
    ensures surround.prevType == TypeOf(b)
    decreases client.Rank(opts.blockId), 1, 1
  {
    assert Entry(outs, index) == outs[index] && Entry(nests, index) == nests[index];
    var nest := ChildNest(client, opts, depth, b);
    surround.Append(BlockOpts(env, b, nest, index));
  }

  /** `ite.block()`, with the pager's remaining stream `bs[index..]` tracked alongside. */
  method NextBlock(client: Client, opts: ToHastOpts, ite: BlockItem, ghost bs: seq<Block>, ghost index: nat) returns (i: Option<Block>)
    requires ite.client == client && ite.blockId == opts.blockId && PagerInv(client, opts.blockId, ite.State())
    requires index <= |bs| && StreamFrom(client, opts.blockId, ite.State()) == bs[index..]
    modifies ite
    ensures ite.client == client && ite.blockId == opts.blockId && PagerAt(client, opts.blockId, ite.State(), bs, index, i)
  {
    Advance(client, opts.blockId, ite.State(), bs, index);
    i := ite.Block();
  }

  /** The `nest` of one block: its children converted one level down, or nothing when it has none. */
  method ChildNest(client: Client, opts: ToHastOpts, depth: nat, b: Block) returns (nest: seq<Node>)
    requires client.Valid() && (b.hasChildren ==> client.Rank(b.id) < client.Rank(opts.blockId))
    ensures nest == NestOf(client, opts, depth, b)
    decreases client.Rank(opts.blockId), 1, 0
  {
    nest := [];
    if b.hasChildren {
      var a := BlockToHast(client, opts.(blockId := b.id, parent := Some(b)), depth + 1);
      nest := nest + Spread(a);
    }
  }
}
