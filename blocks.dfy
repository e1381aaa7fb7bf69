/**
 * Notion blocks, the page source that lists a block's children, and the `BlockItem`
 * pager that walks those pages one block at a time (src/lib/block.ts:19-75).
 */
module Blocks {
  import opened Wrappers
  import opened RichText

  /** Where a file lives: `external.url` for an external file, `file.url` for a hosted one. */
  datatype FileSource = ExternalFile(url: string) | HostedFile(url: string)

  /** A callout icon: an emoji, or an image given by a file source. */
  datatype Icon = Emoji(emoji: string) | IconImage(source: FileSource)

  /**
   * The typed payload of a block, one constructor per block type the converter knows;
   * `Unsupported` is a block of any other type, `Untyped` an item without a string `type`.
   */
  datatype Content =
    | Paragraph(richText: seq<RichTextItem>, color: string)
    | Heading1(richText: seq<RichTextItem>, color: string)
    | Heading2(richText: seq<RichTextItem>, color: string)
    | Heading3(richText: seq<RichTextItem>, color: string)
    | Code(richText: seq<RichTextItem>, caption: seq<RichTextItem>, language: string)
    | Callout(richText: seq<RichTextItem>, color: string, icon: Option<Icon>)
    | Divider
    | ColumnList
    | Column
    | BulletedListItem(richText: seq<RichTextItem>, color: string)
    | NumberedListItem(richText: seq<RichTextItem>, color: string)
    | Quote(richText: seq<RichTextItem>, color: string)
    | ToDo(richText: seq<RichTextItem>, color: string, checked: bool)
    | Toggle(richText: seq<RichTextItem>, color: string)
    | Table(hasColumnHeader: bool, hasRowHeader: bool)
    | TableRow(cells: seq<seq<RichTextItem>>)
    | Bookmark(url: string, caption: seq<RichTextItem>)
    | Image(source: FileSource, caption: seq<RichTextItem>)
    | Unsupported(typeName: string)
    | Untyped

  /** A listed item: its `object` tag, its id, whether it has children, and its typed payload. */
  datatype Block = Block(objectType: string, id: string, hasChildren: bool, content: Content)

  /** The `type` string of a payload (`""` for an untyped item, which never gets this far). */
  function TypeName(c: Content): string {
    match c
    case Paragraph(_, _) => "paragraph"
    case Heading1(_, _) => "heading_1"
    case Heading2(_, _) => "heading_2"
    case Heading3(_, _) => "heading_3"
    case Code(_, _, _) => "code"
    case Callout(_, _, _) => "callout"
    case Divider => "divider"
    case ColumnList => "column_list"
    case Column => "column"
    case BulletedListItem(_, _) => "bulleted_list_item"
    case NumberedListItem(_, _) => "numbered_list_item"
    case Quote(_, _) => "quote"
    case ToDo(_, _, _) => "to_do"
    case Toggle(_, _) => "toggle"
    case Table(_, _) => "table"
    case TableRow(_) => "table_row"
    case Bookmark(_, _) => "bookmark"
    case Image(_, _) => "image"
    case Unsupported(name) => name
    case Untyped => ""
  }

  /** `isBlock(o)`: the item is tagged `block` and has a string `type`. */
  predicate IsBlock(b: Block)
    ensures IsBlock(b) <==> b.objectType == "block" && !b.content.Untyped?
  {
    b.objectType == "block" && !b.content.Untyped?
  }

  /**
   * The page source.  `pages[id]` lists, page by page, the children of block `id`; an id
   * it does not know has no children.  A cursor is the index of the page to fetch.  `rank`
   * witnesses that the block tree is finite: it is checked by `Valid`.
   */
  datatype Client = Client(pages: map<string, seq<seq<Block>>>, rank: map<string, nat>) {

    /** The pages listing the children of `id`. */
    function Pages(id: string): seq<seq<Block>> {
      if id in pages then pages[id] else []
    }

    /** The height of `id` in the tree; an unranked id has height 0. */
    function Rank(id: string): nat {
      if id in rank then rank[id] else 0
    }

    /** Every child that has children of its own sits strictly lower in the tree than its parent. */
    ghost predicate Valid() {
      forall id, p :: id in pages && 0 <= p < |pages[id]| ==> Below(this, pages[id][p], Rank(id))
    }

    /**
     * `listBlockChildren({ block_id, start_cursor })`: the page at the cursor (the first
     * page without one) and the cursor of the following page, if there is one.
     */
    function ListBlockChildren(id: string, cursor: Option<nat>): (r: Response)
      ensures var start := cursor.GetOr(0);
        r.results == (if start < |Pages(id)| then Pages(id)[start] else [])
      ensures var start := cursor.GetOr(0);
        r.nextCursor.Some? <==> start + 1 < |Pages(id)|
      ensures r.nextCursor.Some? ==> r.nextCursor.value == cursor.GetOr(0) + 1 && r.nextCursor.value < |Pages(id)|
    {
      var ps := Pages(id);
      var start := cursor.GetOr(0);
      Response(if start < |ps| then ps[start] else [], if start + 1 < |ps| then Some(start + 1) else None)
    }
  }

  /** One response of the page source: the items of a page and the next cursor. */
  datatype Response = Response(results: seq<Block>, nextCursor: Option<nat>)

  /** Every block of `bs` that has children has a rank below `r`. */
  ghost predicate Below(client: Client, bs: seq<Block>, r: nat) {
    forall b :: b in bs && b.hasChildren ==> client.Rank(b.id) < r
  }

  /** The four fields of a `BlockItem`, as a value. */
  datatype PagerState = PagerState(blocks: seq<Block>, nextCursor: Option<nat>, blocksLen: nat, idx: nat)

  /** What the pager keeps true: the length field matches, the position is in range, the cursor points at a page. */
  predicate PagerInv(client: Client, id: string, s: PagerState) {
    s.blocksLen == |s.blocks| && s.idx <= s.blocksLen
    && (s.nextCursor.Some? ==> s.nextCursor.value < |client.Pages(id)|)
  }

  /** The state `init` leaves: the first page, its cursor, and the position at its start. */
  function InitState(client: Client, id: string): (s: PagerState)
    ensures PagerInv(client, id, s)
    ensures s.idx == 0 && s.blocks == (if client.Pages(id) == [] then [] else client.Pages(id)[0])
  {
    var res := client.ListBlockChildren(id, None);
    PagerState(res.results, res.nextCursor, |res.results|, 0)
  }

  /**
   * One call of `block()`: past the end of the page, the next page is fetched when there
   * is a cursor, and `null` is returned when there is none; an empty page gives `null`;
   * otherwise the item at the position is consumed, and returned when it is a block.
   */
  function Step(client: Client, id: string, s: PagerState): (r: (Option<Block>, PagerState))
    requires PagerInv(client, id, s)
    ensures PagerInv(client, id, r.1)
    ensures r.0.Some? ==> IsBlock(r.0.value)
  {
    if s.idx >= s.blocksLen && s.nextCursor.None? then (None, s)
    else
      var t := if s.idx >= s.blocksLen then
          var res := client.ListBlockChildren(id, s.nextCursor);
          PagerState(res.results, res.nextCursor, |res.results|, 0)
        else s;
      if t.blocksLen == 0 then (None, t)
      else
        var ret := t.blocks[t.idx];
        (if IsBlock(ret) then Some(ret) else None, t.(idx := t.idx + 1))
  }

  /** The number of items on the pages from `c` on. */
  function SizeFrom(ps: seq<seq<Block>>, c: nat): nat
    decreases |ps| - c
  {
    if c >= |ps| then 0 else |ps[c]| + SizeFrom(ps, c + 1)
  }

  /** An upper bound on the items the pager can still hand out. */
  function Remaining(client: Client, id: string, s: PagerState): nat
    requires PagerInv(client, id, s)
  {
    (s.blocksLen - s.idx) + (if s.nextCursor.Some? then SizeFrom(client.Pages(id), s.nextCursor.value) else 0)
  }

  /** A step that hands out a block leaves fewer items to hand out. */
  lemma StepShrinks(client: Client, id: string, s: PagerState)
    requires PagerInv(client, id, s)
    requires Step(client, id, s).0.Some?
    ensures Remaining(client, id, Step(client, id, s).1) < Remaining(client, id, s)
  {
    if s.idx >= s.blocksLen {
      var c := s.nextCursor.value;
      var ps := client.Pages(id);
      assert SizeFrom(ps, c) == |ps[c]| + SizeFrom(ps, c + 1);
    }
  }

  /** The blocks successive `block()` calls return from state `s` until the first `null`. */
  function StreamFrom(client: Client, id: string, s: PagerState): seq<Block>
    requires PagerInv(client, id, s)
    decreases Remaining(client, id, s)
  {
    var r := Step(client, id, s);
    if r.0.None? then []
    else
      StepShrinks(client, id, s);
      [r.0.value] + StreamFrom(client, id, r.1)
  }

  /** The blocks the pager for `id` returns after `init`, up to the first `null`. */
  function Stream(client: Client, id: string): seq<Block> {
    StreamFrom(client, id, InitState(client, id))
  }

  /**
   * One `block()` call from a state whose stream is `rest`: `null` exactly when nothing is
   * left, otherwise the head of `rest`, leaving a state whose stream is the tail.
   */
  lemma StepYields(client: Client, id: string, s: PagerState, rest: seq<Block>)
    requires PagerInv(client, id, s) && StreamFrom(client, id, s) == rest
    ensures Step(client, id, s).0.None? <==> rest == []
    ensures Step(client, id, s).0.Some? ==>
      Step(client, id, s).0.value == rest[0] && StreamFrom(client, id, Step(client, id, s).1) == rest[1..]
  {
  }

  /** The longest prefix of `bs` made of well-formed blocks. */
  function BlockPrefix(bs: seq<Block>): (r: seq<Block>)
    ensures |r| <= |bs| && r == bs[..|r|]
    ensures forall i :: 0 <= i < |r| ==> IsBlock(r[i])
    ensures |r| < |bs| ==> !IsBlock(bs[|r|])
  {
    if bs == [] || !IsBlock(bs[0]) then [] else [bs[0]] + BlockPrefix(bs[1..])
  }

  /** The pages of `ps` before its first empty page. */
  function UntilEmpty(ps: seq<seq<Block>>): seq<seq<Block>> {
    if ps == [] || ps[0] == [] then [] else [ps[0]] + UntilEmpty(ps[1..])
  }

  /** The concatenation of a list of pages. */
  function Concat(ps: seq<seq<Block>>): seq<Block> {
    if ps == [] then [] else ps[0] + Concat(ps[1..])
  }

  /**
   * What the pager yields, stated without the pager: the first page (which may be empty),
   * then the following pages up to the first empty one, cut before the first item that
   * is not a block.
   */
  function Expected(ps: seq<seq<Block>>): seq<Block> {
    if ps == [] then [] else BlockPrefix(ps[0] + Concat(UntilEmpty(ps[1..])))
  }

  /** The items a state still has to offer: the rest of its page, then the later pages up to an empty one. */
  function Pending(client: Client, id: string, s: PagerState): seq<Block>
    requires PagerInv(client, id, s)
  {
    s.blocks[s.idx..] + (if s.nextCursor.Some? then Concat(UntilEmpty(client.Pages(id)[s.nextCursor.value..])) else [])
  }

  /** From any state, the pager yields the well-formed prefix of what the state still has to offer. */
  lemma {:induction false} StreamFromIsPending(client: Client, id: string, s: PagerState)
    requires PagerInv(client, id, s)
    ensures StreamFrom(client, id, s) == BlockPrefix(Pending(client, id, s))
    decreases Remaining(client, id, s)
  {
    var ps := client.Pages(id);
    var r := Step(client, id, s);
    if s.idx >= s.blocksLen && s.nextCursor.None? {
      assert Pending(client, id, s) == [];
    } else if s.idx >= s.blocksLen {
      var c := s.nextCursor.value;
      var t := PagerState(ps[c], client.ListBlockChildren(id, s.nextCursor).nextCursor, |ps[c]|, 0);
      assert s.blocks[s.idx..] == [];
      assert ps[c..][1..] == ps[c + 1..];
      if ps[c] == [] {
        assert Pending(client, id, s) == [];
      } else {
        assert UntilEmpty(ps[c..]) == [ps[c]] + UntilEmpty(ps[c + 1..]);
        var later := Concat(UntilEmpty(ps[c + 1..]));
        assert Pending(client, id, s) == ps[c] + later;
        if t.nextCursor.None? {
          assert ps[c + 1..] == [];
        }
        assert Pending(client, id, t) == ps[c] + later;
        assert t.(idx := 1) == r.1 || r.0.None?;
        PendingAfterTake(client, id, t);
        if r.0.Some? {
          StepShrinks(client, id, s);
          StreamFromIsPending(client, id, r.1);
        }
      }
    } else {
      PendingAfterTake(client, id, s);
      if r.0.Some? {
        StepShrinks(client, id, s);
        StreamFromIsPending(client, id, r.1);
      }
    }
  }

  /** Taking the item at the position leaves the rest of what the state offered. */
  lemma PendingAfterTake(client: Client, id: string, s: PagerState)
    requires PagerInv(client, id, s) && s.idx < s.blocksLen
    ensures var t := s.(idx := s.idx + 1);
      PagerInv(client, id, t) && Pending(client, id, s) == [s.blocks[s.idx]] + Pending(client, id, t)
      && BlockPrefix(Pending(client, id, s)) == (if IsBlock(s.blocks[s.idx]) then [s.blocks[s.idx]] + BlockPrefix(Pending(client, id, t)) else [])
  {
    var t := s.(idx := s.idx + 1);
    assert s.blocks[s.idx..] == [s.blocks[s.idx]] + s.blocks[s.idx + 1..];
    var p := Pending(client, id, s);
    assert p[0] == s.blocks[s.idx];
    assert p[1..] == Pending(client, id, t);
  }

  /** The pager for `id` yields exactly `Expected` of the pages listing its children. */
  lemma StreamIsExpected(client: Client, id: string)
    ensures Stream(client, id) == Expected(client.Pages(id))
  {
    var ps := client.Pages(id);
    var s := InitState(client, id);
    StreamFromIsPending(client, id, s);
    if ps != [] {
      if s.nextCursor.None? {
        assert ps[1..] == [];
      }
      assert Pending(client, id, s) == ps[0] + Concat(UntilEmpty(ps[1..]));
    }
  }

  /** Once a page is used up with no cursor left, `block()` returns `null` again and changes nothing. */
  lemma ExhaustedStaysNull(client: Client, id: string, s: PagerState)
    requires PagerInv(client, id, s)
    requires s.idx >= s.blocksLen && s.nextCursor.None?
    ensures Step(client, id, s) == (None, s)
  {
  }

  /**
   * Within a page, `block()` fetches nothing: it consumes the item at the position and
   * returns it when it is a block, and `null` (having still moved past it) when it is not.
   */
  lemma WithinPage(client: Client, id: string, s: PagerState)
    requires PagerInv(client, id, s)
    requires s.idx < s.blocksLen
    ensures Step(client, id, s).1 == s.(idx := s.idx + 1)
    ensures Step(client, id, s).0 == if IsBlock(s.blocks[s.idx]) then Some(s.blocks[s.idx]) else None
  {
  }

  /** A fetched page that is empty ends the walk, even when the response carries a cursor. */
  lemma EmptyPageEnds(client: Client, id: string, s: PagerState)
    requires PagerInv(client, id, s)
    requires s.idx >= s.blocksLen && s.nextCursor.Some?
    requires client.Pages(id)[s.nextCursor.value] == []
    ensures Step(client, id, s).0.None?
  {
  }

  /** Every block of a list of pages is below `r` when every page is. */
  lemma {:induction false} ConcatBelow(client: Client, ps: seq<seq<Block>>, r: nat)
    requires forall p :: 0 <= p < |ps| ==> Below(client, ps[p], r)
    ensures Below(client, Concat(ps), r)
  {
    if ps != [] {
      ConcatBelow(client, ps[1..], r);
    }
  }

  /** The pages before the first empty one are pages of the list. */
  lemma {:induction false} UntilEmptyPages(ps: seq<seq<Block>>)
    ensures |UntilEmpty(ps)| <= |ps|
    ensures forall p :: 0 <= p < |UntilEmpty(ps)| ==> UntilEmpty(ps)[p] == ps[p]
  {
    if ps != [] && ps[0] != [] {
      UntilEmptyPages(ps[1..]);
    }
  }

  /** In a valid tree, every block the pager yields for `id` that has children ranks below `id`. */
  lemma StreamBelow(client: Client, id: string)
    requires client.Valid()
    ensures Below(client, Stream(client, id), client.Rank(id))
  {
    var ps := client.Pages(id);
    StreamIsExpected(client, id);
    if ps != [] {
      var r := client.Rank(id);
      assert id in client.pages;
      assert forall p :: 0 <= p < |ps| ==> Below(client, ps[p], r) by {
        forall p | 0 <= p < |ps| ensures Below(client, ps[p], r) {
          assert ps[p] == client.pages[id][p];
        }
      }
      UntilEmptyPages(ps[1..]);
      ConcatBelow(client, UntilEmpty(ps[1..]), r);
      var all := ps[0] + Concat(UntilEmpty(ps[1..]));
      assert Below(client, all, r);
      var e := BlockPrefix(all);
      assert forall b :: b in e ==> b in all;
    }
  }

  /** `BlockItem`: walks the children of one block, page by page, one item per call. */
  class BlockItem {
    const client: Client
    const blockId: string
    var blocks: seq<Block>
    var nextCursor: Option<nat>
    var blocksLen: nat
    var idx: nat

    /** The fields as a value. */
    function State(): PagerState
      reads this
    {
      PagerState(blocks, nextCursor, blocksLen, idx)
    }

    /** `new BlockItem(client, opts)`: no page yet, no cursor. */
    constructor(client: Client, blockId: string)
      ensures this.client == client && this.blockId == blockId
      ensures State() == PagerState([], None, 0, 0)
    {
      this.client := client;
      this.blockId := blockId;
      blocks := [];
      nextCursor := None;
      blocksLen := 0;
      idx := 0;
    }

    /** `init()`: fetches the first page and its cursor, and moves to its start. */
    method Init()
      modifies this
      ensures State() == InitState(client, blockId)
    {
      var res := client.ListBlockChildren(blockId, None);
      blocks := res.results;
      nextCursor := res.nextCursor;
      blocksLen := |blocks|;
      idx := 0;
    }

    /** `block()`: the next block, or `null`; see `Step`. */
    method Block() returns (r: Option<Block>)
      requires PagerInv(client, blockId, State())
      modifies this
      ensures (r, State()) == Step(client, blockId, old(State()))
    {
      if idx >= blocksLen {
        if nextCursor.Some? {
          var res := client.ListBlockChildren(blockId, nextCursor);
          blocks := res.results;
          nextCursor := res.nextCursor;
          blocksLen := |blocks|;
          idx := 0;
        } else {
          return None;
        }
      }
      if blocksLen == 0 {
        return None;
      }
      var ret := blocks[idx];
      idx := idx + 1;
      if IsBlock(ret) {
        return Some(ret);
      }
      return None;
    }
  }
}
