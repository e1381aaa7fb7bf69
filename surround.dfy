/**
 * The run grouper `SurroundElement` (src/lib/block.ts:748-848): it remembers the type
 * of the last appended block and the nodes collected since the last reset, and uses the
 * builder of that type to decide where a run ends and what element wraps it.
 */
module Surround {
  import opened Wrappers
  import opened Hast
  import opened Blocks
  import opened Builders

  /** Converter options: the converter-wide class-name flag, the builders' options, and caller builders by type. */
  datatype BlockToHastOpts = BlockToHastOpts(
    defaultClassName: Option<bool>, blockToHastBuilderOpts: BuilderOpts, blockToHastBuilders: map<string, Builder>)

  /** The class of the default builder for a known type name. */
  function ClassFor(t: string): (c: BuilderClass)
    requires t in KnownTypes
    ensures ClassType(c) == t
  {
    if t == "paragraph" then BlockParagraphToHast
    else if t == "heading_1" then BlockHeading1ToHast
    else if t == "heading_2" then BlockHeading2ToHast
    else if t == "heading_3" then BlockHeading3ToHast
    else if t == "code" then BlockCodeToHast
    else if t == "callout" then BlockCalloutToHast
    else if t == "divider" then BlockDividerToHast
    else if t == "column_list" then BlockColumnListToHast
    else if t == "column" then BlockColumnToHast
    else if t == "bulleted_list_item" then BlockBulletedListItemToHast
    else if t == "numbered_list_item" then BlockNumberedListItemToHast
    else if t == "quote" then BlockQuoteToHast
    else if t == "to_do" then BlockTodoToHast
    else if t == "toggle" then BlockToggleToHast
    else if t == "table" then BlockTableToHast
    else if t == "table_row" then BlockTableRowToHast
    else if t == "bookmark" then BlockBookmarkToHast
    else BlockImageToHast
  }

  /** `defaultBlockToHastBuilders(opts)`: one builder per known type, of the class made for that type. */
  function DefaultBuilders(opts: BuilderOpts): (m: map<string, Builder>)
    ensures m.Keys == KnownTypes
    ensures forall t :: t in m ==> m[t] == NewBuilder(ClassFor(t), opts) && m[t].BlockType() == t
  {
    map t | t in KnownTypes :: NewBuilder(ClassFor(t), opts)
  }

  /** The builders' options, with the converter-wide class-name flag filling an unset builder flag. */
  function EffectiveBuilderOpts(opts: BlockToHastOpts): (r: BuilderOpts)
    ensures r.propertiesMap == opts.blockToHastBuilderOpts.propertiesMap
    ensures r.defaultClassname == if opts.blockToHastBuilderOpts.defaultClassname.Some?
      then opts.blockToHastBuilderOpts.defaultClassname else opts.defaultClassName
  {
    var b := opts.blockToHastBuilderOpts;
    if b.defaultClassname.None? then b.(defaultClassname := opts.defaultClassName) else b
  }

  /** The builder table of a new grouper: the defaults, with the caller's builders copied over them. */
  function BuilderTable(opts: BlockToHastOpts): (m: map<string, Builder>)
    ensures m.Keys == KnownTypes + opts.blockToHastBuilders.Keys
    ensures forall t :: t in opts.blockToHastBuilders ==> m[t] == opts.blockToHastBuilders[t]
    ensures forall t :: t in KnownTypes && t !in opts.blockToHastBuilders ==>
      m[t] == NewBuilder(ClassFor(t), EffectiveBuilderOpts(opts))
  {
    DefaultBuilders(EffectiveBuilderOpts(opts)) + opts.blockToHastBuilders
  }

  /** `builder(t)`: the builder for a non-empty type, if the table has one. */
  function BuilderOf(table: map<string, Builder>, t: string): (r: Option<Builder>)
    ensures r.Some? <==> t != "" && t in table
    ensures r.Some? ==> r.value == table[t]
  {
    if t != "" && t in table then Some(table[t]) else None
  }

  /** What `append` adds: the builder's output for the block, or nothing when its type has no builder. */
  function Appended(table: map<string, Builder>, o: BuildOpts): seq<Node> {
    match BuilderOf(table, TypeName(o.block.content))
    case None => []
    case Some(b) => b.Built(o)
  }

  /**
   * `isBreak(cur)` after a block of type `prev`: never after a reset, otherwise the
   * decision of `prev`'s builder, and always when `prev` has none.
   */
  predicate Breaks(table: map<string, Builder>, prev: string, cur: string) {
    prev != "" && (BuilderOf(table, prev).Some? ==> table[prev].IsBreak(cur))
  }

  /** `outerTag()` after a block of type `prev`: its builder's tag, or none. */
  function GroupTag(table: map<string, Builder>, prev: string): (r: Option<Tag>)
    ensures r.None? <==> BuilderOf(table, prev).None?
  {
    match BuilderOf(table, prev)
    case None => None
    case Some(b) => Some(b.OuterTag())
  }

  /** Among the known types, exactly the two list item types get a list class. */
  lemma ListClassFor(t: string)
    requires t in KnownTypes
    ensures IsListClass(ClassFor(t)) <==> (t == "bulleted_list_item" || t == "numbered_list_item")
  {
  }

  /**
   * With the default builders only and a non-empty type `prev`, the next block continues
   * the run exactly when both are list items of the same type.
   */
  lemma DefaultBreaks(opts: BlockToHastOpts, prev: string, cur: string)
    requires opts.blockToHastBuilders == map[] && prev != ""
    ensures !Breaks(BuilderTable(opts), prev, cur) <==>
      (prev == cur && (prev == "bulleted_list_item" || prev == "numbered_list_item"))
  {
    var table := BuilderTable(opts);
    if prev in KnownTypes {
      var b := table[prev];
      assert b.cls == ClassFor(prev);
      ListClassFor(prev);
      b.BreakAndTagRules(cur);
    }
  }

  /**
   * With the default builders, a run of bulleted items is wrapped in `ul` and one of
   * numbered items in `ol`; every other known type is
   * left unwrapped, and a type without a builder has no tag at all.
   */
  lemma DefaultGroupTags(opts: BlockToHastOpts, prev: string)
    requires opts.blockToHastBuilders == map[]
    ensures prev == "bulleted_list_item" ==> (GroupTag(BuilderTable(opts), prev)
      == Some(Tag(Some("ul"), Some(NewBuilder(BlockBulletedListItemToHast, EffectiveBuilderOpts(opts)).PropsFor("bulleted-list")))))
    ensures prev == "numbered_list_item" ==> (GroupTag(BuilderTable(opts), prev)
      == Some(Tag(Some("ol"), Some(NewBuilder(BlockNumberedListItemToHast, EffectiveBuilderOpts(opts)).PropsFor("numbered-list")))))
    ensures prev in KnownTypes && prev != "bulleted_list_item" && prev != "numbered_list_item" ==>
      GroupTag(BuilderTable(opts), prev) == Some(Tag(None, None))
    ensures prev !in KnownTypes ==> GroupTag(BuilderTable(opts), prev).None?
  {
    var table := BuilderTable(opts);
    if prev in KnownTypes {
      var b := table[prev];
      assert b.cls == ClassFor(prev);
      ListClassFor(prev);
      b.BreakAndTagRules(prev);
    }
  }

  /** `SurroundElement`: the type of the last appended block, the nodes collected since the last reset, and the builder table. */
  class SurroundElement {
    var prevType: string
    var children: seq<Node>
    const builders: map<string, Builder>

    /** `new SurroundElement(initType, opts)`: nothing collected, and the merged builder table. */
    constructor(initType: string, opts: BlockToHastOpts)
      ensures prevType == initType && children == []
      ensures builders == BuilderTable(opts)
    {
      prevType := initType;
      children := [];
      builders := BuilderTable(opts);
    }

    /** `append(o)`: adds the block's rendering, if its type has a builder, and records its type either way. */
    method Append(o: BuildOpts)
      modifies this
      ensures children == old(children) + Appended(builders, o)
      ensures prevType == TypeName(o.block.content)
    {
      var builder := BuilderOf(builders, TypeName(o.block.content));
      if builder.Some? {
        var built := builder.value.Build(o);
        children := children + built;
      }
      prevType := TypeName(o.block.content);
    }

    /** `nest(content)`: adds exactly that one node. */
    method Nest(content: Node)
      modifies this
      ensures children == old(children) + [content]
      ensures prevType == old(prevType)
    {
      children := children + [content];
    }

    /** `outerTag()`: the tag of the last appended type's builder, or none when it has no builder. */
    function OuterTag(): (r: Option<Tag>)
      reads this
      ensures r.None? <==> prevType == "" || prevType !in builders
      ensures r.Some? ==> r.value == builders[prevType].OuterTag()
    {
      GroupTag(builders, prevType)
    }

    /** `content()`: the nodes collected since the last reset. */
    function Content(): (r: seq<Node>)
      reads this
      ensures r == children
    {
      children
    }

    /** `isBreak(cur)`: whether a block of type `cur` starts a new run. */
    predicate IsBreak(cur: string)
      reads this
      ensures prevType == "" ==> !IsBreak(cur)
      ensures prevType != "" && prevType !in builders ==> IsBreak(cur)
      ensures prevType != "" && prevType in builders ==> (IsBreak(cur) <==> builders[prevType].IsBreak(cur))
    {
      Breaks(builders, prevType, cur)
    }

    /** `reset()`: back to no type and no nodes. */
    method Reset()
      modifies this
      ensures prevType == "" && children == []
    {
      prevType := "";
      children := [];
    }
  }
}
