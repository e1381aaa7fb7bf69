/**
 * The per-type block renderers (src/lib/block.ts:77-746): each turns one block, its
 * already rendered children (`nest`) and its position into hast nodes, says whether a
 * following block of some type starts a new group, and names the element that wraps a
 * group of its blocks.
 */
module Builders {
  import opened Wrappers
  import opened Seqs
  import opened Hast
  import opened PropsMerge
  import opened Color
  import opened RichText
  import opened Blocks

  /** The eighteen builder classes. */
  datatype BuilderClass =
    | BlockParagraphToHast | BlockHeading1ToHast | BlockHeading2ToHast | BlockHeading3ToHast
    | BlockCodeToHast | BlockCalloutToHast | BlockDividerToHast | BlockColumnListToHast
    | BlockColumnToHast | BlockBulletedListItemToHast | BlockNumberedListItemToHast
    | BlockQuoteToHast | BlockTodoToHast | BlockToggleToHast | BlockTableToHast
    | BlockTableRowToHast | BlockBookmarkToHast | BlockImageToHast

  /** The block type each class is constructed for. */
  function ClassType(c: BuilderClass): string {
    match c
    case BlockParagraphToHast => "paragraph"
    case BlockHeading1ToHast => "heading_1"
    case BlockHeading2ToHast => "heading_2"
    case BlockHeading3ToHast => "heading_3"
    case BlockCodeToHast => "code"
    case BlockCalloutToHast => "callout"
    case BlockDividerToHast => "divider"
    case BlockColumnListToHast => "column_list"
    case BlockColumnToHast => "column"
    case BlockBulletedListItemToHast => "bulleted_list_item"
    case BlockNumberedListItemToHast => "numbered_list_item"
    case BlockQuoteToHast => "quote"
    case BlockTodoToHast => "to_do"
    case BlockToggleToHast => "toggle"
    case BlockTableToHast => "table"
    case BlockTableRowToHast => "table_row"
    case BlockBookmarkToHast => "bookmark"
    case BlockImageToHast => "image"
  }

  /** The only classes made for the three captioned types. */
  lemma CaptionedClasses(c: BuilderClass)
    ensures ClassType(c) == "code" ==> c == BlockCodeToHast
    ensures ClassType(c) == "bookmark" ==> c == BlockBookmarkToHast
    ensures ClassType(c) == "image" ==> c == BlockImageToHast
  {
  }

  /** The only class made for the to-do type. */
  lemma TodoClass(c: BuilderClass)
    ensures ClassType(c) == "to_do" ==> c == BlockTodoToHast
  {
  }

  /** The two classes whose blocks are grouped into a list element. */
  predicate IsListClass(c: BuilderClass) {
    c == BlockBulletedListItemToHast || c == BlockNumberedListItemToHast
  }

  /** The type names the builders are made for. */
  const KnownTypes: set<string> := {
    "paragraph", "heading_1", "heading_2", "heading_3", "code", "callout", "divider",
    "column_list", "column", "bulleted_list_item", "numbered_list_item", "quote", "to_do",
    "toggle", "table", "table_row", "bookmark", "image"}

  /** A block whose payload matches its type: an unsupported block never carries a known type name. */
  predicate WellTyped(b: Block) {
    b.content.Unsupported? ==> b.content.typeName !in KnownTypes
  }

  /** Builder options: the default-class-name flag, possibly unset, and the per-key property bags. */
  datatype BuilderOpts = BuilderOpts(defaultClassname: Option<bool>, propertiesMap: map<string, Props>)

  /** An element before the block's children are added: tag name, bag and leading children. */
  datatype ElementShape = ElementShape(name: string, props: Props, front: seq<Node>)

  /** What `outerTag()` returns: a tag name, or none, and optionally its properties. */
  datatype Tag = Tag(name: Option<string>, properties: Option<Props>)

  /** The arguments of `build`. */
  datatype BuildOpts = BuildOpts(
    block: Block, nest: seq<Node>, parent: Option<Block>, index: nat,
    richTextToHast: RichTextToHast, colorProps: ColorProps)

  /** `(has_column_header, has_row_header)` of the parent table; both off when the parent is not a table. */
  function HeaderFlags(parent: Option<Block>): (bool, bool) {
    match parent
    case Some(Block(_, _, _, Table(columnHeader, rowHeader))) => (columnHeader, rowHeader)
    case _ => (false, false)
  }

  /** The URL of a file source: `external.url` for an external file, otherwise `file.url`. */
  function SourceUrl(src: FileSource): string {
    match src
    case ExternalFile(url) => url
    case HostedFile(url) => url
  }

  /**
   * `classnames(node, token)` on a bag: the token is appended to the class tokens; an
   * empty token adds nothing, but a class list is still set.
   */
  function AddClassName(p: Props, token: string): (r: Props)
    ensures Tokens(r.className) == Tokens(p.className) + (if token == "" then [] else [token])
    ensures r.style == p.style && r.attrs == p.attrs
  {
    p.(className := Some(List(Tokens(p.className) + (if token == "" then [] else [token]))))
  }

  /** A builder: its class, its default-class-name flag and its property bags, fixed at construction. */
  datatype Builder = Builder(cls: BuilderClass, defaultClassname: bool, propertiesMap: map<string, Props>) {

    /** The builder's `blockType`. */
    function BlockType(): string {
      ClassType(cls)
    }

    /**
     * `props(key)`: a copy of the configured bag, given `className = key` when the
     * default-class-name option is on and the bag has no class name.
     */
    function PropsFor(key: string): (r: Props)
      ensures var base := if key in propertiesMap then propertiesMap[key] else EmptyProps;
        r.style == base.style && r.attrs == base.attrs
        && r.className == if defaultClassname && base.className.None? then Some(Scalar(key)) else base.className
    {
      var ret := if key in propertiesMap then propertiesMap[key] else EmptyProps;
      if defaultClassname && ret.className.None? then ret.(className := Some(Scalar(key))) else ret
    }

    /** `outerTag()`: `ul` or `ol` with the list's bag for the list classes, no tag for the others. */
    function OuterTag(): (r: Tag)
      ensures r.name.Some? <==> IsListClass(cls)
      ensures r.name == Some("ul") <==> cls == BlockBulletedListItemToHast
      ensures r.name == Some("ol") <==> cls == BlockNumberedListItemToHast
      ensures r.properties.Some? <==> IsListClass(cls)
      ensures IsListClass(cls) ==>
        r.properties == Some(PropsFor(if cls == BlockBulletedListItemToHast then "bulleted-list" else "numbered-list"))
    {
      match cls
      case BlockBulletedListItemToHast => Tag(Some("ul"), Some(PropsFor("bulleted-list")))
      case BlockNumberedListItemToHast => Tag(Some("ol"), Some(PropsFor("numbered-list")))
      case _ => Tag(None, None)
    }

    /** `isBreak(t)`: a list class continues only a run of its own type; every other class always breaks. */
    predicate IsBreak(t: string)
      ensures !IsBreak(t) <==> IsListClass(cls) && t == ClassType(cls)
    {
      if IsListClass(cls) then BlockType() != t else true
    }

    /** The bag of a coloured block: the key's bag merged with the colour's bag. */
    function Colored(key: string, color: string, cp: ColorProps): Props {
      MergeProps(PropsFor(key), cp.PropsFor(color))
    }

    /** The `figcaption` of a rendered caption, present only when the caption renders to something. */
    function Caption(key: string, caption: seq<Node>): (r: seq<Node>)
      ensures |r| == if |caption| > 0 then 1 else 0
      ensures |caption| > 0 ==> r[0] == H("figcaption", PropsFor(key), caption)
    {
      if |caption| > 0 then [H("figcaption", PropsFor(key), caption)] else []
    }

    /** The callout icon child: an emoji or image `div`, or the empty string when there is no icon. */
    function CalloutIcon(icon: Option<Icon>): (n: Node)
      ensures icon.None? ==> n == Text("")
      ensures icon.Some? && icon.value.Emoji? ==>
        n == H("div", PropsFor("callout-icon-emoji"), [Text(icon.value.emoji)])
      ensures icon.Some? && icon.value.IconImage? ==>
        n == H("div", PropsFor("callout-icon-image"), [H("img", SetAttr(EmptyProps, "src", icon.value.source.url), [])])
    {
      match icon
      case None => Text("")
      case Some(Emoji(e)) => H("div", PropsFor("callout-icon-emoji"), [Text(e)])
      case Some(IconImage(src)) => H("div", PropsFor("callout-icon-image"), [H("img", SetAttr(EmptyProps, "src", SourceUrl(src)), [])])
    }

    /** Whether cell `colIdx` of row `index` is a header cell. */
    predicate IsHeaderCell(flags: (bool, bool), index: nat, colIdx: nat) {
      (flags.0 && index == 0) || (flags.1 && colIdx == 0)
    }

    /**
     * The bag of a table cell: `table-row-cell` for a data cell; for a header cell
     * `table-row-header`, overwritten by the top-left, top or left bag by position.
     */
    function CellProps(flags: (bool, bool), index: nat, colIdx: nat): (p: Props)
      ensures !IsHeaderCell(flags, index, colIdx) ==> p == PropsFor("table-row-cell")
      ensures IsHeaderCell(flags, index, colIdx) && index == 0 && colIdx == 0 ==>
        p == Assign(PropsFor("table-row-header"), PropsFor("table-row-header-top-left"))
      ensures IsHeaderCell(flags, index, colIdx) && index == 0 && colIdx != 0 ==>
        p == Assign(PropsFor("table-row-header"), PropsFor("table-row-header-top"))
      ensures IsHeaderCell(flags, index, colIdx) && index != 0 ==>
        colIdx == 0 && p == Assign(PropsFor("table-row-header"), PropsFor("table-row-header-left"))
    {
      if !IsHeaderCell(flags, index, colIdx) then PropsFor("table-row-cell")
      else
        var p := PropsFor("table-row-header");
        if index == 0 && colIdx == 0 then Assign(p, PropsFor("table-row-header-top-left"))
        else if index == 0 then Assign(p, PropsFor("table-row-header-top"))
        else if colIdx == 0 then Assign(p, PropsFor("table-row-header-left"))
        else p
    }

    /** One rendered table cell. */
    function CellNode(flags: (bool, bool), index: nat, colIdx: nat, cell: seq<Node>): Node {
      H(if IsHeaderCell(flags, index, colIdx) then "th" else "td", CellProps(flags, index, colIdx), cell)
    }

    /** The first `n` cells of a row, rendered. */
    function RowCells(flags: (bool, bool), index: nat, cells: seq<seq<RichTextItem>>, rt: RichTextToHast, n: nat): seq<Node>
      requires n <= |cells|
    {
      if n == 0 then []
      else RowCells(flags, index, cells, rt, n - 1) + [CellNode(flags, index, n - 1, rt.Rendered(cells[n - 1]))]
    }

    /**
     * The element `build` makes for a block of the builder's own type, by class: its tag
     * name, its bag and the children that come before the block's own children; `None`
     * when the payload is not of the class's kind.
     */
    function Shape(o: BuildOpts): Option<ElementShape> {
      var rt, cp := o.richTextToHast, o.colorProps;
      match o.block.content
      case Paragraph(text, color) =>
        if cls != BlockParagraphToHast then None else Some(ElementShape("p", Colored("paragraph", color, cp), rt.Rendered(text)))
      case Heading1(text, color) =>
        if cls != BlockHeading1ToHast then None else Some(ElementShape("h1", Colored("heading-1", color, cp), rt.Rendered(text)))
      case Heading2(text, color) =>
        if cls != BlockHeading2ToHast then None else Some(ElementShape("h2", Colored("heading-2", color, cp), rt.Rendered(text)))
      case Heading3(text, color) =>
        if cls != BlockHeading3ToHast then None else Some(ElementShape("h3", Colored("heading-3", color, cp), rt.Rendered(text)))
      case Code(text, caption, lang) =>
        if cls != BlockCodeToHast then None
        else
          var code := H("code", AddClassName(PropsFor("code-code"), lang), rt.Rendered(text));
          Some(ElementShape("figure", PropsFor("code"),
            [H("pre", PropsFor("code-pre"), [code])] + Caption("code-caption", rt.Rendered(caption))))
      case Callout(text, color, icon) =>
        if cls != BlockCalloutToHast then None
        else
          Some(ElementShape("div", Colored("callout", color, cp),
            [CalloutIcon(icon), H("div", PropsFor("callout-paragraph"), [H("p", EmptyProps, rt.Rendered(text))])]))
      case Divider => if cls != BlockDividerToHast then None else Some(ElementShape("hr", PropsFor("divider"), []))
      case ColumnList => if cls != BlockColumnListToHast then None else Some(ElementShape("div", PropsFor("column-list"), []))
      case Column => if cls != BlockColumnToHast then None else Some(ElementShape("div", PropsFor("column"), []))
      case BulletedListItem(text, color) =>
        if cls != BlockBulletedListItemToHast then None
        else Some(ElementShape("li", Colored("bulleted-list-item", color, cp), rt.Rendered(text)))
      case NumberedListItem(text, color) =>
        if cls != BlockNumberedListItemToHast then None
        else Some(ElementShape("li", Colored("numbered-list-item", color, cp), rt.Rendered(text)))
      case Quote(text, color) =>
        if cls != BlockQuoteToHast then None else Some(ElementShape("blockquote", Colored("quote", color, cp), rt.Rendered(text)))
      case ToDo(text, color, checked) =>
        if cls != BlockTodoToHast then None
        else
          Some(ElementShape("div", Colored("todo", color, cp),
            [H("div", PropsFor(if checked then "todo-checked" else "todo-not-checked"), []),
             H("div", PropsFor("todo-text"), rt.Rendered(text))]))
      case Toggle(text, color) =>
        if cls != BlockToggleToHast then None
        else Some(ElementShape("details", Colored("toggle", color, cp), [H("summary", PropsFor("toggle-summary"), rt.Rendered(text))]))
      case Table(_, _) => if cls != BlockTableToHast then None else Some(ElementShape("table", PropsFor("table"), []))
      case TableRow(cells) =>
        if cls != BlockTableRowToHast then None
        else Some(ElementShape("tr", PropsFor("table-row"), RowCells(HeaderFlags(o.parent), o.index, cells, rt, |cells|)))
      case Bookmark(url, caption) =>
        if cls != BlockBookmarkToHast then None
        else
          Some(ElementShape("figure", PropsFor("bookmark"),
            [H("a", SetAttr(PropsFor("bookmark-link"), "href", url), [Text(url)])]
            + Caption("bookmark-caption", rt.Rendered(caption))))
      case Image(src, caption) =>
        if cls != BlockImageToHast then None
        else
          Some(ElementShape("figure", PropsFor("image"),
            [H("img", SetAttr(PropsFor("image-img"), "src", SourceUrl(src)), [])]
            + Caption("image-caption", rt.Rendered(caption))))
      case Unsupported(_) => None
      case Untyped => None
    }

    /** What `build` returns for a block of the builder's own type: its element, with the block's children last. */
    function Render(o: BuildOpts): seq<Node> {
      match Shape(o)
      case None => []
      case Some(e) => [H(e.name, e.props, e.front + o.nest)]
    }

    /** What `build(o)` returns: nothing for a block of another type, otherwise `Render`. */
    function Built(o: BuildOpts): seq<Node> {
      if BlockType() == TypeName(o.block.content) then Render(o) else []
    }

    /** The body of the cell loop of `BlockTableRowToHast.build`: the tag and bag by position, around the rendered cell. */
    method BuildCell(flags: (bool, bool), index: nat, colIdx: nat, cell: seq<RichTextItem>, rt: RichTextToHast) returns (n: Node)
      ensures n == CellNode(flags, index, colIdx, rt.Rendered(cell))
    {
      var tagName := "td";
      var properties := PropsFor("table-row-cell");
      if (flags.0 && index == 0) || (flags.1 && colIdx == 0) {
        tagName := "th";
      }
      if tagName == "th" {
        properties := PropsFor("table-row-header");
        if index == 0 && colIdx == 0 {
          properties := Assign(properties, PropsFor("table-row-header-top-left"));
        } else if index == 0 {
          properties := Assign(properties, PropsFor("table-row-header-top"));
        } else if colIdx == 0 {
          properties := Assign(properties, PropsFor("table-row-header-left"));
        }
      }
      var text := rt.Build(cell);
      n := H(tagName, properties, text);
    }

    /** What the table-row class renders: the row's cells, then the children. */
    lemma RowRender(o: BuildOpts)
      requires cls == BlockTableRowToHast && o.block.content.TableRow?
      ensures Render(o) == [H("tr", PropsFor("table-row"),
        RowCells(HeaderFlags(o.parent), o.index, o.block.content.cells, o.richTextToHast, |o.block.content.cells|) + o.nest)]
    {
    }

    /** What the image class renders: the `img`, the caption when there is one, then the children. */
    lemma ImageRender(o: BuildOpts)
      requires cls == BlockImageToHast && o.block.content.Image?
      ensures Render(o) == [H("figure", PropsFor("image"),
        [H("img", SetAttr(PropsFor("image-img"), "src", SourceUrl(o.block.content.source)), [])]
        + Caption("image-caption", o.richTextToHast.Rendered(o.block.content.caption)) + o.nest)]
    {
    }

    /** `build(o)` of `BlockTableRowToHast`: one `th` or `td` per cell, in order, then the children. */
    method BuildTableRow(o: BuildOpts) returns (r: seq<Node>)
      requires cls == BlockTableRowToHast && o.block.content.TableRow?
      ensures r == Render(o)
    {
      var flags := HeaderFlags(o.parent);
      var rows := o.block.content.cells;
      var cells: seq<Node> := [];
      var colIdx := 0;
      while colIdx < |rows|
        invariant 0 <= colIdx <= |rows|
        invariant cells == RowCells(flags, o.index, rows, o.richTextToHast, colIdx)
      {
        var cell := BuildCell(flags, o.index, colIdx, rows[colIdx], o.richTextToHast);
        cells := cells + [cell];
        colIdx := colIdx + 1;
      }
      RowRender(o);
      r := [H("tr", PropsFor("table-row"), cells + o.nest)];
    }

    /** `build(o)` of `BlockImageToHast`: the image, then its caption when there is one, then the children. */
    method BuildImage(o: BuildOpts) returns (r: seq<Node>)
      requires cls == BlockImageToHast && o.block.content.Image?
      ensures r == Render(o)
    {
      var image := o.block.content;
      ImageRender(o);
      var src := SourceUrl(image.source);
      var children := [H("img", SetAttr(PropsFor("image-img"), "src", src), [])];
      var caption := o.richTextToHast.Build(image.caption);
      if |caption| > 0 {
        children := children + [H("figcaption", PropsFor("image-caption"), caption)];
      }
      assert children == [H("img", SetAttr(PropsFor("image-img"), "src", src), [])] + Caption("image-caption", caption);
      r := [H("figure", PropsFor("image"), children + o.nest)];
    }

    /** `build(o)`: the class's rendering of a block of its type, and nothing for any other block. */
    method Build(o: BuildOpts) returns (r: seq<Node>)
      ensures r == Built(o)
    {
      if BlockType() != TypeName(o.block.content) {
        return [];
      }
      if cls == BlockTableRowToHast && o.block.content.TableRow? {
        r := BuildTableRow(o);
      } else if cls == BlockImageToHast && o.block.content.Image? {
        r := BuildImage(o);
      } else {
        r := Render(o);
      }
    }

    /** A block of another type gives nothing. */
    lemma OtherTypeGivesNothing(o: BuildOpts)
      requires BlockType() != TypeName(o.block.content)
      ensures Built(o) == []
    {
    }

    /** A well-typed block of the builder's type gives exactly one element, whose last children are `nest`. */
    lemma OwnTypeGivesOneNode(o: BuildOpts)
      requires WellTyped(o.block) && BlockType() == TypeName(o.block.content)
      ensures |Built(o)| == 1
      ensures Built(o)[0].Elem? && Built(o)[0].name.Some?
      ensures var kids := Built(o)[0].kids;
        |o.nest| <= |kids| && kids[|kids| - |o.nest|..] == o.nest
    {
      KindMatches(o);
      var e := Shape(o).value;
      assert (e.front + o.nest)[|e.front|..] == o.nest;
    }

    /** A well-typed block of the builder's type has the payload the class reads. */
    lemma KindMatches(o: BuildOpts)
      requires WellTyped(o.block) && BlockType() == TypeName(o.block.content)
      ensures Shape(o).Some?
    {
    }

    /** The bag key of the caption of a code, bookmark or image block. */
    function CaptionKey(c: Content): string {
      if c.Code? then "code-caption" else if c.Bookmark? then "bookmark-caption" else "image-caption"
    }

    /** A captioned block of the builder's type: one first child, then its caption, if any. */
    lemma CaptionedFront(o: BuildOpts)
      requires BlockType() == TypeName(o.block.content)
      requires o.block.content.Code? || o.block.content.Bookmark? || o.block.content.Image?
      ensures Shape(o).Some? && |Shape(o).value.front| >= 1
      ensures Shape(o).value.front[1..] == Caption(CaptionKey(o.block.content), o.richTextToHast.Rendered(o.block.content.caption))
    {
      var c := o.block.content;
      var rt := o.richTextToHast;
      var caption := rt.Rendered(c.caption);
      CaptionedClasses(cls);
      if c.Code? {
        assert cls == BlockCodeToHast;
        var first := H("pre", PropsFor("code-pre"), [H("code", AddClassName(PropsFor("code-code"), c.language), rt.Rendered(c.richText))]);
        assert Shape(o).value.front == [first] + Caption("code-caption", caption);
        DropFirst(first, Caption("code-caption", caption));
      } else if c.Bookmark? {
        assert cls == BlockBookmarkToHast;
        var first := H("a", SetAttr(PropsFor("bookmark-link"), "href", c.url), [Text(c.url)]);
        assert Shape(o).value.front == [first] + Caption("bookmark-caption", caption);
        DropFirst(first, Caption("bookmark-caption", caption));
      } else {
        assert cls == BlockImageToHast;
        var first := H("img", SetAttr(PropsFor("image-img"), "src", SourceUrl(c.source)), []);
        assert Shape(o).value.front == [first] + Caption("image-caption", caption);
        DropFirst(first, Caption("image-caption", caption));
      }
    }

    /**
     * Code, bookmark and image blocks get a `figcaption` right after their first child
     * exactly when their caption renders to at least one node.
     */
    lemma CaptionOnlyWhenNonEmpty(o: BuildOpts)
      requires BlockType() == TypeName(o.block.content)
      requires o.block.content.Code? || o.block.content.Bookmark? || o.block.content.Image?
      ensures |Built(o)| == 1
      ensures var kids := Built(o)[0].kids;
        var caption := o.richTextToHast.Rendered(o.block.content.caption);
        |kids| == |o.nest| + (if |caption| > 0 then 2 else 1)
        && (|caption| > 0 ==> kids[1] == H("figcaption", PropsFor(CaptionKey(o.block.content)), caption))
    {
      CaptionedFront(o);
      var e := Shape(o).value;
      assert Built(o) == [H(e.name, e.props, e.front + o.nest)];
    }

    /** A to-do block starts with its checkbox `div`, whose bag is chosen by `checked`. */
    lemma TodoCheckbox(o: BuildOpts)
      requires BlockType() == TypeName(o.block.content) && o.block.content.ToDo?
      ensures |Built(o)| == 1 && |Built(o)[0].kids| >= 1
      ensures Built(o)[0].kids[0] == H("div", PropsFor(if o.block.content.checked then "todo-checked" else "todo-not-checked"), [])
    {
      TodoClass(cls);
      var e := Shape(o).value;
      assert Built(o) == [H(e.name, e.props, e.front + o.nest)];
    }

    /** An image block starts with its `img`, whose `src` is the URL of its file source of either kind. */
    lemma ImageSource(o: BuildOpts)
      requires BlockType() == TypeName(o.block.content) && o.block.content.Image?
      ensures |Built(o)| == 1 && |Built(o)[0].kids| >= 1
      ensures Built(o)[0].kids[0] == H("img", SetAttr(PropsFor("image-img"), "src", o.block.content.source.url), [])
    {
      CaptionedClasses(cls);
      var e := Shape(o).value;
      assert Built(o) == [H(e.name, e.props, e.front + o.nest)];
    }

    /** A list class breaks a run only on another type and wraps its run in `ul` or `ol`; every other class always breaks and wraps nothing. */
    lemma BreakAndTagRules(t: string)
      ensures !IsListClass(cls) ==> IsBreak(t) && OuterTag() == Tag(None, None)
      ensures IsListClass(cls) ==> (IsBreak(t) <==> t != BlockType())
      ensures cls == BlockBulletedListItemToHast ==> OuterTag() == Tag(Some("ul"), Some(PropsFor("bulleted-list")))
      ensures cls == BlockNumberedListItemToHast ==> OuterTag() == Tag(Some("ol"), Some(PropsFor("numbered-list")))
    {
    }

    /** Row `index` has one cell per input cell, in order; header cells follow the table's flags. */
    lemma RowCellsInOrder(flags: (bool, bool), index: nat, cells: seq<seq<RichTextItem>>, rt: RichTextToHast, n: nat)
      requires n <= |cells|
      ensures |RowCells(flags, index, cells, rt, n)| == n
      ensures forall c :: 0 <= c < n ==>
        RowCells(flags, index, cells, rt, n)[c] == CellNode(flags, index, c, rt.Rendered(cells[c]))
    {
      RowCellsLength(flags, index, cells, rt, n);
      forall c | 0 <= c < n
        ensures RowCells(flags, index, cells, rt, n)[c] == CellNode(flags, index, c, rt.Rendered(cells[c]))
      {
        RowCellAt(flags, index, cells, rt, n, c);
      }
    }

    /** The first `n` cells of a row are `n` nodes. */
    lemma {:induction false} RowCellsLength(flags: (bool, bool), index: nat, cells: seq<seq<RichTextItem>>, rt: RichTextToHast, n: nat)
      requires n <= |cells|
      ensures |RowCells(flags, index, cells, rt, n)| == n
    {
      if n > 0 {
        RowCellsLength(flags, index, cells, rt, n - 1);
      }
    }

    /** Cell `c` of the first `n` cells is the one built at column `c`. */
    lemma {:induction false} RowCellAt(flags: (bool, bool), index: nat, cells: seq<seq<RichTextItem>>, rt: RichTextToHast, n: nat, c: nat)
      requires c < n <= |cells|
      ensures |RowCells(flags, index, cells, rt, n)| == n
      ensures RowCells(flags, index, cells, rt, n)[c] == CellNode(flags, index, c, rt.Rendered(cells[c]))
      decreases n
    {
      RowCellsLength(flags, index, cells, rt, n - 1);
      var prev := RowCells(flags, index, cells, rt, n - 1);
      var last := CellNode(flags, index, n - 1, rt.Rendered(cells[n - 1]));
      assert RowCells(flags, index, cells, rt, n) == prev + [last];
      if c < n - 1 {
        RowCellAt(flags, index, cells, rt, n - 1, c);
        assert (prev + [last])[c] == prev[c];
      } else {
        assert (prev + [last])[c] == last;
      }
    }

    /**
     * A cell is `th` exactly when the parent table has a column header and this is row 0,
     * or a row header and this is column 0; header bags are overwritten by corner, top or left.
     */
    lemma HeaderCellRules(flags: (bool, bool), index: nat, colIdx: nat, cell: seq<Node>)
      ensures CellNode(flags, index, colIdx, cell).name == Some("th") <==> IsHeaderCell(flags, index, colIdx)
      ensures !IsHeaderCell(flags, index, colIdx) ==> CellNode(flags, index, colIdx, cell).props == PropsFor("table-row-cell")
      ensures IsHeaderCell(flags, index, colIdx) && index == 0 && colIdx == 0 ==>
        CellNode(flags, index, colIdx, cell).props == Assign(PropsFor("table-row-header"), PropsFor("table-row-header-top-left"))
      ensures IsHeaderCell(flags, index, colIdx) && index == 0 && colIdx != 0 ==>
        CellNode(flags, index, colIdx, cell).props == Assign(PropsFor("table-row-header"), PropsFor("table-row-header-top"))
      ensures IsHeaderCell(flags, index, colIdx) && index != 0 && colIdx == 0 ==>
        CellNode(flags, index, colIdx, cell).props == Assign(PropsFor("table-row-header"), PropsFor("table-row-header-left"))
    {
    }
  }

  /** `new <Class>(opts)`: the flag defaults to off and the bags are copied. */
  function NewBuilder(cls: BuilderClass, opts: BuilderOpts): (b: Builder)
    ensures b.cls == cls && b.BlockType() == ClassType(cls)
    ensures b.defaultClassname == opts.defaultClassname.GetOr(false)
    ensures b.propertiesMap == opts.propertiesMap
  {
    Builder(cls, opts.defaultClassname.GetOr(false), opts.propertiesMap)
  }
}
