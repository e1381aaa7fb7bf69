/** Inline rich-text runs to hast nodes (src/lib/richtext.ts). */
module RichText {
  import opened Wrappers
  import opened Seqs
  import opened Hast
  import opened PropsMerge
  import opened Color

  /** The annotation flags of a run.  A colour of `""` stands for an absent colour. */
  datatype Annotations = Annotations(
    bold: bool, italic: bool, strikethrough: bool, underline: bool, code: bool, color: string)

  /** One rich-text item: its `type`, its `plain_text`, its optional `href` and its annotations. */
  datatype RichTextItem = RichTextItem(typ: string, plainText: string, href: Option<string>, annotations: Annotations)

  /** The part of `s` before the first `c`; all of `s` when `c` does not occur. */
  function PrefixBefore(s: string, c: char): (p: string)
    ensures |p| <= |s| && p == s[..|p|]
    ensures c !in p
    ensures |p| < |s| ==> s[|p|] == c
    ensures |p| == |s| <==> c !in s
  {
    if s == [] || s[0] == c then [] else [s[0]] + PrefixBefore(s[1..], c)
  }

  /**
   * `colorText(color)`: a token without `_` is a text colour, returned first; otherwise the
   * part before the first `_` is returned second, as a background colour.
   */
  function ColorText(richTextColor: string): (r: (string, string))
    ensures '_' !in richTextColor ==> r == (richTextColor, "")
    ensures '_' in richTextColor ==>
      r.0 == "" && '_' !in r.1 && |r.1| < |richTextColor| && richTextColor[..|r.1| + 1] == r.1 + "_"
  {
    if '_' in richTextColor then ("", PrefixBefore(richTextColor, '_')) else (richTextColor, "")
  }

  /** `text.href` is truthy. */
  predicate HasHref(text: RichTextItem) {
    text.href.Some? && text.href.value != ""
  }

  /** The colour annotation is set and is not `default`. */
  predicate HasColor(a: Annotations) {
    a.color != "" && a.color != "default"
  }

  /** One wrapping tag of a run, before nesting. */
  datatype Wrapper = Wrapper(name: string, props: Props)

  const UnderlineStyle := "text-decoration: underline;"

  /** The inline renderer's options: the default-class-name flag and the per-tag property bags. */
  datatype RichTexttoHastOpts = RichTexttoHastOpts(defaultClassName: bool, propertiesMap: map<string, Props>)

  /** Nests `tags` outermost first around the text `value`; no tags leave the bare text. */
  function NestTags(tags: seq<Wrapper>, value: string): Node {
    if tags == [] then Text(value) else H(tags[0].name, tags[0].props, [NestTags(tags[1..], value)])
  }

  /** The second half of `textToHast`: the text alone without wrappers, otherwise nested from the last wrapper outwards. */
  method NestAround(tag: seq<Wrapper>, value: string) returns (n: Node)
    ensures n == NestTags(tag, value)
  {
    var len := |tag|;
    if len == 0 {
      return Text(value);
    }
    n := H(tag[len - 1].name, tag[len - 1].props, [Text(value)]);
    SuffixStep(tag, len - 1);
    assert tag[len..] == [];
    var i := len - 2;
    while i >= 0
      invariant -1 <= i <= len - 2
      invariant n == NestTags(tag[i + 1..], value)
    {
      SuffixStep(tag, i);
      n := H(tag[i].name, tag[i].props, [n]);
      i := i - 1;
    }
    assert tag[0..] == tag;
  }

  /** The chain of single-child elements from `n` down, each with its tag name and bag. */
  function Spine(n: Node): seq<Wrapper> {
    match n
    case Elem(Some(name), props, kids) => if |kids| == 1 then [Wrapper(name, props)] + Spine(kids[0]) else []
    case _ => []
  }

  /** The text at the bottom of that chain, if there is one. */
  function Leaf(n: Node): Option<string> {
    match n
    case Text(v) => Some(v)
    case Elem(Some(_), _, kids) => if |kids| == 1 then Leaf(kids[0]) else None
    case _ => None
  }

  /** Nesting loses nothing: the chain of a nested run gives back its tags and its text. */
  lemma {:induction false} NestTagsRoundTrip(tags: seq<Wrapper>, value: string)
    ensures Spine(NestTags(tags, value)) == tags
    ensures Leaf(NestTags(tags, value)) == Some(value)
  {
    if tags != [] {
      NestTagsRoundTrip(tags[1..], value);
    }
  }

  /**
   * Puts a colour's bag on the innermost wrapper, creating a bare `span` first when there
   * is none.
   */
  function FoldColor(ws: seq<Wrapper>, c: Props): (r: seq<Wrapper>)
    ensures |r| == if ws == [] then 1 else |ws|
    ensures forall i :: 0 <= i < |r| - 1 ==> r[i] == ws[i]
    ensures r[|r| - 1].name == if ws == [] then "span" else ws[|ws| - 1].name
    ensures r[|r| - 1].props == MergeProps(if ws == [] then EmptyProps else ws[|ws| - 1].props, c)
  {
    var ws' := if ws == [] then [Wrapper("span", EmptyProps)] else ws;
    var last := ws'[|ws'| - 1];
    ws'[|ws'| - 1 := last.(props := MergeProps(last.props, c))]
  }

  /** Folding a colour keeps the tag names of a non-empty wrapper list. */
  lemma FoldColorKeepsNames(ws: seq<Wrapper>, c: Props)
    requires ws != []
    ensures Names(FoldColor(ws, c)) == Names(ws)
  {
    var r := FoldColor(ws, c);
    NamesAreTagNames(ws);
    NamesAreTagNames(r);
  }

  /** `Names` lists the tag names position by position. */
  lemma {:induction false} NamesAreTagNames(ws: seq<Wrapper>)
    ensures |Names(ws)| == |ws|
    ensures forall i :: 0 <= i < |ws| ==> Names(ws)[i] == ws[i].name
  {
    if ws != [] {
      NamesAreTagNames(ws[1..]);
    }
  }

  /** The colour step of `textToHast`: a `span` is pushed when no wrapper exists, then the innermost bag is merged with the colour's. */
  method ColorInnermost(tag: seq<Wrapper>, c: Props) returns (t: seq<Wrapper>)
    ensures t == FoldColor(tag, c)
  {
    t := tag;
    if |t| == 0 {
      t := t + [Wrapper("span", EmptyProps)];
    }
    var len := |t|;
    var last := t[len - 1];
    t := t[len - 1 := last.(props := MergeProps(last.props, c))];
  }

  /** The push of `w` when `b` holds: a one-element list, or nothing. */
  function Opt(b: bool, w: Wrapper): seq<Wrapper> {
    if b then [w] else []
  }

  /** The one-element list `[name]` when `b` holds. */
  function OptName(b: bool, name: string): seq<string> {
    if b then [name] else []
  }

  /** The names of an optional wrapper. */
  lemma OptNames(b: bool, w: Wrapper)
    ensures Names(Opt(b, w)) == OptName(b, w.name)
  {
  }

  /** Appending an optional wrapper appends its optional name. */
  lemma AppendOptName(acc: seq<Wrapper>, accNames: seq<string>, b: bool, w: Wrapper)
    requires Names(acc) == accNames
    ensures Names(acc + Opt(b, w)) == accNames + OptName(b, w.name)
  {
    NamesAppend(acc, Opt(b, w));
    OptNames(b, w);
  }

  /** The names of six optional wrappers in a row are the selected names in the same order. */
  lemma SixNames(b1: bool, w1: Wrapper, b2: bool, w2: Wrapper, b3: bool, w3: Wrapper,
                 b4: bool, w4: Wrapper, b5: bool, w5: Wrapper, b6: bool, w6: Wrapper)
    ensures Names(Opt(b1, w1) + Opt(b2, w2) + Opt(b3, w3) + Opt(b4, w4) + Opt(b5, w5) + Opt(b6, w6))
      == OptName(b1, w1.name) + OptName(b2, w2.name) + OptName(b3, w3.name)
      + OptName(b4, w4.name) + OptName(b5, w5.name) + OptName(b6, w6.name)
  {
    OptNames(b1, w1);
    AppendOptName(Opt(b1, w1), OptName(b1, w1.name), b2, w2);
    AppendOptName(Opt(b1, w1) + Opt(b2, w2), OptName(b1, w1.name) + OptName(b2, w2.name), b3, w3);
    AppendOptName(Opt(b1, w1) + Opt(b2, w2) + Opt(b3, w3), OptName(b1, w1.name) + OptName(b2, w2.name) + OptName(b3, w3.name), b4, w4);
    AppendOptName(Opt(b1, w1) + Opt(b2, w2) + Opt(b3, w3) + Opt(b4, w4), OptName(b1, w1.name) + OptName(b2, w2.name) + OptName(b3, w3.name) + OptName(b4, w4.name), b5, w5);
    AppendOptName(Opt(b1, w1) + Opt(b2, w2) + Opt(b3, w3) + Opt(b4, w4) + Opt(b5, w5), OptName(b1, w1.name) + OptName(b2, w2.name) + OptName(b3, w3.name) + OptName(b4, w4.name) + OptName(b5, w5.name), b6, w6);
  }

  /** The tag names of a wrapper list, in order. */
  function Names(ws: seq<Wrapper>): seq<string> {
    if ws == [] then [] else [ws[0].name] + Names(ws[1..])
  }

  /** The names of a concatenation are the concatenated names. */
  lemma {:induction false} NamesAppend(a: seq<Wrapper>, b: seq<Wrapper>)
    ensures Names(a + b) == Names(a) + Names(b)
  {
    if a != [] {
      assert (a + b)[1..] == a[1..] + b;
      NamesAppend(a[1..], b);
    } else {
      assert a + b == b;
    }
  }

  /** The inline renderer: its colour resolver and options, fixed at construction. */
  datatype RichTextToHast = RichTextToHast(colorProps: ColorProps, defaultClassName: bool, propertiesMap: map<string, Props>) {

    /**
     * `props(key)`: a copy of the configured bag, given `className = key` when the
     * default-class-name option is on and the bag has no class name.
     */
    function PropsFor(key: string): (r: Props)
      ensures var base := if key in propertiesMap then propertiesMap[key] else EmptyProps;
        r.style == base.style && r.attrs == base.attrs
        && r.className == if defaultClassName && base.className.None? then Some(Scalar(key)) else base.className
    {
      var ret := if key in propertiesMap then propertiesMap[key] else EmptyProps;
      if defaultClassName && ret.className.None? then ret.(className := Some(Scalar(key))) else ret
    }

    /**
     * The underline wrapper's bag: the underline style is added only when the bag is `{}`
     * or exactly `{ className: 'text-underline' }`; any other bag is used unchanged.
     */
    function UnderlineProps(): (r: Props)
      ensures var p := PropsFor("text-underline");
        (p == EmptyProps || p == Props(Some(Scalar("text-underline")), None, map[])) ==> r == p.(style := Some(UnderlineStyle))
      ensures var p := PropsFor("text-underline");
        !(p == EmptyProps || p == Props(Some(Scalar("text-underline")), None, map[])) ==> r == p
    {
      var props := PropsFor("text-underline");
      var plain := EntryCount(props) == 0
        || (EntryCount(props) == 1 && props.className == Some(Scalar("text-underline")));
      if plain then
        assert props.attrs + map[] == props.attrs;
        assert JoinStyle("", UnderlineStyle) == UnderlineStyle;
        MergeProps(props, StyleOnly(UnderlineStyle))
      else props
    }

    /** The wrappers a run's href and flags call for, outermost first, before its colour. */
    function FlagWrappers(text: RichTextItem): seq<Wrapper> {
      var a := text.annotations;
      Opt(HasHref(text), Wrapper("a", SetAttr(PropsFor("text-link"), "href", text.href.GetOr(""))))
      + Opt(a.code, Wrapper("code", PropsFor("text-code")))
      + Opt(a.bold, Wrapper("strong", PropsFor("text-bold")))
      + Opt(a.italic, Wrapper("em", PropsFor("text-italic")))
      + Opt(a.strikethrough, Wrapper("s", PropsFor("text-strikethrough")))
      + Opt(a.underline, Wrapper("span", UnderlineProps()))
    }

    /** All wrappers of a run: the flag wrappers with the colour folded onto the innermost. */
    function Tags(text: RichTextItem): seq<Wrapper> {
      var ws := FlagWrappers(text);
      if HasColor(text.annotations) then FoldColor(ws, colorProps.PropsFor(text.annotations.color)) else ws
    }

    /** What `textToHast` returns for a run. */
    function TextNode(text: RichTextItem): Node {
      NestTags(Tags(text), text.plainText)
    }

    /** What `build` adds for one item: its run when it is of type `text`, otherwise nothing. */
    function Item(x: RichTextItem): seq<Node> {
      if x.typ == "text" then [TextNode(x)] else []
    }

    /** What `build` returns: one node per item of type `text`, in order. */
    function Rendered(items: seq<RichTextItem>): seq<Node> {
      if items == [] then [] else Rendered(items[..|items| - 1]) + Item(items[|items| - 1])
    }

    /** The first half of `textToHast`: the wrappers pushed for the flags, then the colour folded onto the innermost. */
    method CollectTags(text: RichTextItem) returns (tag: seq<Wrapper>)
      ensures tag == Tags(text)
    {
      // each set flag pushes its wrapper (`Opt` is the one-element push or nothing)
      tag := [];
      var a := text.annotations;
      tag := tag + Opt(HasHref(text), Wrapper("a", SetAttr(PropsFor("text-link"), "href", text.href.GetOr(""))));
      tag := tag + Opt(a.code, Wrapper("code", PropsFor("text-code")));
      tag := tag + Opt(a.bold, Wrapper("strong", PropsFor("text-bold")));
      tag := tag + Opt(a.italic, Wrapper("em", PropsFor("text-italic")));
      tag := tag + Opt(a.strikethrough, Wrapper("s", PropsFor("text-strikethrough")));
      tag := tag + Opt(a.underline, Wrapper("span", UnderlineProps()));
      assert tag == FlagWrappers(text) by {
        assert [] + Opt(HasHref(text), Wrapper("a", SetAttr(PropsFor("text-link"), "href", text.href.GetOr("")))) == Opt(HasHref(text), Wrapper("a", SetAttr(PropsFor("text-link"), "href", text.href.GetOr(""))));
      }
      if HasColor(a) {
        tag := ColorInnermost(tag, colorProps.PropsFor(a.color));
      }
      assert tag == Tags(text);
    }

    /** `textToHast(text)`: collects the wrappers, then nests them from the inside out around the text. */
    method TextToHast(text: RichTextItem) returns (n: Node)
      ensures n == TextNode(text)
    {
      var tag := CollectTags(text);
      n := NestAround(tag, text.plainText);
    }

    /** `build(items)`: renders the items of type `text` in order and skips the others. */
    method Build(items: seq<RichTextItem>) returns (ret: seq<Node>)
      ensures ret == Rendered(items)
    {
      ret := [];
      for k := 0 to |items|
        invariant ret == Rendered(items[..k])
      {
        assert items[..k + 1][..k] == items[..k];
        if items[k].typ == "text" {
          var n := TextToHast(items[k]);
          ret := ret + [n];
        }
      }
      assert items[..|items|] == items;
    }

    /** A run with no link, no flag and no colour renders as its bare text. */
    lemma PlainRunIsBareText(text: RichTextItem)
      requires !HasHref(text) && !HasColor(text.annotations)
      requires var a := text.annotations; !a.code && !a.bold && !a.italic && !a.strikethrough && !a.underline
      ensures TextNode(text) == Text(text.plainText)
    {
    }

    /** The names of a run's link and flag wrappers, in push order. */
    function FlagNames(text: RichTextItem): seq<string> {
      var a := text.annotations;
      OptName(HasHref(text), "a") + OptName(a.code, "code") + OptName(a.bold, "strong")
        + OptName(a.italic, "em") + OptName(a.strikethrough, "s") + OptName(a.underline, "span")
    }

    /** The flag wrappers carry exactly the names of the set flags, outermost first. */
    lemma FlagWrapperNames(text: RichTextItem)
      ensures Names(FlagWrappers(text)) == FlagNames(text)
    {
      var a := text.annotations;
      SixNames(HasHref(text), Wrapper("a", SetAttr(PropsFor("text-link"), "href", text.href.GetOr(""))),
        a.code, Wrapper("code", PropsFor("text-code")), a.bold, Wrapper("strong", PropsFor("text-bold")),
        a.italic, Wrapper("em", PropsFor("text-italic")), a.strikethrough, Wrapper("s", PropsFor("text-strikethrough")),
        a.underline, Wrapper("span", UnderlineProps()));
    }

    /**
     * The wrappers come outermost first in the order link, code, bold, italic, strikethrough,
     * underline; a colour alone adds a `span`; the text sits inside the innermost wrapper.
     */
    lemma WrapperOrder(text: RichTextItem)
      ensures Names(Tags(text)) == FlagNames(text) + (if FlagNames(text) == [] && HasColor(text.annotations) then ["span"] else [])
      ensures Spine(TextNode(text)) == Tags(text)
      ensures Leaf(TextNode(text)) == Some(text.plainText)
    {
      var ws := FlagWrappers(text);
      FlagWrapperNames(text);
      NamesAreTagNames(ws);
      if HasColor(text.annotations) {
        var c := colorProps.PropsFor(text.annotations.color);
        if ws == [] {
          NamesAreTagNames(FoldColor(ws, c));
        } else {
          FoldColorKeepsNames(ws, c);
        }
      }
      NestTagsRoundTrip(Tags(text), text.plainText);
    }

    /** The link wrapper is outermost, and its `href` is the run's, whatever the configured bag holds. */
    lemma LinkHrefWins(text: RichTextItem)
      requires HasHref(text)
      ensures FlagWrappers(text)[0].name == "a"
      ensures "href" in FlagWrappers(text)[0].props.attrs && FlagWrappers(text)[0].props.attrs["href"] == text.href.value
      ensures Tags(text)[0].name == "a"
    {
    }

    /**
     * A colour on a run without link or flags makes one `span` holding the colour's bag;
     * a colour the resolver does not know still gives a bare `span {}`.
     */
    lemma ColorOnlyRun(text: RichTextItem)
      requires !HasHref(text) && HasColor(text.annotations)
      requires var a := text.annotations; !a.code && !a.bold && !a.italic && !a.strikethrough && !a.underline
      ensures Tags(text) == [Wrapper("span", colorProps.PropsFor(text.annotations.color))]
      ensures text.annotations.color !in colorProps.colorPropertiesMap ==> Tags(text) == [Wrapper("span", EmptyProps)]
    {
      var c := colorProps.PropsFor(text.annotations.color);
      MergeEmptyLeft(c);
      MergeEmptyRight(EmptyProps);
    }

    /** Rendering distributes over concatenation, so items render independently and in order. */
    lemma {:induction false} RenderedAppend(xs: seq<RichTextItem>, ys: seq<RichTextItem>)
      ensures Rendered(xs + ys) == Rendered(xs) + Rendered(ys)
      decreases |ys|
    {
      if ys == [] {
        AppendEmpty(xs);
        AppendEmpty(Rendered(xs));
      } else {
        var init, last := ys[..|ys| - 1], ys[|ys| - 1];
        AppendInit(xs, ys);
        RenderedAppend(xs, init);
        AppendAssoc(Rendered(xs), Rendered(init), Item(last));
      }
    }

    /** Exactly the items of type `text` produce a node, namely their own run. */
    lemma RenderedSingle(x: RichTextItem)
      ensures Rendered([x]) == if x.typ == "text" then [TextNode(x)] else []
    {
      assert [x][..0] == [];
    }
  }

  /** `new RichTextToHast(opts, colorProps)`: the option bags are copied, the flag defaults to off. */
  function NewRichTextToHast(opts: RichTexttoHastOpts, colorProps: ColorProps): (r: RichTextToHast)
    ensures r.colorProps == colorProps
    ensures r.defaultClassName == opts.defaultClassName
    ensures r.propertiesMap == opts.propertiesMap
  {
    RichTextToHast(colorProps, opts.defaultClassName, opts.propertiesMap)
  }
}
