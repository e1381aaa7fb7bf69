/**
 * The markup tree the converter produces (a hast tree) and the property bags on its
 * elements.  A property bag keeps `className` and `style` apart from every other key,
 * because those two are the keys the merge rules treat specially.
 */
module Hast {
  import opened Wrappers

  /** A `className` value: one token, as a string, or a list of tokens. */
  datatype ClassName = Scalar(token: string) | List(tokens: seq<string>)

  /** The tokens of an optional `className`, a single token counting as a one-element list. */
  function Tokens(c: Option<ClassName>): seq<string> {
    match c
    case None => []
    case Some(Scalar(t)) => [t]
    case Some(List(ts)) => ts
  }

  /**
   * A property bag.  An absent key is `None` (for `className` and `style`) or missing from
   * `attrs`; `attrs` holds every key other than `className` and `style`.
   */
  datatype Props = Props(className: Option<ClassName>, style: Option<string>, attrs: map<string, string>)

  /** The empty bag `{}`. */
  const EmptyProps := Props(None, None, map[])

  /** The number of keys of a bag (the length of `Object.entries`). */
  function EntryCount(p: Props): nat {
    (if p.className.Some? then 1 else 0) + (if p.style.Some? then 1 else 0) + |p.attrs|
  }

  /** `Object.assign(copy of p, { key: value })` for a key other than `className` and `style`. */
  function SetAttr(p: Props, key: string, value: string): (r: Props)
    ensures r.className == p.className && r.style == p.style
    ensures key in r.attrs && r.attrs[key] == value
    ensures forall k :: k in p.attrs && k != key ==> k in r.attrs && r.attrs[k] == p.attrs[k]
    ensures r.attrs.Keys == p.attrs.Keys + {key}
  {
    p.(attrs := p.attrs[key := value])
  }

  /** `Object.assign({}, a, b)`: a copy of `a` with every key `b` has overwritten by `b`'s value. */
  function Assign(a: Props, b: Props): (r: Props)
    ensures b.className.Some? ==> r.className == b.className
    ensures b.className.None? ==> r.className == a.className
    ensures b.style.Some? ==> r.style == b.style
    ensures b.style.None? ==> r.style == a.style
    ensures r.attrs.Keys == a.attrs.Keys + b.attrs.Keys
    ensures forall k :: k in b.attrs ==> r.attrs[k] == b.attrs[k]
    ensures forall k :: k in a.attrs && k !in b.attrs ==> r.attrs[k] == a.attrs[k]
  {
    Props(if b.className.Some? then b.className else a.className,
      if b.style.Some? then b.style else a.style,
      a.attrs + b.attrs)
  }

  /**
   * A hast node: a text leaf, or an element whose tag name is `None` for a fragment
   * (a hast root, which a consumer splices into its parent).
   */
  datatype Node = Text(value: string) | Elem(name: Option<string>, props: Props, kids: seq<Node>)

  /** `h(name, props, ...kids)` for a concrete tag name. */
  function H(name: string, props: Props, kids: seq<Node>): Node {
    Elem(Some(name), props, kids)
  }

  /** `h(null, ...kids)`: a fragment. */
  function Fragment(kids: seq<Node>): Node {
    Elem(None, EmptyProps, kids)
  }
}
