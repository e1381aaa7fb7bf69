/** Merging of two property bags (src/lib/props.ts). */
module PropsMerge {
  import opened Wrappers
  import opened Hast

  /** ECMAScript white space and line terminators: what `String.prototype.trimEnd` removes. */
  predicate IsWhitespace(c: char) {
    c == '\t' || c == '\n' || c == '\U{B}' || c == '\U{C}' || c == '\r' || c == ' '
    || c == '\U{A0}' || c == '\U{1680}' || ('\U{2000}' <= c <= '\U{200A}')
    || c == '\U{2028}' || c == '\U{2029}' || c == '\U{202F}' || c == '\U{205F}'
    || c == '\U{3000}' || c == '\U{FEFF}'
  }

  /** `s.trimEnd()`: the longest prefix of `s` after which only white space follows. */
  function TrimEnd(s: string): (r: string)
    ensures |r| <= |s| && r == s[..|r|]
    ensures r == [] || !IsWhitespace(r[|r| - 1])
    ensures forall i :: |r| <= i < |s| ==> IsWhitespace(s[i])
  {
    if s != [] && IsWhitespace(s[|s| - 1]) then TrimEnd(s[..|s| - 1]) else s
  }

  /**
   * The style string of a merge when the overlay has a style: the base style with trailing
   * white space removed, a `;` exactly when that is non-empty and does not end in one,
   * then the overlay's style.
   */
  function JoinStyle(base: string, overlay: string): (r: string)
    ensures var ps := TrimEnd(base);
      (ps == [] || ps[|ps| - 1] == ';') ==> r == ps + overlay
    ensures var ps := TrimEnd(base);
      (ps != [] && ps[|ps| - 1] != ';') ==> r == ps + ";" + overlay
  {
    var ps := TrimEnd(base);
    var dlm := if ps != [] && ps[|ps| - 1] != ';' then ";" else "";
    ps + dlm + overlay
  }

  /**
   * `mergeProps(p, overlay)`: the overlay's keys other than `className` and `style`
   * overwrite those of `p`; class names are concatenated base first; styles are joined.
   * The inputs are values, so neither can be changed.
   */
  function MergeProps(p: Props, overlay: Props): (r: Props)
    // other keys: the overlay wins, keys of either side survive
    ensures r.attrs.Keys == p.attrs.Keys + overlay.attrs.Keys
    ensures forall k :: k in overlay.attrs ==> r.attrs[k] == overlay.attrs[k]
    ensures forall k :: k in p.attrs && k !in overlay.attrs ==> r.attrs[k] == p.attrs[k]
    // className
    ensures overlay.className.None? ==> r.className == p.className
    ensures overlay.className.Some? && p.className.None? ==> r.className == overlay.className
    ensures overlay.className.Some? && p.className.Some? ==>
      r.className == Some(List(Tokens(p.className) + Tokens(overlay.className)))
    // style
    ensures overlay.style.None? ==> r.style == p.style
    ensures overlay.style.Some? ==> r.style == Some(JoinStyle(p.style.GetOr(""), overlay.style.value))
  {
    var ret := p.(attrs := p.attrs + overlay.attrs);
    var ret := if overlay.className.None? then ret
      else if p.className.Some? then ret.(className := Some(List(Tokens(p.className) + Tokens(overlay.className))))
      else ret.(className := overlay.className);
    if overlay.style.Some? then ret.(style := Some(JoinStyle(p.style.GetOr(""), overlay.style.value))) else ret
  }

  /** Merging with `{}` leaves a bag unchanged. */
  lemma MergeEmptyRight(p: Props)
    ensures MergeProps(p, EmptyProps) == p
  {
  }

  /** Merging onto `{}` gives the overlay back unchanged, a scalar class name staying a scalar. */
  lemma MergeEmptyLeft(overlay: Props)
    ensures MergeProps(EmptyProps, overlay) == overlay
  {
    assert map[] + overlay.attrs == overlay.attrs;
    if overlay.style.Some? {
      assert JoinStyle("", overlay.style.value) == "" + "" + overlay.style.value == overlay.style.value;
    }
  }

  /** Two scalar class names merge into a two-element list, base first. */
  lemma MergeScalarClassNames(p: Props, overlay: Props, a: string, b: string)
    requires p.className == Some(Scalar(a)) && overlay.className == Some(Scalar(b))
    ensures MergeProps(p, overlay).className == Some(List([a, b]))
  {
    assert Tokens(p.className) + Tokens(overlay.className) == [a] + [b] == [a, b];
  }

  /** A base style that already ends in `;` (ignoring trailing white space) gets no second one. */
  lemma NoDoubleSemicolon(base: string, overlay: string)
    requires base != [] && base[|base| - 1] == ';'
    ensures JoinStyle(base, overlay) == base + overlay
  {
  }

  /** A style without white space at its end and not ending in `;` is followed by exactly one `;`. */
  lemma SemicolonInserted(base: string, overlay: string)
    requires base != [] && base[|base| - 1] != ';' && !IsWhitespace(base[|base| - 1])
    ensures JoinStyle(base, overlay) == base + ";" + overlay
  {
  }

  /** Trailing white space of the base style is dropped before joining. */
  lemma {:induction false} TrailingWhitespaceDropped(base: string, ws: string, overlay: string)
    requires forall i :: 0 <= i < |ws| ==> IsWhitespace(ws[i])
    ensures JoinStyle(base + ws, overlay) == JoinStyle(base, overlay)
  {
    TrimEndWhitespaceSuffix(base, ws);
  }

  /** `trimEnd` removes a white-space suffix along with whatever white space precedes it. */
  lemma {:induction false} TrimEndWhitespaceSuffix(s: string, ws: string)
    requires forall i :: 0 <= i < |ws| ==> IsWhitespace(ws[i])
    ensures TrimEnd(s + ws) == TrimEnd(s)
    decreases |ws|
  {
    if ws != [] {
      var w' := ws[..|ws| - 1];
      assert (s + ws)[..|s + ws| - 1] == s + w';
      TrimEndWhitespaceSuffix(s, w');
    } else {
      assert s + ws == s;
    }
  }
}
