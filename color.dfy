/** Colour tokens to property bags (src/lib/color.ts). */
module Color {
  import opened Wrappers
  import opened Hast

  /** A bag holding only a `style`. */
  function StyleOnly(style: string): Props {
    Props(None, Some(style), map[])
  }

  /** The built-in colour table: nine text colours and their nine background variants. */
  const DefaultColorMap: map<string, Props> := map[
    "gray" := StyleOnly("color:#9B9A97"),
    "brown" := StyleOnly("color:#64473A"),
    "orange" := StyleOnly("color:#D9730D"),
    "yellow" := StyleOnly("color:#DFAB01"),
    "green" := StyleOnly("color:#0F7B6C"),
    "blue" := StyleOnly("color:#0B6E99"),
    "purple" := StyleOnly("color:#6940A5"),
    "pink" := StyleOnly("color:#AD1A72"),
    "red" := StyleOnly("color:#E03E3E"),
    "gray_background" := StyleOnly("background-color:#EBECED"),
    "brown_background" := StyleOnly("background-color:#E9E5E3"),
    "orange_background" := StyleOnly("background-color:#FAEBDD"),
    "yellow_background" := StyleOnly("background-color:#FBF3DB"),
    "green_background" := StyleOnly("background-color:#DDEDEA"),
    "blue_background" := StyleOnly("background-color:#DDEBF1"),
    "purple_background" := StyleOnly("background-color:#EAE4F2"),
    "pink_background" := StyleOnly("background-color:#F4DFEB"),
    "red_background" := StyleOnly("background-color:#FBE4E4")
  ]

  /** The colour resolver; its table is filled once, by `NewColorProps`, and only read afterwards. */
  datatype ColorProps = ColorProps(colorPropertiesMap: map<string, Props>) {

    /** `props(color)`: a copy of the stored entry, or `{}` for a token without one. */
    function PropsFor(color: string): (r: Props)
      ensures color in colorPropertiesMap ==> r == colorPropertiesMap[color]
      ensures color !in colorPropertiesMap ==> r == EmptyProps
    {
      if color in colorPropertiesMap then colorPropertiesMap[color] else EmptyProps
    }
  }

  /**
   * `new ColorProps({ colorPropertiesMap: overrides })`: the built-in table, then the
   * caller's entries copied over it, so a caller's entry wins on every token it names.
   */
  function NewColorProps(overrides: map<string, Props>): (c: ColorProps)
    ensures forall k :: k in overrides ==> c.PropsFor(k) == overrides[k]
    ensures forall k :: k !in overrides && k in DefaultColorMap ==> c.PropsFor(k) == DefaultColorMap[k]
    ensures forall k :: k !in overrides && k !in DefaultColorMap ==> c.PropsFor(k) == EmptyProps
  {
    ColorProps(DefaultColorMap + overrides)
  }

  /** Without overrides, the table is the built-in one. */
  lemma NoOverrides()
    ensures NewColorProps(map[]).colorPropertiesMap == DefaultColorMap
  {
  }

  /** Without overrides, `default` and every token outside the table resolve to `{}`. */
  lemma DefaultAndUnknownAreEmpty(color: string)
    requires color == "default" || color !in DefaultColorMap
    ensures NewColorProps(map[]).PropsFor(color) == EmptyProps
  {
    NoOverrides();
  }

  /** A caller may give `default` its own entry. */
  lemma DefaultOverridable(p: Props)
    ensures NewColorProps(map["default" := p]).PropsFor("default") == p
  {
  }

  /** The first four text colours of the built-in table. */
  lemma TextColorsGrayToYellow()
    ensures DefaultColorMap["gray"] == StyleOnly("color:#9B9A97") && DefaultColorMap["brown"] == StyleOnly("color:#64473A")
      && DefaultColorMap["orange"] == StyleOnly("color:#D9730D") && DefaultColorMap["yellow"] == StyleOnly("color:#DFAB01")
  {
  }

  /** The other five text colours of the built-in table. */
  lemma TextColorsGreenToRed()
    ensures DefaultColorMap["green"] == StyleOnly("color:#0F7B6C") && DefaultColorMap["blue"] == StyleOnly("color:#0B6E99")
      && DefaultColorMap["purple"] == StyleOnly("color:#6940A5") && DefaultColorMap["pink"] == StyleOnly("color:#AD1A72")
      && DefaultColorMap["red"] == StyleOnly("color:#E03E3E")
  {
  }

  /** Without overrides, the nine text colours resolve to a `color` style with their hex values. */
  lemma DefaultTextColors()
    ensures var c := NewColorProps(map[]);
      c.PropsFor("gray") == StyleOnly("color:#9B9A97") && c.PropsFor("brown") == StyleOnly("color:#64473A")
      && c.PropsFor("orange") == StyleOnly("color:#D9730D") && c.PropsFor("yellow") == StyleOnly("color:#DFAB01")
      && c.PropsFor("green") == StyleOnly("color:#0F7B6C") && c.PropsFor("blue") == StyleOnly("color:#0B6E99")
      && c.PropsFor("purple") == StyleOnly("color:#6940A5") && c.PropsFor("pink") == StyleOnly("color:#AD1A72")
      && c.PropsFor("red") == StyleOnly("color:#E03E3E")
  {
    NoOverrides();
    TextColorsGrayToYellow();
    TextColorsGreenToRed();
  }

  /** The first four background colours of the built-in table. */
  lemma BackgroundsGrayToYellow()
    ensures DefaultColorMap["gray_background"] == StyleOnly("background-color:#EBECED")
      && DefaultColorMap["brown_background"] == StyleOnly("background-color:#E9E5E3")
      && DefaultColorMap["orange_background"] == StyleOnly("background-color:#FAEBDD")
      && DefaultColorMap["yellow_background"] == StyleOnly("background-color:#FBF3DB")
  {
  }

  /** The other five background colours of the built-in table. */
  lemma BackgroundsGreenToRed()
    ensures DefaultColorMap["green_background"] == StyleOnly("background-color:#DDEDEA")
      && DefaultColorMap["blue_background"] == StyleOnly("background-color:#DDEBF1")
      && DefaultColorMap["purple_background"] == StyleOnly("background-color:#EAE4F2")
      && DefaultColorMap["pink_background"] == StyleOnly("background-color:#F4DFEB")
      && DefaultColorMap["red_background"] == StyleOnly("background-color:#FBE4E4")
  {
  }

  /** Without overrides, the nine `_background` tokens resolve to a `background-color` style. */
  lemma DefaultBackgroundColors()
    ensures var c := NewColorProps(map[]);
      c.PropsFor("gray_background") == StyleOnly("background-color:#EBECED")
      && c.PropsFor("brown_background") == StyleOnly("background-color:#E9E5E3")
      && c.PropsFor("orange_background") == StyleOnly("background-color:#FAEBDD")
      && c.PropsFor("yellow_background") == StyleOnly("background-color:#FBF3DB")
      && c.PropsFor("green_background") == StyleOnly("background-color:#DDEDEA")
      && c.PropsFor("blue_background") == StyleOnly("background-color:#DDEBF1")
      && c.PropsFor("purple_background") == StyleOnly("background-color:#EAE4F2")
      && c.PropsFor("pink_background") == StyleOnly("background-color:#F4DFEB")
      && c.PropsFor("red_background") == StyleOnly("background-color:#FBE4E4")
  {
    NoOverrides();
    BackgroundsGrayToYellow();
    BackgroundsGreenToRed();
  }
}
