# notion2hast, modelled in Dafny

This project models the core of `notion2hast`, which converts the content blocks of a Notion page into a hast tree. A hast tree is the HTML abstract syntax tree used by the unified/rehype tools. The project then proves properties of that model.

The model has five parts, one module each, in the order the converter uses them:

- **`PropsMerge`** (`props.dfy`): `mergeProps`, which merges two property bags. Class names are concatenated, base first. Styles are joined with at most one `;`. Every other key is overwritten by the overlay.
- **`Color`** (`color.dfy`): the built-in table of 18 colour tokens and the caller's overrides. `props(color)` resolves a token.
- **`RichText`** (`richtext.dfy`): `colorText`, the renderer's `props`, and `textToHast`.
  - `textToHast` pushes the wrapper tags in the fixed order link, code, bold, italic, strikethrough, underline.
  - It folds a colour onto the innermost wrapper, then nests the tags outermost first around the text.
  - `build` keeps the items of type `text`, in order.
- **`Blocks`, `Builders` and `Surround`** (`blocks.dfy`, `builders.dfy`, `surround.dfy`):
  - the block payloads and `isBlock`;
  - the `BlockItem` pager over an abstract page source;
  - the 18 block builders, with their `build`, `isBreak`, `outerTag` and `props`;
  - the run grouper `SurroundElement`, with its builder table.
- **`Notion2Hast`** (`notion2hast.dfy`): `blockToHast`.
  - It pulls blocks from the pager and appends them to the grouper until the grouper breaks. Each block carries its own children, converted first.
  - It flushes each run as one group, keeps one `index` counter across the whole conversion, and wraps the groups in a fragment at depth 0.

`Seqs` (`seqs.dfy`) holds a few facts about sequence slicing that the proofs share. `Wrappers` holds `Option`.

## How the model is built

- **State the source mutates becomes classes.** `BlockItem` and `SurroundElement` are classes with the source's fields. Their methods carry `modifies` clauses. Loops stay loops: the table-row cells, the rich-text `build`, the nesting loop of `textToHast`, and the two nested loops of `blockToHast`.
- **Each method is proved against a specification function.**

  | method | specification |
  |---|---|
  | `Build` | `Rendered` |
  | `TextToHast` | `TextNode` |
  | `BlockItem.Block` | `Step` |
  | `Builder.Build` | `Built` |
  | `SurroundElement.Append` | `Appended` |
  | `BlockToHast` | `Render` |

  Lemmas then prove what the source promises about those functions.
- **Values written only by a constructor become datatypes.** `ColorProps`, `RichTextToHast` and the builders are only written by their constructors, so they are immutable datatypes built by `NewColorProps`, `NewRichTextToHast` and `NewBuilder`.
- **Each builder class is one constructor of `BuilderClass`.** A builder is that class together with its options.
- **The Notion client is a pure page source.** `Client.pages[id]` lists the children of `id` page by page, and a cursor is the index of the next page.
  - `Client.rank` witnesses that the block tree is finite. `Client.Valid` requires every child with children to rank below its parent, and the recursion of `blockToHast` decreases along that rank.
  - A caller of the source needs no such condition. It only expresses that the Notion tree is finite.
- **JavaScript truthiness is written out.**
  - An `href` of `""` counts as absent.
  - A colour of `""` or `"default"` counts as no colour.
  - `defaultClassname` left undefined counts as `false`.

## Model

| member | source | states |
|---|---|---|
| PropsMerge.TrimEnd | src/lib/props.ts:28 | `trimEnd` is the longest prefix followed only by white space; it does not itself end in white space |
| PropsMerge.JoinStyle | src/lib/props.ts:27-33 | the merged style is the trimmed base, then `;` exactly when the trimmed base is non-empty and does not end in `;`, then the overlay style |
| PropsMerge.MergeProps | src/lib/props.ts:5-37 | other keys: the overlay wins and base-only keys survive. No overlay class name keeps the base's; no base class name takes the overlay's as it is; both give a token list, base first. No overlay style keeps the base style verbatim, otherwise the styles are joined |
| PropsMerge.MergeEmptyRight | src/lib/props.ts:9-36 | `mergeProps(p, {})` equals `p` |
| PropsMerge.MergeEmptyLeft | src/lib/props.ts:13-34 | merging onto `{}` gives the overlay back, so a scalar class name stays a scalar |
| PropsMerge.MergeScalarClassNames | src/lib/props.ts:14-18 | `'class-1'` merged with `'class-2'` gives the list `['class-1', 'class-2']` |
| PropsMerge.NoDoubleSemicolon | src/lib/props.ts:28-33 | a base style ending in `;` gets no second `;` |
| PropsMerge.SemicolonInserted | src/lib/props.ts:28-33 | a base style ending in neither `;` nor white space is followed by exactly one `;` |
| PropsMerge.TrailingWhitespaceDropped | src/lib/props.ts:28 | white space at the end of the base style does not change the merged style |
| PropsMerge.TrimEndWhitespaceSuffix | src/lib/props.ts:28 | `trimEnd` removes an appended white-space suffix |
| Hast.SetAttr | src/lib/richtext.ts:49 | `Object.assign(bag, { key: value })` sets that key, keeps every other key and leaves class name and style alone |
| Hast.Assign | src/lib/block.ts:643-658 | `Object.assign({}, a, b)`: `b`'s keys win, `a`'s other keys survive |
| Color.ColorProps.PropsFor | src/lib/color.ts:38-40 | `props(color)` is the stored entry, or `{}` for a token without one |
| Color.NewColorProps | src/lib/color.ts:31-37 | a caller's entry wins on every token it names; the other built-in entries are unaffected; anything else resolves to `{}` |
| Color.NoOverrides | src/lib/color.ts:31-37 | without overrides the table is the built-in one |
| Color.DefaultAndUnknownAreEmpty | src/lib/color.ts:38-40 | without overrides, `default` and every token outside the table give `{}` |
| Color.DefaultOverridable | src/lib/color.ts:32-37 | a caller may give `default` its own entry |
| Color.TextColorsGrayToYellow | src/lib/color.ts:6-9 | the built-in entries of gray, brown, orange and yellow |
| Color.TextColorsGreenToRed | src/lib/color.ts:10-14 | the built-in entries of green, blue, purple, pink and red |
| Color.DefaultTextColors | src/lib/color.ts:5-14 | without overrides the nine text colours resolve to `{ style: 'color:#…' }` with the listed hex values |
| Color.BackgroundsGrayToYellow | src/lib/color.ts:15-18 | the built-in entries of the first four `_background` tokens |
| Color.BackgroundsGreenToRed | src/lib/color.ts:19-23 | the built-in entries of the other five `_background` tokens |
| Color.DefaultBackgroundColors | src/lib/color.ts:15-23 | without overrides the nine `_background` tokens resolve to `{ style: 'background-color:#…' }` |
| RichText.PrefixBefore | src/lib/richtext.ts:15 | the first piece of `split('_', 2)`: the part before the first `_`, containing no `_`, and all of the string when there is none |
| RichText.ColorText | src/lib/richtext.ts:14-20 | a token without `_` is `(s, '')`; otherwise `('', prefix before the first '_')` |
| RichText.NestAround | src/lib/richtext.ts:88-96 | the downward loop builds exactly the tags nested outermost first around the text, and the bare text without tags |
| RichText.NestTagsRoundTrip | src/lib/richtext.ts:92-95 | nesting loses nothing: the chain of single children gives back the tags, and the text sits only inside the innermost one |
| RichText.FoldColor | src/lib/richtext.ts:78-87 | the colour is merged onto the innermost wrapper; with no wrapper, a bare `span {}` is created first; the other wrappers are unchanged |
| RichText.FoldColorKeepsNames | src/lib/richtext.ts:82-86 | folding a colour keeps the tag names of a non-empty wrapper list |
| RichText.ColorInnermost | src/lib/richtext.ts:78-87 | the colour step, written with its push and its in-place update, computes `FoldColor` |
| RichText.RichTextToHast.PropsFor | src/lib/richtext.ts:34-42 | `props(key)` copies the configured bag, and adds `className = key` only when `defaultClassName` is on and no class name is configured |
| RichText.RichTextToHast.UnderlineProps | src/lib/richtext.ts:64-77 | underline adds `text-decoration: underline;` only to `{}` or exactly `{ className: 'text-underline' }`, and leaves any other bag unchanged |
| RichText.RichTextToHast.CollectTags | src/lib/richtext.ts:44-87 | the pushes for href and flags, then the colour fold, give `Tags` |
| RichText.RichTextToHast.TextToHast | src/lib/richtext.ts:43-97 | `textToHast` returns `TextNode` |
| RichText.RichTextToHast.Build | src/lib/richtext.ts:98-106 | the loop returns `Rendered`: one node per item of type `text`, in order |
| RichText.RichTextToHast.PlainRunIsBareText | src/lib/richtext.ts:88-91 | a run with no href, no flag and no colour renders as its bare `plain_text` |
| RichText.RichTextToHast.FlagWrapperNames | src/lib/richtext.ts:46-77 | the pushed wrappers carry exactly the names of the set flags, in push order |
| RichText.RichTextToHast.WrapperOrder | src/lib/richtext.ts:46-96 | outermost first the wrappers are `a`, `code`, `strong`, `em`, `s`, `span`; a colour alone adds one `span`; the text sits inside the innermost wrapper |
| RichText.RichTextToHast.LinkHrefWins | src/lib/richtext.ts:46-50 | the link wrapper is outermost and its `href` is the run's, whatever the configured `text-link` bag holds |
| RichText.RichTextToHast.ColorOnlyRun | src/lib/richtext.ts:78-87 | a colour alone gives one `span` holding the colour's bag; an unknown colour still gives `span {}` |
| RichText.RichTextToHast.RenderedAppend | src/lib/richtext.ts:98-106 | rendering distributes over concatenation, so items render independently and in input order |
| RichText.RichTextToHast.RenderedSingle | src/lib/richtext.ts:100-104 | an item of type `text` gives exactly its run, and any other item gives nothing |
| RichText.NewRichTextToHast | src/lib/richtext.ts:26-33 | the constructor copies the bags and the class-name flag and keeps the given colour resolver |
| Blocks.IsBlock | src/lib/block.ts:19-24 | an item is a block exactly when its `object` is `'block'` and it has a string `type` (`Untyped` is the item without one) |
| Blocks.Client.ListBlockChildren | src/lib/block.ts:42-58 | the page source `block()` fetches from: the results of the page at the cursor (page 0 without one, none past the end), and a next cursor exactly when a later page exists, naming that page |
| Blocks.InitState | src/lib/block.ts:41-49 | `init` holds the first page (none when there are no pages), its cursor, and position 0 |
| Blocks.Step | src/lib/block.ts:50-74 | after one `block()` the pager invariant still holds, and a returned item always passes `isBlock` |
| Blocks.StepShrinks | src/lib/block.ts:50-74 | each returned block consumes an item, so the pager's loops end |
| Blocks.StepYields | src/lib/block.ts:50-74 | `block()` is `null` exactly when nothing is left, and otherwise the next block of the stream |
| Blocks.BlockPrefix | src/lib/block.ts:65-73 | the items handed out stop just before the first item failing `isBlock` |
| Blocks.StreamFromIsPending | src/lib/block.ts:50-74 | from any state the pager yields the well-formed prefix of the rest of the current page and the following pages up to an empty one |
| Blocks.StreamIsExpected | src/lib/block.ts:41-74 | after `init` the pager yields the first page, then the following pages up to the first empty one, cut before the first item that is not a block |
| Blocks.ExhaustedStaysNull | src/lib/block.ts:51-63 | with the page used up and no cursor, `block()` returns `null` without fetching and changes nothing, so repeated calls keep returning `null` |
| Blocks.WithinPage | src/lib/block.ts:65-73 | inside a page, `block()` fetches nothing; it advances past the item and returns it when it is a block, and `null` otherwise |
| Blocks.EmptyPageEnds | src/lib/block.ts:51-67 | a fetched empty page gives `null` even when it carries a cursor |
| Blocks.StreamBelow | src/lib/notion2hast.ts:31-36 | in a finite tree every listed block with children ranks below its parent, so the recursion ends |
| Blocks.BlockItem.constructor | src/lib/block.ts:33-40 | a new pager has no page, no cursor, length 0 and position 0 |
| Blocks.BlockItem.Init | src/lib/block.ts:41-49 | `init()` leaves the fields at `InitState` |
| Blocks.BlockItem.Block | src/lib/block.ts:50-74 | `block()` returns and leaves what `Step` says |
| Builders.AddClassName | src/lib/block.ts:254-259 | `classnames(code, language)` appends the language to the class tokens and keeps the rest of the bag |
| Builders.Builder.PropsFor | src/lib/block.ts:94-102 | the builder's `props(key)` copies the configured bag, and adds `className = key` only when `defaultClassname` is on and the class name is undefined |
| Builders.Builder.Caption | src/lib/block.ts:260-272 | a `figcaption` exists exactly when the rendered caption is non-empty |
| Builders.Builder.OuterTag | src/lib/block.ts:112-114 | `outerTag()` has a tag name and properties exactly for the two list classes: `ul` with the `bulleted-list` bag (407-409), `ol` with the `numbered-list` bag (443-445); every other class returns `{ name: null }` |
| Builders.Builder.IsBreak | src/lib/block.ts:136-138 | `isBreak(t)` is false exactly for a list class and `t` its own type (431-436, 467-472); every other class always breaks |
| Builders.Builder.CalloutIcon | src/lib/block.ts:296-312 | no icon leaves the `''` child; an emoji gives a `callout-icon-emoji` `div` holding the emoji; an external or hosted file gives a `callout-icon-image` `div` holding an `img` whose only property is `src` |
| Builders.Builder.CellProps | src/lib/block.ts:630-660 | a data cell gets `table-row-cell`; a header cell gets `table-row-header`, overwritten by the top-left bag at (0, 0), the top bag in row 0, and otherwise (then in column 0) the left bag |
| Builders.Builder.RowRender | src/lib/block.ts:613-668 | a table row renders as one `tr` with the `table-row` bag, holding the row's cells and then the children |
| Builders.Builder.ImageRender | src/lib/block.ts:724-741 | an image renders as one `figure` with the `image` bag, holding the `img` with `src` set, the caption when there is one, and then the children |
| Builders.Builder.BuildCell | src/lib/block.ts:629-662 | one pass of the cell loop builds `CellNode` for that position |
| Builders.Builder.BuildTableRow | src/lib/block.ts:613-668 | the `colIdx` loop builds `Render` for a table row |
| Builders.Builder.BuildImage | src/lib/block.ts:724-741 | the image builder, with its caption push, builds `Render` for an image |
| Builders.Builder.Build | src/lib/block.ts:115-134 | every class's `build` returns `Built` (likewise at 148-167 and each of the other 16 classes) |
| Builders.Builder.OtherTypeGivesNothing | src/lib/block.ts:121-134 | `build` returns `[]` for a block whose type is not the builder's |
| Builders.Builder.OwnTypeGivesOneNode | src/lib/block.ts:121-134 | for a block of its type, `build` returns exactly one element, and that element's last children are `nest` |
| Builders.Builder.KindMatches | src/lib/block.ts:121-134 | a well-typed block of the builder's type has the payload the class reads |
| Builders.Builder.CaptionedFront | src/lib/block.ts:247-276 | code (and bookmark 682-712, image 724-741): one first child, then the caption when there is one |
| Builders.Builder.CaptionOnlyWhenNonEmpty | src/lib/block.ts:260-272 | code, bookmark and image get a `figcaption` right after their first child exactly when the rendered caption is non-empty |
| Builders.Builder.TodoCheckbox | src/lib/block.ts:515-540 | a to-do starts with a `div` whose bag is `todo-checked` or `todo-not-checked` by `checked` |
| Builders.Builder.ImageSource | src/lib/block.ts:724-734 | the `img` gets `src` set to the URL of the file source, external or hosted |
| Builders.Builder.BreakAndTagRules | src/lib/block.ts:403-473 | non-list builders always break and have no tag; list builders break exactly on another type and use `ul`/`ol` with the list's bag |
| Builders.Builder.RowCellsInOrder | src/lib/block.ts:627-666 | a row has one cell per input cell, in order, each with its own position |
| Builders.Builder.HeaderCellRules | src/lib/block.ts:629-659 | a cell is `th` exactly when (column header and row 0) or (row header and column 0); header bags are `table-row-header` overwritten by the top-left, top or left bag; data cells use `table-row-cell` |
| Builders.NewBuilder | src/lib/block.ts:89-93 | a new builder takes its type from its class, defaults the flag to off and copies the bags |
| Surround.ClassFor | src/lib/block.ts:752-775 | every known type gets a builder made for that type |
| Surround.DefaultBuilders | src/lib/block.ts:752-775 | the default table has exactly the 18 known types, each with the builder of its class |
| Surround.EffectiveBuilderOpts | src/lib/block.ts:779-782 | the converter-wide class-name flag fills an unset builder flag |
| Surround.BuilderTable | src/lib/block.ts:783-787 | caller builders override the defaults on their types; the other known types keep the default builder |
| Surround.BuilderOf | src/lib/block.ts:789-796 | `builder(t)` exists exactly for a non-empty type with a table entry |
| Surround.GroupTag | src/lib/block.ts:824-830 | the grouper's tag is absent exactly when the type has no builder |
| Surround.DefaultBreaks | src/lib/block.ts:834-843 | with the default builders, a block continues the run exactly when it and the previous block are list items of the same type |
| Surround.DefaultGroupTags | src/lib/block.ts:824-830 | with the default builders, bulleted runs are wrapped in `ul` and numbered runs in `ol`; other known types get no tag name; unknown types get no tag |
| Surround.SurroundElement.constructor | src/lib/block.ts:777-788 | a new grouper has the initial type, no nodes and the merged builder table |
| Surround.SurroundElement.Append | src/lib/block.ts:797-820 | `append` adds the builder's output, or nothing when there is no builder, and records the block's type either way |
| Surround.SurroundElement.Nest | src/lib/block.ts:821-823 | `nest` appends exactly one node |
| Surround.SurroundElement.OuterTag | src/lib/block.ts:824-830 | `outerTag` is `null` without a builder, and otherwise the builder's tag |
| Surround.SurroundElement.Content | src/lib/block.ts:831-833 | `content` returns the collected nodes |
| Surround.SurroundElement.IsBreak | src/lib/block.ts:834-843 | `isBreak` is false after a reset, the builder's decision when there is one, and true otherwise |
| Surround.SurroundElement.Reset | src/lib/block.ts:844-847 | `reset` restores the empty type and no nodes |
| Notion2Hast.RunEnd | src/lib/notion2hast.ts:29 | a run ends at the first block the grouper breaks on, and no block inside it breaks |
| Notion2Hast.GroupNode | src/lib/notion2hast.ts:55-60 | a flushed group always holds exactly the collected nodes; it is an element exactly when the tag has a name, with that name and the tag's properties (or `{}`), and otherwise a fragment |
| Notion2Hast.GroupsFromRun | src/lib/notion2hast.ts:28-62 | the groups from a run's start are that run's flushed group, then the groups after it |
| Notion2Hast.GroupsAtMostBlocks | src/lib/notion2hast.ts:28-62 | every group holds at least one block, so there are at most as many groups as blocks and at least one when there is a block |
| Notion2Hast.DefaultTableGroups | src/lib/block.ts:834-843 | the default table continues a run exactly on a list item of the previous block's type |
| Notion2Hast.ListItemRuns | src/lib/notion2hast.ts:29 | under such a table, every run is a maximal stretch of list items of one type, or a single block, except that a block after one of type `""` always joins it (`isBreak` is false after the empty type); the block ending a run follows a non-empty type and does not continue it |
| Notion2Hast.DefaultRuns | src/lib/notion2hast.ts:29 | with the default builders, runs are maximal stretches of list items of one type, and every other block forms its own run, with the same exception for a block after one of type `""` |
| Notion2Hast.Outputs | src/lib/notion2hast.ts:44-52 | block `k` of the call is appended with index `k`, its own `nest` and the caller's parent, so indices are consecutive over the whole call and are not reset at flushes |
| Notion2Hast.Nests | src/lib/notion2hast.ts:30-43 | block `k`'s `nest` is `NestOf` that block: the conversion of its own children, with it as parent, one level deeper, and nothing when it has none |
| Notion2Hast.PlanFor | src/lib/notion2hast.ts:9-67 | the result is the groups of the appended outputs, wrapped according to depth |
| Notion2Hast.Wrap | src/lib/notion2hast.ts:63-66 | at depth 0 one fragment wraps all groups; below it the groups are returned as a list |
| Notion2Hast.BlockToHast | src/lib/notion2hast.ts:9-67 | `blockToHast` returns `Render` |
| Notion2Hast.GroupRuns | src/lib/notion2hast.ts:28-62 | the outer loop flushes one group per run: the tag element when the tag has a name, otherwise a fragment; the grouper is reset after each group |
| Notion2Hast.CollectRun | src/lib/notion2hast.ts:29-54 | the inner loop appends blocks until the pager ends or the grouper breaks, which is exactly at `RunEnd` |
| Notion2Hast.AppendBlock | src/lib/notion2hast.ts:30-52 | one block is appended with its converted children, the caller's parent and its index |
| Notion2Hast.NextBlock | src/lib/notion2hast.ts:53 | each `block()` hands out the next block of the stream, or `null` at its end |
| Notion2Hast.ChildNest | src/lib/notion2hast.ts:30-43 | a block with children gets the recursive result for its id, spread into `nest` |

## Left out

- **I/O and tooling.** The CLI, serialisation and the Notion SDK client are left out. The client is the pure page source described above.
- **`async`/`await`.** Asynchrony is modelled as sequential execution.
- **Failing fetches.** A rejected `listBlockChildren` is not modelled. In the source the `await` in `init()` and `block()` has no catch, so one failed fetch aborts the whole conversion and yields no partial tree. The model's pure `Client` cannot fail.
- **Root fragments.** hastscript's `h` splices a root fragment's children into its parent when it builds the tree. The model does not splice root fragments: it keeps such a fragment as a nameless element in place.
  - The callout's empty icon child is `Text("")`. That matches the source, because `h` turns a `''` child into a text node whose value is `''`.
- **Class names.** hastscript's class-name normalisation and `hast-util-classnames` are left out.
  - A class name is a token list, and merging concatenates the lists.
  - Whitespace splitting and de-duplication are not modelled.
- **Caller builder classes.** Caller-supplied builders are modelled as values of the same `Builder` datatype as the defaults, not as arbitrary classes. The table merge models only the override-wins rule.
- **Options object mutation.** The `SurroundElement` constructor writes `defaultClassname` into the caller's options object. The model computes the effective options without changing the caller's.
- **`ColorProps` and `RichTextToHast` are values.** Their tables are filled only by their constructors.
- **`textToHast` is split in two.** `CollectTags` (the pushes and the colour step) and `NestAround` (the downward loop) are its two halves. The pushes are written as concatenations of one-element lists.
- **Helper methods of `blockToHast`.** Its loops are split into `GroupRuns`, `CollectRun`, `AppendBlock`, `NextBlock` and `ChildNest`.
- **`BuildCell`.** It is the body of the table-row cell loop, split out.
- **Cursors.** A cursor is a page index, not an opaque string.
- **`Client.Valid`.** The finite-tree condition is assumed about the data and is not demanded by the source.
- **Payloads.**
  - A block's payload is a datatype constructor, rather than a record read by `block[block.type]`.
  - A block of an unknown type is `Unsupported`. Its type name could coincide with a known one, which the source would misread. `WellTyped` excludes that in the lemmas that need it, and `build` then renders nothing for it.
- **JavaScript shape checks.** `typeof` checks on values of other JavaScript types, and the `constructor` prototype-key edge case of the builder table lookup, are left out.
- **Heading ids.** The heading builders set no anchor `id`, and neither does the model.
