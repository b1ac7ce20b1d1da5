# Code-fence presentation in saburto.github.io

This project models the two theme overrides with which the site decides how a
code element from MDX is presented. They are written in Dafny as pure
functions, and the project proves what they do.

- `Code` models `src/theme/MDXComponents/Code.js`. `shouldBeInline` decides
  whether a `code` element is shown through `CodeInline` or through the local
  `CodeBlock` wrapper, which renders a plain `<code>` with every prop.
  `MDXCode` then hands the props, unchanged, to one of the two.
- `Pre` models `src/theme/MDXComponents/Pre.js`. `MDXPre` wraps a fenced
  block. It decides whether the title bar and the language badge appear, what
  the copy button receives, and which props the inner `<pre>` gets.
- `Wrappers` holds the `Option` type. `None` stands for a prop that is
  `undefined`.

Modelling choices:

- Children are the output of `React.Children.toArray`, taken as already
  flattened. A `Child` is either a string (`Text`) or something else
  (`Element`). `None` children means `props.children` is `undefined`.
- `every` is the recursive function `Code.Every`, which works left to right.
  `Code.EverySpec` proves that it agrees with the quantified reading.
- A string-valued prop is truthy in JavaScript when it is defined and not
  empty (`Pre.Truthy`).
- Props this code never inspects are a type parameter `O`. The functions can
  therefore only pass them through unchanged.
- `clsx` is a function parameter of `Pre.MdxPre`, because its code is not
  part of this model.
- The title bar is an `Option<TitleBar>`, and the badge is a field inside it.
  This mirrors the JSX, where the badge span sits inside the title-bar div.

What the code does at the edges:

- Children that are defined but flatten to nothing are *inline*, because
  `every` over an empty array is true (Code.js:7-10). Of the empty cases,
  only `undefined` children give a block (Code.js:5-7).
- The badge depends on `lang` alone; nothing hides it (Pre.js:30).
- Both branches of `MDXCode` receive the same props. The decision looks only
  at the flattened children, not at magic-comment line classes.

## Model

| member | source | states |
|---|---|---|
| `Code.EverySpec` | src/theme/MDXComponents/Code.js:8-10 | `every` with the callback holds iff every flattened child is a string without `'\n'`; it holds vacuously on no children |
| `Code.EveryAppend` | src/theme/MDXComponents/Code.js:8-10 | `every` over a concatenation of children is the conjunction of `every` over the two parts |
| `Code.IsSingleLineText` | src/theme/MDXComponents/Code.js:9 | the `every` callback as a predicate on one child: it is a string that contains no line feed; what it implies for the whole decision is stated in `Code.EverySpec` and `Code.ShouldBeInline` |
| `Code.Every` | src/theme/MDXComponents/Code.js:8-10 | `.every` with that callback, evaluated left to right; its meaning is proved in `Code.EverySpec` |
| `Code.ShouldBeInline` | src/theme/MDXComponents/Code.js:3-12 | true iff the children are defined and every flattened child is a string containing no `'\n'` |
| `Code.MdxCode` | src/theme/MDXComponents/Code.js:20-30 | yields `CodeInline` iff `shouldBeInline` holds, else `CodeBlock`, with the props unchanged in both branches |
| `Code.UndefinedChildrenIsBlock` | src/theme/MDXComponents/Code.js:5-7 | `undefined` children (an empty fenced block) always give a block |
| `Code.EmptyChildrenIsInline` | src/theme/MDXComponents/Code.js:7-10 | defined children that flatten to an empty array give inline |
| `Code.NewlineForcesBlock` | src/theme/MDXComponents/Code.js:9 | any string child containing `'\n'` forces a block |
| `Code.ElementForcesBlock` | src/theme/MDXComponents/Code.js:9 | any child that is not a string forces a block |
| `Code.SingleLineTextIsInline` | src/theme/MDXComponents/Code.js:7-10 | defined children that are all strings without `'\n'` give inline |
| `Code.AppendChildren` | src/theme/MDXComponents/Code.js:8-10 | children concatenated from two parts are inline iff both parts are |
| `Code.AppendChild` | src/theme/MDXComponents/Code.js:8-10 | appending a child keeps inline iff that child is a single-line string; a block never becomes inline |
| `Code.CodeBlock` | src/theme/MDXComponents/Code.js:14-18 | the `<code>` element it renders carries exactly the props it was given |
| `Code.SplitTextChild` | src/theme/MDXComponents/Code.js:8-10 | splitting one string child into two adjacent string children never changes whether the element is inline |
| `Code.BlockForwardsProps` | src/theme/MDXComponents/Code.js:14-29 | in the block branch `CodeBlock` forwards all props to `<code>`; in the inline branch `CodeInline` gets them unchanged |
| `Pre.MdxPre` | src/theme/MDXComponents/Pre.js:11-41 | title bar iff `lang` or `title` is truthy; badge iff `lang` is truthy, showing `lang`; the title span shows `title` (empty if undefined); the copy button gets `data-code` verbatim; `<pre>` gets every prop except a `clsx`-normalised class name and an empty style |
| `Pre.BadgeImpliesTitleBar` | src/theme/MDXComponents/Pre.js:27-30 | the badge is a field of the title bar, so by construction of the `TitleBar` datatype no `Chrome` has a badge without a bar, mirroring the JSX nesting |
| `Pre.LangWithoutTitle` | src/theme/MDXComponents/Pre.js:16-30 | a truthy `lang` with no truthy `title` gives a title bar and a badge, with an empty title span |
| `Pre.TitleWithoutLang` | src/theme/MDXComponents/Pre.js:27-30 | a truthy `title` with no truthy `lang` gives a title bar showing the title and no badge |
| `Pre.EmptyLangAndTitle` | src/theme/MDXComponents/Pre.js:27-30 | `lang` and `title` that are empty strings or undefined give neither a title bar nor a badge |
| `Pre.CopyTextIndependent` | src/theme/MDXComponents/Pre.js:15-37 | corollary of `Pre.MdxPre`'s copy clause: two prop sets with the same `data-code` give the same copy value, whatever their language, title, class name, style or other props |
| `Pre.StyleDiscarded` | src/theme/MDXComponents/Pre.js:22-34 | the caller's `style` never reaches the `<pre>` |

## Left out

- Pre.MdxPre: an `(lang || title)` that evaluates to `""` makes React render an empty text node in place of the bar, and `props.lang && …` with `lang = ""` inside a bar shown for its title leaves an empty text node where the badge would be. The model treats both as absent (no title bar, `badge == None`), since nothing is visible.
- Props are modelled as strings or `undefined` only. A number, boolean or object passed as `lang`, `title` or `data-code` is outside the model.
- `null` or boolean children are represented by their flattened form. `React.Children.toArray` drops them, so `null` children appear as `Some([])`.
- `React.Children.toArray` flattening is not modelled. Its output is the input of `Code.ShouldBeInline`.
- `CopyButton` and its clipboard behaviour are not modelled. The model only states which `code` value it receives.
- `usePrismTheme` and `getPrismCssVariables` are not modelled. They belong to the framework and only style the container.
- `clsx` is left abstract, as a function parameter. Its code is not part of this model.
- The `console.log` call at Pre.js:17 is not modelled. It is output only.
- CSS-module class names and inline style literals are not modelled. They are presentation data.
- The unused `others` parameter and `ok` constant of `MDXCode` are not modelled. They have no effect.
- Fence-meta parsing, tokenising and line highlighting are not modelled. Docusaurus and Prism do that work. `docusaurus.config.js:124-138` only declares three magic-comment line classes (highlighted, input, success). No word-highlight, diff or focus pass appears in these files.
- `src/theme/MDXComponents.js` and `src/pages/my-react-page.js` are not modelled. `Highlight` is a styled span with no logic. `BlogTOCMobile`'s one-line `canRender` (MDXComponents.js:29-30) reads framework hooks (`useBlogPost`, `useWindowSize`) and has nothing to do with code fences. The page is static.
