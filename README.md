# truncated-list, modelled in Dafny

`truncatedList(items, max)` renders an iterable of single-line, non-empty
strings as a bullet list: one `* item` line per item, joined by `\n`. When
there are more than `max` items, only the first `max` are shown and a line
`  ... and N more` follows, where N is the number left out. Before rendering,
the function checks its arguments in a fixed order and throws at the first
problem:

1. the number of arguments (exactly two);
2. `items`: an iterable object, and not a string;
3. `max`: a number, then positive, finite, at most `Number.MAX_SAFE_INTEGER`
   (2^53 - 1), and an integer;
4. every item, displayed or not: a string, then non-empty, then free of
   line feeds.

The repository's implementation file is not part of this model. Its two test
suites, `test.mjs` and `test.js`, pin the behaviour, and the model is written
against them.

The project has six modules:

- `Wrappers`: `Option`, and `Result`, where `Failure` stands for a thrown error.
- `Decimal`: the decimal rendering of the count in the summary line, and a
  parser that reads it back.
- `Lines`: joining lines with `\n` (`Join`), and the reference splitting
  (`Split`) that the rendering lemmas use to talk about the output's lines.
- `ListRenderer`: the JavaScript values the function receives (`JsValue`),
  the error taxonomy (`Error`), each validation step, the rendering, the
  whole call `TruncatedList`, and the error texts (`Message`).
- `ListRendererProperties`: what the output looks like and in which order
  the arguments are checked, proved for all inputs.
- `PinnedCases`: the calls the two test suites make, with the results and
  errors they expect.

The call `truncatedList(a, b, ...)` is `TruncatedList([a, b, ...])`: the
arguments are a sequence, so the arity check sees their number. Arrays,
Sets, Maps and Buffers are `Iterable` values listing what they yield, in
iteration order. Regular expressions, functions and plain objects are
`Opaque`, and so is any other non-iterable value without a case of its own
(booleans, symbols, BigInts). A number is `Finite(r)` with a real `r`, or `Infinity`.

The arity error's text gives the count in words only for zero ("but got no
arguments instead."), as `test.mjs` pins; for any other count it writes the
digits ("but got 3 arguments instead.").

## Model

| member | source | states |
|---|---|---|
| ListRenderer.TruncatedList | test.mjs:22-99 | Two arguments are required, and any other count fails with the arity error carrying that count, before anything else is looked at. Then a non-iterable or string `items` fails with the not-iterable error carrying the value. Then an invalid `max` fails with its own error. The call succeeds exactly when `items` is iterable, `max` is a positive safe integer and every item is a non-empty single-line string; the result is then the rendering of all the item texts. Otherwise the error is the one the first faulty item raises. |
| ListRenderer.CheckMax | test.mjs:60-85 | Accepts `max` exactly when it is a finite positive integer no larger than 2^53 - 1, and returns its value. A non-number fails with the non-number error carrying the value. `Infinity` fails with the infinite error. A finite value of zero or less fails with the non-positive error carrying it. The too-large error comes exactly from finite values above 2^53 - 1. A positive fractional value within the ceiling fails with the non-integer error carrying it. |
| ListRenderer.CheckIterable | test.mjs:22-32 | Accepts exactly the iterable values and yields what they iterate. Any non-iterable value (a string, `null`, `undefined`, a number, a regular expression or another object) fails with the not-iterable error carrying that value. |
| ListRenderer.ItemFault | test.mjs:34-51 | An item raises no error exactly when it is a non-empty string without a line feed. A non-string raises the non-string error carrying its position and itself. The empty string raises the empty-string error. A non-empty string with a line feed raises the multiline error carrying the string. |
| ListRenderer.CheckItems | test.mjs:34-39 | Succeeds exactly when every element is valid, returning their texts in order. On failure, the error is the one raised by an element all of whose predecessors are valid, tagged with that element's position. |
| ListRenderer.Bullet | test.mjs:6-10 | A bullet line is `* ` followed by the item unchanged, and it is single-line when the item is. |
| ListRenderer.SummaryLine | test.mjs:12-16 | The summary line is single-line and starts with two spaces, so it lines up under the bullets and is never one of them. `SummaryLineReports` reads its count back. |
| ListRenderer.DisplayLines | test.mjs:6-16 | There are `min(n, max)` display lines plus one more exactly when `n > max`. Line `j` below `min(n, max)` is the bullet for item `j`. When `n > max`, line `max` is the summary for `n - max`. |
| ListRenderer.Render | test.mjs:6-20 | The output is `""` exactly when there are no items. Otherwise it starts with the first item's bullet. `RenderSplits`, `RenderWhole`, `RenderTruncated` and `RenderLineCount` describe its lines. |
| ListRenderer.Message | test.mjs:22-99 | Each error's text opens with its family's fixed wording: the arity wording, the not-iterable wording, the maximum wording shared by the five `max` errors, or the item wording shared by the three item errors. `ArityMessageReportsCount` and the pinned message lemmas give the rest. |
| ListRendererProperties.ArityMessageReportsCount | test.mjs:87-99 | The arity text ends in ` arguments instead.`. The word before it is `no` exactly when there were no arguments; otherwise it is decimal digits that read back as the argument count. |
| Decimal.NatToString | test.mjs:12-16 | The remaining count is written with decimal digits only, with no leading zero. |
| Decimal.ParseNatToString | test.mjs:12-16 | Reading the rendered digits back gives the number. |
| Decimal.NatToStringInjective | test.js:15-21 | Different counts give different digit strings. |
| Lines.Join | test.mjs:6-10 | Joining no lines gives `""`; otherwise the output starts with the first line. |
| Lines.SplitJoin | test.mjs:6-10 | Splitting a `\n`-join of single-line strings at line feeds gives back exactly those lines. |
| ListRendererProperties.SummaryLineReports | test.mjs:12-16 | The summary line `  ... and N more` reports exactly N. |
| ListRendererProperties.BulletIsNotSummary | test.js:15-21 | A bullet line is never read as a summary line. |
| ListRendererProperties.RenderSplits | test.mjs:6-16 | For a non-empty list, the output's lines are exactly the displayed bullets, then the summary line if there is one. |
| ListRendererProperties.RenderEmptyIff | test.mjs:18-20 | The output is the empty string exactly when there are no items. |
| ListRendererProperties.RenderWhole | test.js:7-13 | With at most `max` items, including exactly `max`, the output has one line per item, `* item`, in input order, and nothing else. |
| ListRendererProperties.RenderTruncated | test.mjs:12-16 | With more than `max` items, the output has `max + 1` lines: the first `max` items as bullets, in order, then `  ... and (n - max) more`, which reads back as `n - max`. |
| ListRendererProperties.RenderLineCount | test.js:15-21 | A non-empty list renders as `min(n, max)` bullet lines plus one line exactly when `n > max`. None of the bullet lines is a summary line. A summary line appears exactly when `n > max`, and any summary line reports `n - max`. |
| ListRendererProperties.OutputShape | test.mjs:6-20 | A successful call returns `""` exactly when the iterable yields nothing. Otherwise its lines are the display lines of all validated items. |
| ListRendererProperties.FirstFaultyItemRaises | test.js:77-81 | With a valid `max`, the first faulty item decides the error, at its own position, even when it lies beyond the displayed items. |
| ListRendererProperties.StringItemsRefused | test.mjs:53-58 | A string `items` is refused whatever its content and whatever `max`. The error carries the string, so it differs from the one for `null`. |
| ListRendererProperties.MaxErrorsDistinct | test.js:47-75 | For every iterable `items`, including an empty one: a `max` of zero or less, too large, fractional, or `Infinity` raises its own error (non-positive, too large, non-integer, infinite). |
| PinnedCases.ListsEveryItem | test.js:7-13 | `['a', 'b', 'c']` with max 3 gives `"* a\n* b\n* c"`. |
| PinnedCases.TruncatesToMax | test.mjs:12-16 | The Set `1`..`5` with max 2 gives `"* 1\n* 2\n  ... and 3 more"`. |
| PinnedCases.EmptyIterableGivesEmptyString | test.js:23-27 | An empty Map with max `MAX_SAFE_INTEGER` gives `""`. |
| PinnedCases.NonIterableItemsRefused | test.js:29-45 | A regular expression, `null` and `'abc'` as `items` each raise the not-iterable error for that value. |
| PinnedCases.HiddenNonStringItemRaises | test.mjs:34-39 | `['1', Object]` with max 1 raises the non-string error for the second item. |
| PinnedCases.EmptyItemRaises | test.mjs:41-45 | `['']` raises the empty-string error, whose text is `... to be a non-empty string, but included '' (empty string).` |
| PinnedCases.MultilineItemRaises | test.mjs:47-51 | `['x\ny']` raises the multiline error for that string. |
| PinnedCases.BadMaxRaises | test.mjs:60-85 | With no items: an empty Buffer as `max` raises the non-number error; `0` the non-positive one; `Infinity` the infinite one; 2^53 the too-large one; `1.1` the non-integer one. The infinite and too-large errors have the pinned texts. |
| PinnedCases.NullMessage | test.mjs:28-31 | Given that `null` renders as `null`, the text for a `null` `items` is `Expected an iterable object except for string, but got null.`. |
| PinnedCases.NonPositiveMessage | test.mjs:66-69 | Given that `0` renders as `0`, the text for `max` 0 is `... but got a non-positive value 0.`. |
| PinnedCases.NonIntegerMessage | test.mjs:81-84 | Given that `1.1` renders as `1.1`, the text for `max` 1.1 is `... but got a non-integer number 1.1.`. |
| PinnedCases.MultilineMessage | test.mjs:47-51 | Given that `'x\ny'` is how the string renders, the text for that item is `... to be a single-line string, but included a multiline string 'x\ny'.`. |
| PinnedCases.ArityChecked | test.mjs:87-99 | No arguments, and `([], 0, '')`, raise the arity error for 0 and for 3 arguments, whatever the arguments are. The texts are `... but got no arguments instead.` and `... but got 3 arguments instead.`. |

## Left out

- Value rendering inside error messages: `util.inspect` and `inspect-with-kind` (for example `/^/u (regexp)`, `<Buffer >`, `[Function: Object]`, `'abc' (string)`, the escaped echo of a multiline string), and JavaScript's number-to-string. These are calls into other packages. `Message` takes them as the parameter `Renderer`. The texts that do not depend on them are pinned outright. Those that do are pinned under assumptions on what `Renderer` returns for the values the suites use.
- `TypeError` versus `RangeError`. The two suites pin `RangeError` for the arity error and `TypeError` for most others, but not for the empty and multiline items. The model keeps only the error kind.
- The JavaScript iteration protocol and duck-typed iterability. An iterable is given directly as the sequence of values it yields. Iterating it has no side effects in the model.
- IEEE-754 doubles. `max` is a real number or `Infinity`; `NaN` and `-Infinity` are not modelled. `Number.MAX_SAFE_INTEGER + 1` is taken as the exact value 2^53, which a double represents exactly.
- ItemFault: treats only `\n` as a line break, the one character the suites pin. Whether `\r` alone is refused is not determined by them.
- Message: the text for exactly one extra or missing argument ("1 arguments") is not pinned by either suite; the model writes the count as for any other number.
- The test harnesses (`tape`, `testit`, `assert`).
