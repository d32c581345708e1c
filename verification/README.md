# Sentinel frontend: verdict extraction, customer index and queue badges

This project is a Dafny model of the logic in the Sentinel adjudication workbench frontend. An operator selects a customer and starts an adjudication run. The backend streams a narrative, and somewhere in it the narrative embeds the final verdict as a fenced JSON block. The page shows the narrative with that block cut out, and it keeps the parsed block as the summary card. The sidebar and the client header then classify customers and verdicts for display.

The model is functional: immutable datatypes and pure functions, with lemmas relating them.

- `Strings`: the JavaScript string operations the page relies on. These are `trim` (with the ECMAScript whitespace set), `replace` with a string pattern, `startsWith` and `join`. The module also holds `IndexOf`, a literal substring search. The page never calls `indexOf` itself; the model of the fence pattern is built on this search.
- `Json`: JSON values plus the runtime operations the components apply to them. These are truthiness, property access, `Object.values`, the element conversion of `Array.prototype.join`, and `JSON.stringify`.
- `Fence`: the search the regular expression `/```json\n([\s\S]*?)\n```/` performs. It is unanchored and lazy, so it finds the leftmost opener and the nearest closer after it.
- `Adjudication`: the read loop of `runAdjudication`, written as a left fold of `Step` over already-decoded text chunks. `JSON.parse` stays opaque: it is a parameter `parse: string -> Option<Json.Value>`, where `None` means the call throws.
- `Customers`: the customer index the page builds when it loads, and the initial selection.
- `Sidebar`: the status badge, the selection highlight, the click handler and the occupation line of each queue row.
- `ClientHeader`: the location line, the risk-badge colour and the re-analyze button.

The main result is `Adjudication.ChunkingInvariant`. It says that folding any non-empty list of chunks gives the same state as one step on their concatenation, so how the decoded text is cut into chunks never matters. Two facts make this hold:

- Once a complete block exists, appending text never moves it (`Fence.BlockStable`).
- The summary card changes only on a successful parse.

Observations about the code as written:

- **Which block counts.** The pattern takes the first complete block, not the last (`Adjudication.FirstBlockWins`).
- **A block that does not parse.** It leaves the whole accumulated text on display, untrimmed.
- **A failed block is final.** Once the first complete block fails to parse, no later chunk can produce a verdict. The pattern keeps finding that same block, so the card keeps whatever value it had (`Adjudication.UnparsedBlockStays`, `Adjudication.UnparsedBlockFreezesCard`).

- `Home` never passes `analysisResults` to the layout (frontend/app/page.tsx:86-93), so in these files the sidebar badges always take the empty default.
- `JSON.parse("null")` yields `null`. The page then stores `null` as the summary card, which looks exactly like "no card". The model keeps this as `Some(JNull)`.

## Model

| member | source | states |
|---|---|---|
| `Strings.Trim` | frontend/app/page.tsx:65 | the result is a contiguous slice of the input; everything before and after it is ECMAScript whitespace; a non-empty result starts and ends with non-whitespace |
| `Strings.TrimIdempotent` | frontend/app/page.tsx:65 | trimming an already trimmed text changes nothing |
| `Strings.IndexOf` | frontend/app/page.tsx:57 | the search returns the first occurrence at or after the start offset, and reports none exactly when no occurrence exists there |
| `Strings.RemoveFirstAt` | frontend/app/page.tsx:65 | `replace` with a string pattern removes only the first occurrence of the pattern |
| `Fence.FindFencedBlock` | frontend/app/page.tsx:57 | a found block is a match that no other match precedes (leftmost opener, then nearest closer); none is found exactly when the text holds no complete block |
| `Fence.FoundAtFirstMatch` | frontend/app/page.tsx:57 | any match with the leftmost-then-shortest property is the one the search returns |
| `Fence.BlockStable` | frontend/app/page.tsx:54-57 | appending text to a text that already holds a complete block leaves the found block unchanged |
| `Fence.RemoveMatched` | frontend/app/page.tsx:65 | removing the matched text with `replace` cuts out exactly the matched block, because no earlier copy of it can exist |
| `Adjudication.Extract` | frontend/app/page.tsx:57-69 | without a complete block the display text is the accumulated text and no verdict is extracted; whenever no verdict is extracted, the display text is the raw text |
| `Adjudication.ExtractAtFirstMatch` | frontend/app/page.tsx:57-69 | at the block the regular expression reports: parsed content becomes the verdict and the display text is the text with exactly that block removed, then trimmed; unparsable content gives no verdict and the untrimmed text |
| `Adjudication.Step` | frontend/app/page.tsx:50-76 | the chunk is appended; the summary becomes the display text of the accumulated text; an extracted verdict replaces the card and otherwise the card is kept; confidence and articles carry over; the analyzing flag is untouched |
| `Adjudication.FoldAccumulates` | frontend/app/page.tsx:47-54 | after the chunks, the accumulated text is the previous text followed by every chunk in order |
| `Adjudication.UnparsedBlockStays` | frontend/app/page.tsx:57-68 | when the first complete block does not parse, no extension of the text yields a verdict |
| `Adjudication.UnparsedBlockFreezesCard` | frontend/app/page.tsx:49-69 | once the first complete block has failed to parse, the rest of the run leaves the summary card unchanged |
| `Adjudication.ExtractStable` | frontend/app/page.tsx:57-63 | once a verdict is extracted, any further text yields the same verdict |
| `Adjudication.StepCompose` | frontend/app/page.tsx:49-77 | two steps equal one step on the joined chunks |
| `Adjudication.ChunkingInvariant` | frontend/app/page.tsx:49-77 | folding a non-empty list of chunks equals one step on their concatenation |
| `Adjudication.RunOutcome` | frontend/app/page.tsx:36-83 | a run ends with the display text and verdict of the whole narrative, confidence 0, no articles and the analyzing flag off; a run with no chunks leaves the reset state (empty summary, no card) |
| `Adjudication.FoldCard` | frontend/app/page.tsx:60-68 | the card after the chunks is the verdict of the whole text if there is one, and the previous card otherwise |
| `Adjudication.CardNeverCleared` | frontend/app/page.tsx:60-68 | once a summary card is set, no later chunk clears it |
| `Adjudication.FirstBlockWins` | frontend/app/page.tsx:57-63 | once the text read so far yields a verdict, later chunks never change the card, even when they bring another block |
| `Adjudication.FoldKeepsConfidenceAndArticles` | frontend/app/page.tsx:72-76 | chunk updates keep the confidence and articles the run began with |
| `Adjudication.PlainNarrativeExample` | frontend/app/page.tsx:54-73 | "Hello " then "world" shows "Hello world", with no card |
| `Adjudication.SplitFenceExample` | frontend/app/page.tsx:54-73 | a block cut inside its closer is not extracted early; the next chunk completes it, sets the card and leaves the trimmed surrounding text |
| `Customers.StoredAddress` | frontend/app/page.tsx:24 | object, array and `null` addresses are stored as their `JSON.stringify` text, which starts with "{" exactly for objects; other addresses are kept unchanged |
| `Customers.BuildIndex` | frontend/app/page.tsx:20-27 | the keys are exactly the `_id`s of the list; every record sits under its own `_id`; the last customer with a given `_id` wins; every record is the stored form of some customer |
| `Customers.InitialSelection` | frontend/app/page.tsx:29-31 | a non-empty list selects the first customer's `_id`, which is a key of the index; an empty list keeps the selection |
| `Json.Stringify` | frontend/app/page.tsx:24 | `JSON.stringify` output is non-empty and starts with "{" exactly for objects |
| `Json.ObjectValues` | frontend/components/layout/client-header.tsx:15-17 | `Object.values` throws exactly on `null`; for an object it gives the property values in order; for an array it gives the elements |
| `Sidebar.Status` | frontend/components/layout/sidebar.tsx:63-75 | "Clean" in green exactly when the verdict's `status` is "Negative"; "Risk" in red exactly when it is "Positive"; otherwise no text and the default tone |
| `Sidebar.OccupationText` | frontend/components/layout/sidebar.tsx:105 | an absent or empty occupation shows "Unknown Role"; any other occupation is shown as it is |
| `Sidebar.RenderRow` | frontend/components/layout/sidebar.tsx:58-105 | a row is highlighted exactly when its `_id` is the selection; a customer with no analysis result shows no badge, and one with a result shows the badge of its status; the occupation line is the occupation or "Unknown Role" |
| `Sidebar.SelectedRowIsUnique` | frontend/components/layout/sidebar.tsx:59 | among the rows of the customer index, only the row stored under the selected key is highlighted |
| `Sidebar.ClickSelectsOnlyThatRow` | frontend/components/layout/sidebar.tsx:86 | clicking a row of the index highlights that row and no other |
| `ClientHeader.ValuesText` | frontend/components/layout/client-header.tsx:15-17 | `Object.values(v).join(", ")` throws exactly on `null`; for an object it joins the property values |
| `ClientHeader.Location` | frontend/components/layout/client-header.tsx:14-18 | a string starting with "{" is parsed and its values joined, and a parse failure throws; an object address has its values joined; a `null` address throws; any other string is shown unchanged; only `null` or a string address can throw |
| `ClientHeader.StoredObjectAddressShown` | frontend/components/layout/client-header.tsx:14-15 | an object address that the page stored as JSON text is shown as the object's values joined with ", ", given a parser that reads the text back |
| `ClientHeader.StoredNonObjectAddressShownRaw` | frontend/components/layout/client-header.tsx:14-18 | a `null` or array address that the page stored as JSON text is shown as that raw text: "null" for `null` |
| `ClientHeader.RiskBadgeTone` | frontend/components/layout/client-header.tsx:28-33 | 'Low' is emerald, 'High' is red and every other rating is amber; the comparison is exact and case-sensitive |
| `ClientHeader.AnalyzeButton` | frontend/components/layout/client-header.tsx:58-67 | the button exists exactly when a handler is given; it is disabled and spinning exactly while analyzing; its title is "Analyzing..." while analyzing and "Re-analyze" otherwise |

## Left out

- Network and streaming I/O: `fetch`, the `ReadableStream` reader and `TextDecoder`. Chunks arrive as already-decoded strings.
- Per-read decoding: each read is decoded on its own, without `{stream: true}` (frontend/app/page.tsx:53). A multi-byte UTF-8 character split across two reads therefore turns into U+FFFD replacement characters. The text, and any verdict parsed from it, then depend on where the bytes were split. The model starts from decoded text, so this is not modelled. A failed fetch or read ends the loop, and the state is then the fold of the chunks read so far.
- React state hooks, `useEffect`, async control flow and `console.error` logging. Page state is a value threaded through pure functions.
- `JSON.parse` internals: the parser is an opaque function parameter.
- Floating-point numbers: JSON numbers are integers, and `String(n)` is decimal notation.
- `Customers.BuildIndex`: the index is a `map`, not a JavaScript object. The model therefore does not give the order in which `Object.values` lists the rows, which is the order the sidebar shows them in. That order puts integer-like `_id`s first, in ascending order, then the other `_id`s in first-insertion order; a duplicate `_id` keeps its first position but holds the last record. An `_id` of `"__proto__"` sets the object's prototype instead of adding a key. For such an input the promise that the keys are exactly the `_id`s does not hold of the source.
- JavaScript property ordering: a JSON object lists its properties in enumeration order with distinct keys. Ordering integer-like keys first, and collapsing duplicate keys at parse time, are left to the parser that produced the value.
- The JavaScript value of `locationString` itself: `ClientHeader.Location` returns the text React renders for it. An absent or boolean address renders as "" and a number as its decimal text. The `undefined`, boolean or number value the function returns is not kept apart from that text.
- Markup and styling: JSX, Tailwind classes, avatars and tabs. Badge colours are enumerations.
- Plain display fields: names, the customer reference and the header's occupation text.
- frontend/components/layout/workbench-layout.tsx is not part of this model. It only wires props, and its loading guard carries no logic.
- Streaming-frame decoding, a tool-call timeline, per-subject sessions and tool-name humanizing: none of these appear in the modelled source.
