# Game-Matcher find-game route, modelled in Dafny

Game-Matcher recommends video games. Its one API route, `POST /api/find-game`, takes a
preference profile (mood, genre, optional inspiration title). It fills a prompt template
with the profile and asks a text-generation model (run through Replicate) for three
recommendations as a JSON array, each with `nama_game`, `ringkasan` and `tips`. It then
searches the RAWG game catalog once per recommendation, concurrently, and answers with
the recommendations plus `gambar_url` (cover image), `platform` (comma-joined platform
names, or `N/A`) and `store_url` (a RAWG store link). Any exception inside the handler's
`try` block turns the whole answer into a 500 with the message
`Terjadi kesalahan pada server.`

The model is pure, as the handler is: no variable is updated and there is no loop.

- `wrappers.dfy`: `Option`. `None` stands for JavaScript's `null`/`undefined`.
- `js_semantics.dfy`: the JavaScript built-ins the handler relies on. These are string
  truthiness and `||`, `Array.prototype.join`, and `Promise.all` over promises that have
  already settled.
- `find_game.dfy`: the request, recommendation, catalog and response records; the prompt
  template; the per-recommendation merge callback; and the handler `Post`.
- `find_game_properties.dfy`: lemmas that relate several calls, and two end-to-end
  scenarios (one catalog match, one catalog outage).

Nothing outside the handler is modelled; the remote services enter only as outcomes.
The generation model is a total function `run: string -> AiOutput` applied to the prompt.
Its result is `RunFailed` (the Replicate call rejected), `Unparseable` (joining
output that is not an array, `JSON.parse`, or a parsed value without `map` threw) or `Parsed(recommendations)`. Each catalog lookup is a
`LookupOutcome`:
`NotOk` (a non-ok HTTP status), `Ok(firstResult)` (`results?.[0]`, possibly absent) or
`Threw` (`fetch` or `.json()` rejected, or `encodeURIComponent` threw on a lone surrogate). `Post` pairs recommendation i with `lookups[i]`,
one lookup per recommendation.

The failure policy is not per-candidate tolerant throughout; the model states what the code does:

- Only a non-ok status is tolerated per candidate (route.ts:61-64). A lookup whose
  `fetch` or `.json()` rejects is not caught in the callback: `Promise.all` rejects and
  the whole answer becomes the 500 (route.ts:58, 80-82).
- An ok response without a first result gives `store_url` `https://rawg.io/games/`
  (route.ts:67, 73). Only the non-ok branch gives `''`.
- The generation output goes through `JSON.parse` alone (route.ts:55); neither the
  shape nor the number of recommendations is checked.

## Model

| member | source | states |
|---|---|---|
| `JsSemantics.JoinEmptyIff` | src/app/api/find-game/route.ts:72 | with the separator `", "`, the joined platform names are empty exactly for no names or one empty name — the cases in which the fallback `'N/A'` takes over |
| `JsSemantics.JoinConcat` | src/app/api/find-game/route.ts:72 | joining a concatenation is the join of the first part, one separator, and the join of the second part; the names stay in list order |
| `JsSemantics.OrElse` | src/app/api/find-game/route.ts:37 | the JavaScript or-fallback on a string-or-nullish value: the value when it is a non-empty string, the fallback when it is `''`, `null` or `undefined` (also used at lines 71-73) |
| `JsSemantics.Join` | src/app/api/find-game/route.ts:72 | `Array.prototype.join`: `''` for no parts; a single part is the whole result; the first part opens the result; with two or more parts the separator follows the first part |
| `JsSemantics.All` | src/app/api/find-game/route.ts:58-76 | `Promise.all` rejects exactly when some promise rejected; otherwise it fulfils with one value per promise, in index order |
| `FindGame.InspirationText` | src/app/api/find-game/route.ts:37 | the inspiration when non-empty, `none provided` when empty; never empty |
| `FindGame.Fill` | src/app/api/find-game/route.ts:33-41 | `FilledFrom`: the filled template is its opening, the mood, the text after the mood, the genre, the text after the genre, the inspiration text and its closing, each verbatim at its stated position, and nothing else (the total length is fixed) |
| `FindGame.Prompt` | src/app/api/find-game/route.ts:33-41 | `FilledFrom` for the route's own template: its fixed opening, the mood, the genre label, the genre, the inspiration label, the inspiration text and its fixed closing with the JSON example, each at its position, and nothing else |
| `FindGame.PlatformNames` | src/app/api/find-game/route.ts:72 | `.map(p => p.platform.name)`: one name per platform entry, the i-th name being the i-th entry's `platform.name` |
| `FindGame.CoverImage` | src/app/api/find-game/route.ts:71 | `gambar_url` is the first result's `background_image` when that is a non-empty string; otherwise it is `''` |
| `FindGame.PlatformLabel` | src/app/api/find-game/route.ts:72 | `platform` is `N/A` when there is no first result, no `platforms` list, or the names join to `''`; otherwise it is the non-empty `", "`-join of the names in catalog order |
| `FindGame.StoreUrl` | src/app/api/find-game/route.ts:73 | `store_url` always starts with `https://rawg.io/games/`; it continues with the slug when that is non-empty and is exactly the prefix otherwise; never `''` |
| `FindGame.Merge` | src/app/api/find-game/route.ts:59-75 | the callback rejects exactly when the lookup threw; it always copies `nama_game`, `ringkasan` and `tips`; a non-ok status gives `''`, `N/A`, `''`; an ok response gives the three catalog fields above |
| `FindGame.MergeAll` | src/app/api/find-game/route.ts:59 | `gameRecommendations.map(async ...)`: one settled promise per recommendation, in order; promise i rejects exactly when lookup i threw, keeps recommendation i's fields, and is the merge of recommendation i with lookup i |
| `FindGame.Post` | src/app/api/find-game/route.ts:31-83 | the answer is a 200 or the 500 error; it is a 200 exactly when generation parsed and no lookup threw; then it has one element per recommendation, in order, each keeping the AI fields and equal to that recommendation's merge |
| `FindGameProperties.PromptEmbedsProfile` | src/app/api/find-game/route.ts:35-37 | the prompt contains the mood and the genre; it contains the inspiration when that is non-empty and `none provided` when it is empty |
| `FindGameProperties.EmptyInspirationFallsBack` | src/app/api/find-game/route.ts:37 | an empty inspiration gives the same prompt as the inspiration `none provided` |
| `FindGameProperties.ServerErrorIff` | src/app/api/find-game/route.ts:55-82 | the answer is the 500 error exactly when the model run or the parse failed or at least one lookup threw; no partial array is returned |
| `FindGameProperties.ElementDependsOnlyOnItsPair` | src/app/api/find-game/route.ts:58-59 | in two successful batches, positions holding the same recommendation and lookup outcome hold the same element, whatever else the batches contain |
| `FindGameProperties.NotOkDegradesOnlyItsElement` | src/app/api/find-game/route.ts:61-64 | a non-ok lookup gives its own element `''`, `N/A`, `''`; the batch is still a 200, and every other element is its own merge |
| `FindGameProperties.OkWithoutResultDiffersFromNotOk` | src/app/api/find-game/route.ts:64-73 | an ok lookup with no first result and a non-ok lookup give the same element except `store_url`: `https://rawg.io/games/` instead of `''` |
| `FindGameProperties.StoreUrlCarriesSlug` | src/app/api/find-game/route.ts:73 | with a non-empty slug, `store_url` is exactly `https://rawg.io/games/` followed by the slug |
| `FindGameProperties.PlatformNamesConcat` | src/app/api/find-game/route.ts:72 | the `map` to platform names keeps the catalog's order |
| `FindGameProperties.PlatformTextInCatalogOrder` | src/app/api/find-game/route.ts:72 | for a platform list split into two non-empty parts, `platform` is the names of the first part, `", "`, then the names of the second part |
| `FindGameProperties.SingleRecommendationBatch` | src/app/api/find-game/route.ts:58-78 | a batch of one recommendation whose lookup did not throw answers 200 with exactly that recommendation's merged element |
| `FindGameProperties.StardewValleyMerge` | src/app/api/find-game/route.ts:69-74 | an ok lookup with cover image, the single platform `PC` and slug `stardew-valley` gives that image, `PC` and `https://rawg.io/games/stardew-valley` |
| `FindGameProperties.StardewValleyScenario` | src/app/api/find-game/route.ts:58-78 | end-to-end scenario: one Stardew Valley match on PC with slug `stardew-valley` gives a 200 with `platform` `PC` and `store_url` `https://rawg.io/games/stardew-valley` |
| `FindGameProperties.CatalogUnavailableScenario` | src/app/api/find-game/route.ts:61-78 | end-to-end scenario: a non-ok catalog answer for the only recommendation still gives a 200, with the placeholders |

## Left out

- `request.json()` (route.ts:29) is left out. It is inbound body I/O outside the `try` block. The model starts from a parsed `RequestBody` of three strings; missing or non-string fields are not modelled.
- The Replicate call, its model name and its temperature (route.ts:43-51) are left out. They are a foreign network call, represented only by the `AiOutput` it leads to.
- Joining the output chunks and the internals of `JSON.parse` (route.ts:53-55) are left out; their library code is not part of this model. The model does not check the parsed value's shape. A parsed array is taken to hold well-formed recommendations.
- The RAWG `fetch`, the API key from `process.env` and the query URL with `encodeURIComponent` (route.ts:60) are left out. They are network I/O and a library encoder; each lookup is represented by its outcome.
- The object spread `...game` (route.ts:64, 70) copies every key of the parsed recommendation into the response, including any extra keys the generation model emits. `EnrichedGame` holds only `nama_game`, `ringkasan`, `tips` and the three catalog fields, so such extra keys are not modelled.
- Every lookup is assumed to settle. The `fetch` at route.ts:60 has no timeout, so a lookup that never settles leaves the route without an answer; `LookupOutcome` has no case for it.
- The model assumes well-formed catalog JSON, with string names under every `platforms[i].platform`. An exception raised inside the callback by malformed catalog JSON rejects the promise the same way `Threw` does.
- The concurrency of `Promise.all` is left out. Its observable effects here are index order and reject-on-any-rejection, and `JsSemantics.All` over settled outcomes states both. Completion order does not exist in the model.
- There is no idempotence lemma: `Post` is a function, so equal inputs give equal answers by construction.
- `console.error` logging (route.ts:63, 81) has no effect on the answer and is left out.
- Strings are sequences of Dafny characters, not UTF-16 code units.
- `src/app/page.tsx` is not part of this model. It is the React form that calls the route.
