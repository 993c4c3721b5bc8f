# Rick and Morty feed: fetch helpers and selection state, in Dafny

This project models the two pieces of logic in the Rick and Morty episode
browser:

- The **data-fetching helpers** of `src/lib/api.ts`:
  - `fetchEpisodes` walks the episode collection from page to page by following `info.next`, up to a ceiling of 100 pages.
  - `fetchCharacters` reads one page of the character collection.
  - `fetchEpisodeCharacters` pulls the numeric ids out of an episode's character URLs. When at least one id survives it makes one bulk request for all of them and returns a list; otherwise it makes no request and returns `[]`.
- The **selection state machine** of `src/app/components/RickMortyFeed.tsx`. Its state is the six `useState` slots:
  - `episodes`
  - `characters`
  - `selectedEpisodeId`
  - `loading`
  - `charactersLoading`
  - `error`

  Three handlers change them: the two mount loaders and the episode click handler.

The network is a function from URL to reply, passed as a parameter (`PageServer`,
`BulkServer` in `api_types.dfy`). A reply is a good page, a body without `results`,
or a rejected request. A rejection comes from an HTTP error status, a timeout
abort, a transport failure or a body that is not JSON. Every fetch model also
returns the URLs it requested, in order. This is how the number and order of
requests are stated. The base URL is a parameter.

Files:

- `api_types.dfy` (module `ApiTypes`): resource shapes and network replies.
- `decimal.dfy` (module `Decimal`): `String(n)`, `parseInt` on digit strings, and
  how `${page}` renders an integer.
- `api.dfy` (module `Api`):
  - `FetchEpisodes` is an imperative method with the source's `while` loop and `break`. It is proved against the predicate `IsCrawl` and the function `Harvest`.
  - `FetchCharacters` and `FetchEpisodeCharacters` are functions, with the regex, join and normalisation written out.
- `feed.dfy` (module `Feed`):
  - `FeedState` holds the six slots.
  - It has one pure function per half of each handler (`ClickStarted`/`ClickCompleted`, …).
  - The class `RickAndMortyFeed` has the six slots as fields. Its methods are tied to those functions through `View()`.
  - Each async handler is split at its `await`: a start method runs the synchronous part and returns the request to await, and a complete method takes the settled promise (`Outcome`). `loadEpisodes` has only the complete method, `CompleteLoadEpisodes`, because nothing runs before its `await`.
  - The methods `LoadEpisodes`, `LoadInitialCharacters` and `HandleEpisodeClick` run one handler to its end with nothing interleaved.

On these points the code behaves as follows, and the model follows it:

- Deselecting an episode clears `selectedEpisodeId` at once, before the fetch. It does not wait for completion.
- In `fetchEpisodes`, a page without a `results` array ends the walk like a failed request. The episodes gathered so far are returned and no error is raised.
- `fetchCharacters` does not validate the body. A page without `results` resolves to `undefined`, which is then stored in the `characters` slot. The model writes `undefined` as `None`, so the slot has type `Option<seq<Character>>`.

## Model

| member | source | states |
|---|---|---|
| `Api.EpisodesUrl` | src/lib/api.ts:42 | the start URL extends the base URL, so it is never empty and the loop always makes its first request |
| `Api.NextUrl` | src/lib/api.ts:57 | the next URL is empty (falsy) exactly when `info.next` is missing, null or empty; otherwise it is `info.next` itself |
| `Api.FetchEpisodes` | src/lib/api.ts:40-72 | at most 100 requests; the first goes to `base + "/episode"`; each later one goes to the previous page's non-empty `next`; the walk stops at a failed or malformed page, an absent or empty `next`, or the 100-page ceiling; the result is the in-order concatenation of the good pages' results; it never rejects |
| `Api.CrawlUnique` | src/lib/api.ts:42-65 | the request sequence FetchEpisodes promises is unique for a given network and start URL, so its contract fixes both the requests and the returned list |
| `Api.HarvestConcat` | src/lib/api.ts:56 | accumulating `[...allEpisodes, ...data.results]` page by page distributes over splitting the request sequence |
| `Api.FailedPageEndsCrawl` | src/lib/api.ts:47-63 | a failed or malformed page is the last one requested and contributes nothing; the episodes of the earlier pages are returned |
| `Api.EndlessChainHitsCeiling` | src/lib/api.ts:44-46 | if every page names a further page, exactly MaxPages (100) requests are made |
| `Api.ThreePageCollection` | src/lib/api.ts:40-72 | a collection served in three pages is read with exactly three requests and its items come back in page order |
| `Api.PageUrl` | src/lib/api.ts:76 | the URL is `base + "/character?page="` followed by the page, whose spelling is all digits exactly when the page is not negative |
| `Api.FetchCharacters` | src/lib/api.ts:75-80 | exactly one request, to `base + "/character?page=" + page`; rejects exactly when the request fails; resolves to the page's `results` unchecked, or to undefined when there are none |
| `Api.PageUrlInjective` | src/lib/api.ts:76 | distinct page numbers are requested at distinct URLs |
| `Api.DefaultPageUrl` | src/lib/api.ts:75-76 | the default page is requested as `?page=1` |
| `Api.TrailingDigits` | src/lib/api.ts:85 | the longest run of digits that ends the string, with a non-digit or the start of the string before it |
| `Api.MatchTrailingId` | src/lib/api.ts:85 | a match captures a non-empty proper suffix of the URL with `/` before it, and the URL then ends in a digit |
| `Api.MatchTrailingIdSpec` | src/lib/api.ts:85 | `/\/(\d+)$/` matches exactly when the URL ends in `/` followed by one or more digits, and it captures those digits |
| `Api.TrailingDigitsAfterSlash` | src/lib/api.ts:85 | the digits after the last `/` are exactly the trailing digit run |
| `Api.ParsedId` | src/lib/api.ts:84-86 | a URL the regex does not match maps to 0; the id is positive exactly when the regex matches and the captured digits are not all zeros |
| `Api.CharacterIds` | src/lib/api.ts:84-87 | every kept id is positive, and there are no more ids than URLs |
| `Api.CharacterIdsConcat` | src/lib/api.ts:84-87 | ids are extracted URL by URL and keep the input order |
| `Api.CharacterIdsMembership` | src/lib/api.ts:84-87 | an id is kept if and only if it is positive and is parsed from some URL; non-matches and zeros are dropped |
| `Api.ResourceUrlYieldsId` | src/lib/api.ts:84-87 | a URL ending in `/` and the decimal spelling of a positive id parses to that id and yields exactly that id |
| `Api.NoTrailingDigitNoId` | src/lib/api.ts:84-87 | a URL that does not end in a digit parses to 0 and yields no id |
| `Api.JoinIds` | src/lib/api.ts:91 | the joined string is empty exactly when there are no ids, and it holds only digits and commas |
| `Api.JoinTwoIds` | src/lib/api.ts:91 | two ids are joined as `m,n` |
| `Api.JoinIdsRoundTrip` | src/lib/api.ts:91 | splitting the comma-joined id list at commas and parsing each part gives back the ids, in order |
| `Api.BulkUrl` | src/lib/api.ts:92 | the URL starts with `base + "/character/"` and has something after it exactly when there is at least one id |
| `Api.AsList` | src/lib/api.ts:93-96 | the call rejects exactly when the request fails; an array comes back as it is, any other value as a one-element list |
| `Api.FetchEpisodeCharacters` | src/lib/api.ts:83-97 | no request and an empty list when no id survives; otherwise exactly one request, to `base + "/character/" + ids joined with ","`; an array response is returned as is, any other response as a one-element list; a failed request rejects |
| `Api.ResolverScenarioIds` | src/lib/api.ts:84-87 | for a list like `/character/2`, `/character/35`, `/bogus`, the ids 2 and 35 are kept, in order, and `/bogus` is dropped |
| `Api.ResolverScenarioRequest` | src/lib/api.ts:89-93 | for the same list, one request goes out, for `character/2,35` |
| `Decimal.DigitsValue` | src/lib/api.ts:86 | `parseInt` of a digit string is 0 exactly when every digit is `0` |
| `Decimal.NatToString` | src/lib/api.ts:91 | `String(n)` is a non-empty digit string with no leading zero (except `"0"`) |
| `Decimal.ParseNatToString` | src/lib/api.ts:84-91 | `parseInt` of `String(n)` is n, so the id sent is the id parsed |
| `Decimal.IntToString` | src/lib/api.ts:76 | `${page}` is non-empty and starts with `-` exactly for negative pages |
| `Decimal.IntToStringInjective` | src/lib/api.ts:76 | distinct integers render differently |
| `Feed.Perform` | src/lib/api.ts:75-97 | a fetch the component awaits makes at most one request; a rejection always comes from a request that was made; a character page is requested at that page's URL |
| `Feed.EpisodesLoaded` | src/app/components/RickMortyFeed.tsx:21-29 | after its fetch settles, loadEpisodes writes only `episodes` and `error`, and any error it writes is "Failed to load episodes" |
| `Feed.InitialLoadStarted` | src/app/components/RickMortyFeed.tsx:38 | `loading` is set and nothing else changes |
| `Feed.InitialLoadCompleted` | src/app/components/RickMortyFeed.tsx:39-47 | `loading` is off; only `characters`, `error` and `loading` are written; `error` is cleared exactly when the fetch resolved |
| `Feed.ClickStarted` | src/app/components/RickMortyFeed.tsx:56-66 | the spinner is on; the selection always changes (to null for the selected episode, to the clicked one otherwise); nothing but the selection and the spinner is written |
| `Feed.ClickRequest` | src/app/components/RickMortyFeed.tsx:56-67 | character page 1 is requested exactly when the clicked episode is the selected one; otherwise the clicked episode's character URLs are |
| `Feed.ClickCompleted` | src/app/components/RickMortyFeed.tsx:60-76 | the spinner is off; only `characters`, `error` and the spinner are written; `error` is cleared exactly when the fetch resolved |
| `Feed.RickAndMortyFeed.constructor` | src/app/components/RickMortyFeed.tsx:12-17 | every slot starts at its `useState` initial value |
| `Feed.RickAndMortyFeed.CompleteLoadEpisodes` | src/app/components/RickMortyFeed.tsx:21-29 | the new state is `EpisodesLoaded` of the old state: on success `episodes` is stored, on failure the error is set |
| `Feed.RickAndMortyFeed.LoadEpisodes` | src/app/components/RickMortyFeed.tsx:20-32 | on mount, `episodes` becomes the result of a full crawl, and `error` is untouched because `fetchEpisodes` never rejects |
| `Feed.RickAndMortyFeed.StartInitialCharacters` | src/app/components/RickMortyFeed.tsx:36-39 | `loading` is set true and the request is character page 1 |
| `Feed.RickAndMortyFeed.CompleteInitialCharacters` | src/app/components/RickMortyFeed.tsx:39-47 | the new state is `InitialLoadCompleted` of the old state |
| `Feed.RickAndMortyFeed.LoadInitialCharacters` | src/app/components/RickMortyFeed.tsx:35-51 | one request, to the page-1 URL; the state after completion follows from the network's reply |
| `Feed.RickAndMortyFeed.StartEpisodeClick` | src/app/components/RickMortyFeed.tsx:54-67 | the new state is `ClickStarted` of the old state, and the returned request is the one the handler awaits |
| `Feed.RickAndMortyFeed.CompleteEpisodeClick` | src/app/components/RickMortyFeed.tsx:60-76 | the new state is `ClickCompleted` of the old state |
| `Feed.RickAndMortyFeed.HandleEpisodeClick` | src/app/components/RickMortyFeed.tsx:54-77 | a click run to its end makes at most one request; its final state is the start followed by the completion with that request's outcome |
| `Feed.ClickOnSelectedDeselects` | src/app/components/RickMortyFeed.tsx:56-60 | clicking the selected episode sets the selection to null before any fetch, turns `charactersLoading` on, requests character page 1, and changes nothing else |
| `Feed.ClickOnOtherSelectsOptimistically` | src/app/components/RickMortyFeed.tsx:63-67 | clicking another episode selects it at once, before its characters arrive; it leaves `characters` as it was, requests that episode's character URLs, and changes nothing else |
| `Feed.ToggleReturnsToNone` | src/app/components/RickMortyFeed.tsx:56-65 | selecting E and clicking E again returns the selection to null, whether or not the first fetch has settled; the second click reloads page 1 |
| `Feed.ClickCompletion` | src/app/components/RickMortyFeed.tsx:60-76 | on success `characters` is replaced wholesale and `error` is cleared; on failure `error` is set and `characters` is kept; the selection is kept, the spinner is off, and `episodes` and `loading` are untouched |
| `Feed.FailedClickKeepsOptimisticSelection` | src/app/components/RickMortyFeed.tsx:54-76 | after a failed click the selection keeps its optimistic value and the characters keep their value from before the click; nothing is rolled back |
| `Feed.ClickLeavesEpisodes` | src/app/components/RickMortyFeed.tsx:54-77 | the click handler never writes `episodes` or `loading`; `charactersLoading` is on right after its start and off right after its completion |
| `Feed.LastCompletionWins` | src/app/components/RickMortyFeed.tsx:54-77 | with overlapping clicks, whichever successful completion is applied last decides `characters` |
| `Feed.EpisodesLoadedWrites` | src/app/components/RickMortyFeed.tsx:21-29 | the episode loader writes only `episodes` on success and only `error` on failure |
| `Feed.InitialLoadBracket` | src/app/components/RickMortyFeed.tsx:36-48 | the initial load turns `loading` on, and off again whatever the outcome; on success it stores the page and clears `error`; on failure it sets `error` and keeps `characters` |
| `Feed.ToggleOffShowsFirstPage` | src/app/components/RickMortyFeed.tsx:56-62 | a successful deselect shows the same characters as the initial page-1 load does against the same network |
| `Feed.SelectingEmptyEpisodeMakesNoRequest` | src/app/components/RickMortyFeed.tsx:63-69 | selecting an episode whose character URLs name no id makes no request and settles with an empty list |

## Left out

- `fetchWithConfig` (src/lib/api.ts:12-37) is not modelled. It covers the `AbortController`, the timer and the `revalidate` cache hint. Its effect is written as a `FetchError` in the reply: HTTP error status, timeout, transport failure or invalid JSON.
- `checkApiHealth` and `getApiConfig` are not modelled. They are thin wrappers outside the core.
- `src/lib/config.ts` is not part of this model. The base URL is a parameter, and the timeout and revalidate period do not appear.
- JSON decoding is not modelled: replies arrive already in their shapes. A `results` that is present but not an array counts as missing. For `fetchEpisodes` both cases end the walk the same way. For `fetchCharacters` the source would pass such a value through, where the model resolves to undefined. The module `@/types/api` is not part of this model, so the fields of `Episode` and `Character` are taken from the API's documented shape.
- `parseInt` precision on very long digit strings is not modelled. Ids are naturals and `String(n)` is exact.
- `Api.FetchCharacters`: the page is an integer, rendered in plain decimal. JavaScript numbers that are not integers are not modelled, nor are large pages, where `${page}` switches to exponent form from 1e21 and is inexact above 2^53. The component only ever requests page 1.
- The network is deterministic per URL. Two requests for the same URL get the same reply.
- Rendering (src/app/components/RickMortyFeed.tsx:79-195) is not modelled: the error screen with its reload button, spinners, headings and images. Nor is any `console.error` or `console.warn` output, including the page-ceiling warning.
- `Feed.ClickLeavesEpisodes` speaks of one click at a time. With overlapping clicks, an earlier click's completion turns the spinner off while a later click's fetch is still pending; nothing keeps it on until the last pending fetch settles.
- Overlapping clicks are not ordered. Start and completion are separate methods, and any interleaving of calls is allowed. Nothing is proved about out-of-order completions beyond `Feed.LastCompletionWins`.
- `Feed.RickAndMortyFeed.StartEpisodeClick` compares with the current `selectedEpisodeId` field. The source compares with the value captured by the last render, and the two agree once the component has re-rendered after the last state change.
