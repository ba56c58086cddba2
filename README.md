# ComboBox combination engine, in Dafny

ComboBox is a crafting game: the player drags one element card onto another,
and the game screen combines the two into a new element that a text
generator invents. This project models the game screen's combination
handler (`handleCombine`) and the helpers it uses inline, and proves what it
does to the screen's three pieces of state: the element list, the log list
(newest first) and the busy flag.

- `elements.dfy` (module `Elements`): the element record, the four default
  primitives, and the `find`-by-id search, as a specification function
  (`Find`) and as the loop the handler runs (`FindById`).
- `combination_key.dfy` (module `CombinationKey`): the canonical key — the two
  ids sorted by JavaScript's default string order and joined with `-`.
- `extraction.dfy` (module `Extraction`): cutting the JSON object out of the
  provider's text with the greedy pattern `\{[\s\S]*\}`, proved equal to the
  leftmost-longest match.
- `generation.dfy` (module `Generation`): the candidate a novel combination
  gets — the parsed object, the "Manifestation" fallback when parsing fails,
  or the "Essence" fallback when the provider fails or the response parses
  to `null`.
- `combine.dfy` (module `Combine`): the handler as pure functions over a
  `World` value, split at its one suspension point (the provider request):
  `Begin` before it, `Resolve` after it, `HandleCombine` for a whole call; and
  the lemmas about it.
- `game_screen.dfy` (module `Screen`): the class `GameScreen` holding
  `elements`, `logs` and `isGenerating`, whose methods update them in place
  and are proved to produce exactly the state the `Combine` functions
  describe.

The provider request is an input: `ProviderOutcome` is either `Failure` (the
request threw, including the missing-credentials error the handler raises
itself) or `Success(text)`. `JSON.parse` is an input too: a function
`parse: string -> ParseResult` whose answer is `Parsed(candidate)` (an
object with the three fields), `SyntaxError` (it threw) or `Null` (the text
was the JSON `null`).

What the code does, where it differs from a design that one might expect:

- The key does not identify the pair once ids contain a dash, and every
  derived id does. `DashedIdsCollide` shows Air with Earth-Water and
  Air-Earth with Water both getting `air-earth-water`, so the second of
  those combinations is reported as already known; `DashedCollisionReachable`
  reaches that state from the default board. `KeyDeterminesPair`
  proves the key is faithful for dash-free ids.
- There are no recipe tables, no categories and no check that names are
  unique. The only duplicate check is on the key.
- Extraction runs from the first `{` to the LAST `}`, not to the first
  closing brace.
- A failed parse produces "Manifestation of S & T" with the first 50
  characters of the raw response as its description. A failed provider call
  produces "Essence of S & T" with a fixed description. A response that
  parses to `null` takes the provider-failure path: reading `name` of `null`
  throws inside the outer `try`. That read comes after the existence check
  before the append, so when the key is found there the call logs "already
  known" whatever the parser gave (`ResolveRechecksKey`).
- The drop target keeps the handler of the render in which its card was
  mounted, so a drop reads that render's element list and busy flag. This
  can append a second card with an id already on the board (see
  "## Findings").
- The handler itself accepts a card combined with itself (key `a-a`). Only
  the card's drop target refuses a card dropped on itself.

## Model

| member | source | states |
|---|---|---|
| Elements.PrimitivesHaveUniqueIds | src/components/GameScreen.tsx:75-80 | the default board has four cards, air, water, earth and fire, with pairwise distinct ids |
| Elements.Find | src/components/GameScreen.tsx:149-150 | `find` by id gives nothing exactly when no card has the id, and otherwise the first card that has it |
| Elements.FindById | src/components/GameScreen.tsx:158 | the linear search the handler runs returns the same card as `Find` |
| Elements.FindAppend | src/components/GameScreen.tsx:231 | appending a card never changes what a search that already succeeded finds; a failed search then finds the new card only if it has the id |
| CombinationKey.LessEq | src/components/GameScreen.tsx:155 | definition of the default string order `sort()` uses; its properties are stated by `LessEqTotal`, `LessEqAntisymmetric` and `SortPair` |
| CombinationKey.SortPair | src/components/GameScreen.tsx:155 | sorting two ids gives the same two ids with the smaller first in string order |
| CombinationKey.Key | src/components/GameScreen.tsx:155-156 | definition of the key; its properties are stated by `SortPair`, `KeyCommutative`, `KeyIsOrderedJoin`, `KeyDeterminesPair` and `DashedIdsCollide` |
| CombinationKey.KeyCommutative | src/components/GameScreen.tsx:154-156 | combining A with B and B with A gives the same key |
| CombinationKey.KeyIsOrderedJoin | src/components/GameScreen.tsx:156 | a key is the smaller id, a dash, then the larger id |
| CombinationKey.KeyDeterminesPair | src/components/GameScreen.tsx:154-156 | for ids without a dash, equal keys mean the same unordered pair of ids |
| CombinationKey.DashedIdsCollide | src/components/GameScreen.tsx:154-156 | two different pairs of ids, air with earth-water and air-earth with water, share the key air-earth-water |
| Extraction.FirstIndex | src/components/GameScreen.tsx:211 | the first position of a character, or none when the text lacks it |
| Extraction.LastIndex | src/components/GameScreen.tsx:211 | the last position of a character, or none when the text lacks it |
| Extraction.Extract | src/components/GameScreen.tsx:211-212 | the extracted text is no longer than the response, and is either the whole response or starts with `{` and ends with `}` |
| Extraction.ExtractIsGreedyMatch | src/components/GameScreen.tsx:211-212 | when the response has a `{` with a `}` after it, the result is the match that starts first and ends last; otherwise it is the whole response |
| Extraction.ExtractIsSubstring | src/components/GameScreen.tsx:211-212 | the extracted text is a contiguous piece of the response |
| Generation.Prefix | src/components/GameScreen.tsx:219 | `substring(0, n)` is the first min(n, length) characters of the text |
| Generation.ManifestationOf | src/components/GameScreen.tsx:214-220 | definition of the parse-failure card; its description is stated by `ManifestationDescription` |
| Generation.EssenceOf | src/components/GameScreen.tsx:245-250 | definition of the provider-failure card; its use is stated by `ProviderFailureFallsBack` and `NullParseFallsBack` |
| Generation.TryGenerate | src/components/GameScreen.tsx:206-237 | definition of the candidate the outer `try` block appends, or none when it throws (request failure, or `null` read at line 226); its properties are stated by `CombineNovelPair` and `NullParseFallsBack` |
| Generation.Generate | src/components/GameScreen.tsx:206-250 | definition of the card a novel pair gets, the `try` block's or the Essence fallback; its properties are stated by `CombineNovelPair` and `ProviderFailureFallsBack` |
| Generation.ManifestationDescription | src/components/GameScreen.tsx:214-220 | the parse-failure description is the response's first min(50, length) characters followed by `...`, so at most 53 characters long |
| Combine.KnownLog | src/components/GameScreen.tsx:159 | definition of the "already known" log text (also line 235); used by `CombineKnownPair` and `ResolveRechecksKey` |
| Combine.StartLog | src/components/GameScreen.tsx:164 | definition of the start log text; used by `CombineNovelPair` |
| Combine.CreatedLog | src/components/GameScreen.tsx:232 | definition of the creation log text; used by `OutcomeLog` and `ParseFailureFallsBack` |
| Combine.NewElement | src/components/GameScreen.tsx:224-229 | definition of the card built from the key and a candidate; used by `CombineNovelPair` |
| Combine.OutcomeLog | src/components/GameScreen.tsx:232-239 | definition of the log a novel pair adds last, the creation log when the `try` block completes and the failure log when it throws; used by `CombineNovelPair` |
| Combine.StartOf | src/components/GameScreen.tsx:147-161 | definition of the guards before the request; its properties are stated by `CombineIgnored`, `CombineKnownPair` and `BeginHoldsBusyFlag` |
| Combine.Begin | src/components/GameScreen.tsx:146-165 | definition of the state at the request; its properties are stated by `BeginHoldsBusyFlag` and `Screen.GameScreen.Begin` |
| Combine.Resolve | src/components/GameScreen.tsx:206-256 | definition of the state after the answer; its properties are stated by `ResolveRechecksKey`, `CombineNovelPair`, `ProviderFailureFallsBack`, `NullParseFallsBack` and `Screen.GameScreen.Resolve` |
| Combine.HandleCombine | src/components/GameScreen.tsx:146-257 | definition of one whole call on the current state; its properties are stated by the `Combine*` lemmas below and `Screen.GameScreen.HandleCombine` |
| Combine.ResolveNovel | src/components/GameScreen.tsx:223-253 | after the request, when the key is still absent, exactly the generated card (or the Essence fallback) is appended, the creation or failure log is prepended, and the busy flag is cleared |
| Combine.ResolveRechecksKey | src/components/GameScreen.tsx:223-235 | when the request succeeded but the key is found at the check before the append, one "already known" log is prepended, nothing is appended and the flag is cleared, whatever the parser gave |
| Combine.CombineIgnored | src/components/GameScreen.tsx:147-152 | a call made while busy, or naming an id not on the board, leaves elements, logs and the busy flag unchanged |
| Combine.CombineKnownPair | src/components/GameScreen.tsx:158-161 | when the key already names a card, the elements stay the same, one "already known" log is prepended, and the result does not depend on the provider or the parser |
| Combine.CombineNovelPair | src/components/GameScreen.tsx:163-256 | a novel pair appends exactly one card at the end, with the key as id and the generated candidate as content; earlier cards keep values and order; the start log and then the creation or failure log are prepended; the busy flag ends cleared |
| Combine.ProviderFailureFallsBack | src/components/GameScreen.tsx:237-253 | a provider failure still completes the combination: the failure log is prepended and an "Essence of S & T" card with the fixed description is appended |
| Combine.ParseFailureFallsBack | src/components/GameScreen.tsx:214-232 | when the response does not parse, a novel pair appends "Manifestation of S & T" with the sparkles emoji and the response's first 50 characters plus `...`, logs it as created, and clears the busy flag |
| Combine.NullParseFallsBack | src/components/GameScreen.tsx:212-253 | a response that parses to `null` ends exactly as a failed request does: failure log and Essence card |
| Combine.BeginHoldsBusyFlag | src/components/GameScreen.tsx:147-165 | once a request is out the busy flag is set, every further call is ignored, the element list is unchanged and the key is still absent |
| Combine.CombineClearsBusyFlag | src/components/GameScreen.tsx:254-256 | a call that starts with the busy flag clear ends with it clear, on every path |
| Combine.CombineAppendOnly | src/components/GameScreen.tsx:223-252 | the element list only grows at the end, by at most one card |
| Combine.CombinePreservesUniqueIds | src/components/GameScreen.tsx:223-251 | if ids are pairwise distinct before a call, they are after it |
| Combine.CombineRecordsKey | src/components/GameScreen.tsx:223-251 | after a call on two cards on the board, the pair's key names a card whatever the provider did, and both cards are still found |
| Combine.CombineBothOrders | src/components/GameScreen.tsx:154-161 | combining A with B and then B with A adds exactly one card when the pair was new and none otherwise; the second call changes no element |
| Combine.CombineKeepsFound | src/components/GameScreen.tsx:223-251 | a card a search finds before a call is the card it finds after it |
| Combine.NovelPairFind | src/components/GameScreen.tsx:158-251 | after a novel pair's call, old hits are unchanged, the key finds the new card and every other id still finds nothing |
| Combine.DashedCollisionFrom | src/components/GameScreen.tsx:154-161 | on an idle board with air, earth and water and no derived ids, earth+water, air+earth and air+earth-water each add a card, and air-earth+water, never combined before, then adds nothing |
| Combine.DashedCollisionReachable | src/components/GameScreen.tsx:75-80 | that run is reachable from the default board, whatever the provider answers |
| Combine.CombineSeen | src/components/GameScreen.tsx:146-257 | definition of the handler as a memoised drop target calls it (lines 40-50): reads from its render's snapshot, writes onto the current state; its properties are stated by `CombineSeenOnCurrentState`, `StaleDropDuplicatesId` and `StaleDropIgnoresNewCard` |
| Combine.CombineSeenOnCurrentState | src/components/GameScreen.tsx:146-257 | the handler as bound into a drop target behaves as the handler on the current state when its render's snapshot is up to date |
| Combine.StaleDropDuplicatesId | src/components/GameScreen.tsx:40-50 | on the default board, dropping water on air twice through air's mount-time handler appends two cards with the id air-water |
| Combine.StaleDropIgnoresNewCard | src/components/GameScreen.tsx:40-50 | through the same mount-time handler, dropping the new air-water card on air is ignored |
| Screen.GameScreen.constructor | src/components/GameScreen.tsx:75-94 | a new screen holds the passed list or else the four primitives, no logs, and the busy flag clear |
| Screen.GameScreen.Begin | src/components/GameScreen.tsx:146-165 | the handler up to the request produces the state of `Combine.Begin` and reports whether a request is out |
| Screen.GameScreen.Resolve | src/components/GameScreen.tsx:206-256 | the handler after the request produces the state of `Combine.Resolve` and leaves nothing in flight |
| Screen.GameScreen.HandleCombine | src/components/GameScreen.tsx:146-257 | one whole call produces the state of `Combine.HandleCombine` |
| Screen.GameScreen.Drop | src/components/GameScreen.tsx:40-46 | a card dropped on itself changes nothing, the pending pair included; otherwise the drop runs the handler on the current state |

## Left out

- Rendering, styling and the drag-and-drop hooks of the card and the screen. Only the drop target's self-drop check is kept, as `Drop`.
- The two requests to the text service and their prompts. They are network I/O, so the request is the `ProviderOutcome` input. The response-shape choice (`response.data.result.response || response.data.result`) is left out too: the model takes the response to be text. A non-text result is not modelled: `match` and then `substring` would throw on it, and the call would end on the provider-failure path.
- `JSON.parse`. It is a foreign parser, modelled as the `parse` input with three answers: an object with the three fields, a syntax error, or `null` (which sends the call to the failure path). A non-null value that lacks `name`, `emoji` or `description` (a number, an array, an object with other keys) would give a card with undefined fields; the model does not capture that.
- The planet-image effect. It is network I/O and uses a random pick, the clock and object URLs.
- The save to `localStorage`. It is a browser side effect. The saved object holds the god name, planet name, powers and element list, which are `GameScreen`'s constants and `elements`.
- The 500 ms timer before the fallback append. It is timing: the model appends in the same step. A call made in the window between `finally` clearing the flag and the timer's append is not modelled; with the request failing every time, repeating the same drop in that window appends the key a second time.
- Stale closures. `Combine.HandleCombine`, `Screen.GameScreen` and the lemmas about them run the handler on the current state. The program's drops do not: the drop spec at `GameScreen.tsx` lines 40-50 is a factory passed to `useDrop` without a dependency list, which react-dnd memoises once, so a drop calls the handler of the render in which the target card was mounted and reads that render's list and busy flag. `CombineSeen` models that handler as written, for the counterexamples `StaleDropDuplicatesId` (the "## Findings" row) and `StaleDropIgnoresNewCard`; the rest of the model uses the current-state handler.
- BeginHoldsBusyFlag: holds for the handler on the current state, not for the program's drops; a drop onto a card mounted while idle reads a clear busy flag.
- CombineBothOrders: holds for the handler on the current state, not for the program's drops; a drop through a stale handler re-generates a pair already on the board.
- CombinePreservesUniqueIds: holds for the handler on the current state, which is the corrected behaviour; the program's drops break it (`StaleDropDuplicatesId`).
- Log ids and timestamps from `Date.now()`. They are clock values, so each log is its text only. The `console` output is left out too.
- Emoji bytes. The source file stores its emoji double-encoded (the bytes of UTF-8 read as Windows-1252 and encoded again, so line 76 shows as "ðŸ’¨" and lines 218 and 248 as "âœ¨"). The model uses the characters those bytes were meant to encode: U+1F4A8, U+1F4A7, U+1F331 and U+1F525 for the primitives, and U+2728 for the fallback cards.
- Character width. JavaScript strings count UTF-16 code units, and the model counts Dafny characters. The 50-character cut and the sort order are the same only for text without characters outside the Basic Multilingual Plane.
- The setup form and the screen switch. They pass three strings to the game screen and hold no combination logic.
- The build and theme configuration.

## Findings

| source | as written | input that shows it | evidently intended | confidence | as-written member | corrected member |
|---|---|---|---|---|---|---|
| src/components/GameScreen.tsx:40-50 | the drop spec is memoised, so a drop calls the handler bound in the target card's first render, whose list is that render's list; the checks at lines 158, 223 and 244 all read it, while the appends update the current list | default board; drop water on air, then drop water on air again | one card per key: the re-check comment at line 243 guards against duplicates, and a second drop of the pair reports it as already known | medium: relies on react-dnd memoising a factory spec that has no dependency list; not executed | Combine.StaleDropDuplicatesId | Combine.CombinePreservesUniqueIds |
