# Dog-breed autocomplete: a Dafny model

The system is a small autocomplete input. The user types a query. The query is debounced and
appended to a search URL. A fetch hook (`useFetch`) looks that URL up in a module-wide cache
or requests it, and reports `data`, `loading` and `error`. The component renders one of a
loading line, an error line, a "no results" line or the suggestion list. In the list every
name has the query bolded and the highlighted row is tinted. ArrowDown, ArrowUp and Enter
move the highlight and put the chosen name into the input.

The model has six modules:

- `Wrappers`: the `Option` type, used for `string | null`.
- `Breeds`: the `Breed` record.
- `Highlight`: `highlightSuggestion`. The split follows the ECMAScript split algorithm for a
  regular expression with one capture group. This includes its handling of empty strings and
  empty matches. The query is matched as a literal, case-insensitively on ASCII letters.
- `Keyboard`: the component's `query` and `highlightedIndex`. The `Controller` class holds
  them as fields, and its event methods `HandleInputChange` and `HandleKeyDown` change them.
  Each method is proved equal to a pure transition function (`OnInputChange`, `OnKeyDown`),
  and the lemmas are stated about those functions.
- `Render`: the search URL, the tint rule, the list items and the choice of what the panel
  shows (`RenderSuggestions`).
- `UseFetch`: the shared cache as a class `ResponseCache` with a `map` field. Each hook
  instance is a class `FetchHook` holding `data`, `loading` and `error`. `fetchData` is split
  into `Start`, the part before `await fetch(url)`, and `Finish`, its continuation.
  `FetchData` runs both. The network is a parameter of type `Outcome`: `Ok(list)`, `NotOk`
  or `Threw(message)`. Pure functions (`Begin`, `Settled`, `Stored`, `NextState`,
  `NextEntries`) specify the methods. A sequence of calls (`EntriesAfter`) models several
  hook instances sharing one cache.
- `AutoComplete`: lemmas that connect the fetch state to what is rendered.

Some behaviours of the code are easy to misread. The model states each as the code has it:

- From index -1, `n` presses of ArrowDown give `min(n - 1, len - 1)`: one press highlights
  the first suggestion (`ArrowDownFromNone`).
- Starting a new request does not clear `error`. So "Loading..." and the message of an
  earlier failure can show together (`MissKeepsErrorWhileLoading`, `StaleErrorWhileLoading`).
- A cache hit does not clear `error` either. After a failure, a hit on a cached URL stops
  loading but keeps the old error, and that error hides the cached list (`CacheHit`,
  `HitAfterFailureHidesList`).
- The loading line and the error line are rendered independently. "Loading..." is therefore
  not always shown alone (`LoadingWithError`).
- `error` counts as set only when it is a non-empty string. That is JavaScript truthiness
  (`EmptyErrorIsNoError`).
- While the list stays the same, the highlight index stays in [-1, len - 1] on a non-empty
  list (`KeysKeepIndexInRange`). On an empty list, ArrowUp sets it to 0
  (`ArrowUpOnEmptyList`). No suggestion is at index 0 then, so Enter ignores it.
- The index is reset only by typing and by Enter, never when a new list arrives. An index
  moved on the old list can point past the end of a shorter new one. Then no row is tinted
  and Enter does nothing (`StaleIndex`). Against a new list that is long enough, the same
  index tints a row the user never moved to, and Enter selects it (`StaleIndexLonger`).
- The keys act on the hook's `data`, shown or not. While a miss is loading, the list is
  hidden but `data` still holds the old list, and Enter can select a hidden name
  (`EnterWhileLoadingSelectsHidden`).
- The labels are highlighted with the raw `query`, not with `debouncedQuery`.

## Model

| member | source | states |
|---|---|---|
| Highlight.SplitFrom | src/components/Autocomplete/AutoComplete.tsx:36 | the model of the loop of the case-insensitive regular-expression split: tries a match at each position, skips an empty match at the start of a part, emits the text before a match and the captured match; its contract gives an odd number of parts whose odd-numbered ones equal the query ignoring case |
| Highlight.Split | src/components/Autocomplete/AutoComplete.tsx:36 | the model of the whole `split` call, with the empty-string case (no parts when the pattern matches "", else the string itself); its properties are stated by SplitConcat and SplitShape |
| Highlight.HighlightSuggestion | src/components/Autocomplete/AutoComplete.tsx:35-43 | the model of `highlightSuggestion`: one segment per part of the split, bold exactly when the part equals the query ignoring case; its properties are stated by HighlightJoinsBack and HighlightMarksMatches |
| Keyboard.OnInputChange | src/components/Autocomplete/AutoComplete.tsx:17-20 | the transition of `handleInputChange`: query becomes the typed text, index -1; stated by InputChangeResets and Controller.HandleInputChange |
| Keyboard.OnKeyDown | src/components/Autocomplete/AutoComplete.tsx:22-33 | the transition of `handleKeyDown` on the hook's current data; stated key by key by ArrowDownClamps, ArrowUpClamps, EnterSelects and OtherKeysIgnored |
| Highlight.SplitFromConcat | src/components/Autocomplete/AutoComplete.tsx:36 | the parts the split loop produces from a position on spell out exactly the rest of the name |
| Highlight.SplitConcat | src/components/Autocomplete/AutoComplete.tsx:36 | the parts of `split` concatenate back to the name, for every query including the empty one |
| Highlight.SplitFromShape | src/components/Autocomplete/AutoComplete.tsx:36 | from any position the parts alternate: text with no match inside it, then a match |
| Highlight.SplitShape | src/components/Autocomplete/AutoComplete.tsx:36 | for a non-empty query there is an odd number of parts; the odd-numbered parts equal the query ignoring case; the even-numbered parts differ from it and have no occurrence of the query starting inside them |
| Highlight.HighlightJoinsBack | src/components/Autocomplete/AutoComplete.tsx:35-43 | the highlighted segments read exactly as the suggestion's name |
| Highlight.HighlightMarksMatches | src/components/Autocomplete/AutoComplete.tsx:36-41 | for a non-empty query a segment is bold exactly at the odd positions, which are the occurrences of the query ignoring case; no occurrence starts inside a plain segment |
| Highlight.HighlightExamples | src/components/Autocomplete/AutoComplete.test.tsx:50-61 | "Bulldog" and "Beagle" highlighted for "b" are an empty plain part, a bold "B" and the plain rest |
| Keyboard.Controller.constructor | src/components/Autocomplete/AutoComplete.tsx:11-12 | the query starts empty and nothing is highlighted (-1) |
| Keyboard.Controller.HandleInputChange | src/components/Autocomplete/AutoComplete.tsx:17-20 | the query becomes exactly the new text and the index becomes -1 |
| Keyboard.Controller.HandleKeyDown | src/components/Autocomplete/AutoComplete.tsx:22-33 | the new query and index are those of the key transition for the current list |
| Keyboard.ArrowDownClamps | src/components/Autocomplete/AutoComplete.tsx:24 | ArrowDown keeps the query, never goes past len - 1, moves one down or to len - 1, gives -1 on an empty list and 0 from -1 on a non-empty one |
| Keyboard.ArrowDownPresses | src/components/Autocomplete/AutoComplete.tsx:24 | n > 0 presses of ArrowDown from index i give min(i + n, len - 1) and keep the query |
| Keyboard.ArrowDownFromNone | src/components/Autocomplete/AutoComplete.test.tsx:63-66 | from -1, n presses of ArrowDown give min(n - 1, len - 1) |
| Keyboard.ArrowUpClamps | src/components/Autocomplete/AutoComplete.tsx:26 | ArrowUp keeps the query, never goes below 0 (also from -1) and moves one up or to 0 |
| Keyboard.ArrowUpPresses | src/components/Autocomplete/AutoComplete.tsx:26 | n > 0 presses of ArrowUp from index i give max(i - n, 0) and keep the query |
| Keyboard.EnterSelects | src/components/Autocomplete/AutoComplete.tsx:27-31 | Enter with 0 <= i < len sets the query to the name of suggestion i and the index to -1; with any other index it changes nothing |
| Keyboard.OtherKeysIgnored | src/components/Autocomplete/AutoComplete.tsx:22-33 | a key other than ArrowDown, ArrowUp and Enter changes neither the query nor the index |
| Keyboard.InputChangeResets | src/components/Autocomplete/AutoComplete.tsx:17-20 | after typing the query is the text typed and the index is in range for any list |
| Keyboard.KeysKeepIndexInRange | src/components/Autocomplete/AutoComplete.tsx:22-33 | while the list stays the same and is non-empty, every key keeps the index in [-1, len - 1] |
| Keyboard.ArrowUpOnEmptyList | src/components/Autocomplete/AutoComplete.tsx:26 | on an empty list ArrowUp from -1 gives 0, which is out of range |
| Keyboard.TypeNavigateSelect | src/components/Autocomplete/AutoComplete.tsx:17-31 | typing, n > 0 ArrowDown presses and Enter put the name of suggestion min(n - 1, len - 1) into the input and clear the highlight |
| Keyboard.BulldogSelected | src/components/Autocomplete/AutoComplete.test.tsx:49-66 | typing "b" with Bulldog and Beagle listed, then ArrowDown and Enter, leaves "Bulldog" in the input |
| Render.SearchUrl | src/components/Autocomplete/AutoComplete.tsx:15 | the URL is the endpoint followed by the debounced query unchanged |
| Render.SearchUrlInjective | src/components/Autocomplete/AutoComplete.tsx:15 | different debounced queries give different URLs, so each has its own cache entry |
| Render.SearchUrlExample | src/components/Autocomplete/AutoComplete.test.tsx:44-46 | the URL for "bulldog" is the one the test expects |
| Render.HighlightAllJoinBack | src/components/Autocomplete/AutoComplete.tsx:54 | the highlighted content of every item reads as that item's name |
| Render.Background | src/components/Autocomplete/AutoComplete.tsx:49 | the tint rule: "#ddd" at the highlighted index, "#fff" elsewhere; its consequence (exactly one row tinted at most) is stated by ListItems |
| Render.ListItems | src/components/Autocomplete/AutoComplete.tsx:46-56 | one item per suggestion; its content is the suggestion's name highlighted for the raw query (not the debounced one) and reads as that name; an item is tinted exactly when its index is the highlighted one, so at most one is |
| Render.RenderSuggestions | src/components/Autocomplete/AutoComplete.tsx:70-85 | "Loading..." exactly when loading; the error exactly when it is a non-empty string; "No results found for "q"" exactly when not loading, no error, an empty list and a non-empty debounced query; the list exactly when not loading, no error and a non-empty list; never both the no-results line and the list |
| Render.RenderLoadingExample | src/components/Autocomplete/AutoComplete.test.tsx:69-75 | while loading with no error only "Loading..." is shown |
| Render.RenderErrorExample | src/components/Autocomplete/AutoComplete.test.tsx:77-81 | with the error "Failed to fetch" only that message is shown |
| Render.RenderNoResultsExample | src/components/Autocomplete/AutoComplete.test.tsx:84-92 | with an empty list and debounced query "xyz" only `No results found for "xyz"` is shown |
| Render.LoadingWithError | src/components/Autocomplete/AutoComplete.tsx:70-71 | loading and a non-empty error show both lines and nothing else |
| Render.EmptyErrorIsNoError | src/components/Autocomplete/AutoComplete.tsx:71-75 | an empty error string renders as no error |
| Render.EmptyQueryShowsNothing | src/components/Autocomplete/AutoComplete.tsx:72 | not loading, no error, no results and an empty debounced query show nothing |
| UseFetch.ResponseCache.constructor | src/customHooks/useFetch.ts:3 | the shared cache starts empty |
| UseFetch.FetchHook.constructor | src/customHooks/useFetch.ts:6-8 | a hook starts with data [], loading true and no error |
| UseFetch.FetchHook.Start | src/customHooks/useFetch.ts:12-16 | a hit sets data to the cached list and stops loading; a miss starts loading and reports that a request is needed; the error is untouched |
| UseFetch.FetchHook.Finish | src/customHooks/useFetch.ts:17-31 | the hook state becomes the settled state of the outcome and only a success is stored in the cache |
| UseFetch.FetchHook.FetchData | src/customHooks/useFetch.ts:11-33 | a request is made exactly on a miss; the new state and cache are those of one whole call |
| UseFetch.Begin | src/customHooks/useFetch.ts:12-16 | the synchronous part of `fetchData`: on a hit data becomes the cached list and loading false, on a miss loading true; error untouched; stated by CacheHit and MissKeepsErrorWhileLoading |
| UseFetch.Settled | src/customHooks/useFetch.ts:17-31 | the state after the request completes: the list with no error on success, an empty list with the fixed or thrown message otherwise, loading false; stated by MissSucceeds, MissNotOk and MissThrows |
| UseFetch.Stored | src/customHooks/useFetch.ts:23 | the cache after the request completes: the list under url on success only; stated by StoredKeepsOthers |
| UseFetch.NextState | src/customHooks/useFetch.ts:11-33 | the hook state after a whole `fetchData` call; stated by FetchEndsNotLoading, CacheHit, MissSucceeds, MissNotOk and MissThrows |
| UseFetch.NextEntries | src/customHooks/useFetch.ts:11-33 | the cache after a whole `fetchData` call; stated by CacheOnlyGrows, HitAfterSuccess and NoSecondRequest |
| UseFetch.FetchEndsNotLoading | src/customHooks/useFetch.ts:11-33 | every completed call ends with loading false |
| UseFetch.CacheHit | src/customHooks/useFetch.ts:12-14 | a hit, even of an empty list, shows the cached list, stops loading, keeps the error and the cache, whatever the network would do |
| UseFetch.MissSucceeds | src/customHooks/useFetch.ts:16-25 | a successful miss stores url to list, shows the list, clears the error and stops loading |
| UseFetch.MissNotOk | src/customHooks/useFetch.ts:19-30 | a response that is not ok sets the error "Network response was not ok", empties the list, stops loading, leaves the cache alone |
| UseFetch.MissThrows | src/customHooks/useFetch.ts:26-30 | a thrown failure sets the error to its message, empties the list, stops loading, leaves the cache alone |
| UseFetch.MissKeepsErrorWhileLoading | src/customHooks/useFetch.ts:15-16 | starting a request only sets loading; data and error stay |
| UseFetch.CacheOnlyGrows | src/customHooks/useFetch.ts:12-23 | a call adds at most the key url and changes or removes no existing entry |
| UseFetch.StoredKeepsOthers | src/customHooks/useFetch.ts:23 | completing a request changes no entry for another URL |
| UseFetch.HitAfterSuccess | src/customHooks/useFetch.ts:12-23 | after a successful fetch of url, the next call for url from any hook is a hit showing the stored list |
| UseFetch.KeysPersist | src/customHooks/useFetch.ts:3-23 | over a sequence of calls a cached key is never lost |
| UseFetch.NoSecondRequest | src/customHooks/useFetch.ts:12-23 | once a call for url had a successful outcome, no later call for url makes a request |
| UseFetch.SharedCacheScenario | src/customHooks/useFetch.ts:3-14 | two hooks over one cache: the second gets the first one's list for the same URL without a request |
| AutoComplete.FirstRenderLoads | src/customHooks/useFetch.ts:6-8 | with the initial hook and input state the panel shows only "Loading..." |
| AutoComplete.StaleErrorWhileLoading | src/components/Autocomplete/AutoComplete.tsx:70-71 | after a failed request, loading the next uncached query shows "Loading..." together with the old error |
| AutoComplete.HitAfterFailureHidesList | src/components/Autocomplete/AutoComplete.tsx:71-75 | after a failed request, a hit on a cached non-empty list shows that list as data but renders only the old error, not the list |
| AutoComplete.StaleIndexLonger | src/components/Autocomplete/AutoComplete.tsx:22-49 | n ArrowDown presses on an old list leave index n - 1; against a new list of at least n entries row n - 1 is tinted and Enter selects its name |
| AutoComplete.EnterWhileLoadingSelectsHidden | src/components/Autocomplete/AutoComplete.tsx:22-31 | while a miss is loading the list is hidden but the keys act on the kept old data: ArrowDown then Enter selects the first hidden name |
| AutoComplete.StaleIndex | src/components/Autocomplete/AutoComplete.tsx:17-33 | n ArrowDown presses on an old list leave index n - 1; against a shorter new list that index is out of range, no row is tinted and Enter changes nothing |

## Left out

- React machinery is not modelled: `useState` setters, `useEffect` and its `[url]` dependency, `useCallback`, `React.memo`, JSX and styles. State is kept in fields. Whoever drives the model decides when `FetchData` runs.
- Between two setter calls of one continuation, React may render. The model treats a whole `Start` or `Finish` as one update.
- The real `fetch`, HTTP and `response.json()` are replaced by the `Outcome` parameter. A JSON body that is not an array is not modelled. A thrown value without a string `message` is not modelled either.
- Overlapping requests and the order in which they complete are not modelled. `FetchData` runs one call to the end. `Start` and `Finish` can be called in other orders, but no property is stated about such interleavings.
- `useDebounce` is not part of this model. Its timer behaviour is not shown, and `debouncedQuery` is an input.
- The cache is a map from string to list. Plain-object key quirks such as `__proto__` are not modelled. Every key starts with the search endpoint, so such keys do not occur.
- Regular-expression metacharacters in the query are not modelled. `Highlight` treats the query as literal text, so it matches the source only for queries without metacharacters.
- Unicode case folding is not modelled. `Lower` folds ASCII letters only.
- HighlightMarksMatches: stated for non-empty queries only. For the empty query the split is still modelled, but its shape is not characterised.
- The Jest test harness is not modelled. Some of its cases appear as example lemmas.
