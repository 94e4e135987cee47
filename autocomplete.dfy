/** The component as a whole: the fetch hook's state feeds the rendered panel. */
module AutoComplete {
  import opened Wrappers
  import opened Breeds
  import opened Keyboard
  import opened Render
  import opened UseFetch

  /** Before the first fetch completes, the panel shows "Loading..." and nothing else. */
  lemma FirstRenderLoads()
    ensures RenderSuggestions(InitialState.loading, InitialState.error, InitialState.data,
                              "", InitialUi.query, InitialUi.highlightedIndex)
         == Panel(Some(LoadingText), None, None, None)
  {
  }

  /** After a failed request, the request for a next, uncached debounced query shows
      "Loading..." together with the earlier error, since neither a miss nor a hit clears it. */
  lemma StaleErrorWhileLoading(s: HookState, entries: Entries, first: string, next: string,
                               ui: UiState)
    requires SearchUrl(first) !in entries && SearchUrl(next) !in entries
    ensures var failed := NextState(s, entries, SearchUrl(first), NotOk);
      var loading := Begin(failed, NextEntries(entries, SearchUrl(first), NotOk), SearchUrl(next));
      RenderSuggestions(loading.loading, loading.error, loading.data, next, ui.query, ui.highlightedIndex)
        == Panel(Some(LoadingText), Some(NotOkMessage), None, None)
  {
  }

  /** After a failed request, a hit on a cached URL stops loading but keeps the old error,
      and that error hides the cached list. */
  lemma HitAfterFailureHidesList(s: HookState, entries: Entries, failing: string, cached: string,
                                 later: Outcome, debouncedQuery: string, ui: UiState)
    requires failing !in entries && cached in entries && |entries[cached]| > 0
    ensures var failed := NextState(s, entries, failing, NotOk);
      var hit := NextState(failed, NextEntries(entries, failing, NotOk), cached, later);
      && hit.data == entries[cached]
      && RenderSuggestions(hit.loading, hit.error, hit.data, debouncedQuery, ui.query, ui.highlightedIndex)
           == Panel(None, Some(NotOkMessage), None, None)
  {
  }

  /** The index is reset only by typing and by Enter, not when the list changes. Pressing
      ArrowDown `n` times on an old list, then receiving a shorter list, leaves an index that
      points at no suggestion: no row is tinted and Enter does nothing. */
  lemma StaleIndex(query: string, oldList: seq<Breed>, newList: seq<Breed>, n: nat)
    requires 0 < n <= |oldList| && |newList| < n
    ensures var s := Presses(UiState(query, -1), "ArrowDown", oldList, n);
      && s.highlightedIndex == n - 1
      && !IndexInRange(s, newList)
      && OnKeyDown(s, "Enter", newList) == s
      && (forall i :: 0 <= i < |newList| ==>
            ListItems(newList, query, s.highlightedIndex)[i].background == Plain)
  {
    ArrowDownPresses(UiState(query, -1), oldList, n);
  }

  /** The same stale index against a new list of at least `n` suggestions: row `n - 1` is
      tinted and Enter selects it, although the user never moved to it in the new list. */
  lemma StaleIndexLonger(query: string, oldList: seq<Breed>, newList: seq<Breed>, n: nat)
    requires 0 < n <= |oldList| && n <= |newList|
    ensures var s := Presses(UiState(query, -1), "ArrowDown", oldList, n);
      && s.highlightedIndex == n - 1
      && ListItems(newList, query, s.highlightedIndex)[n - 1].background == Tinted
      && OnKeyDown(s, "Enter", newList) == UiState(newList[n - 1].name, -1)
  {
    ArrowDownPresses(UiState(query, -1), oldList, n);
  }

  /** While a miss is loading, the list is hidden but `data` still holds the old list, and
      the keys act on it: ArrowDown then Enter puts the first hidden name into the input. */
  lemma EnterWhileLoadingSelectsHidden(s: HookState, entries: Entries, url: string,
                                       debouncedQuery: string, query: string)
    requires url !in entries && |s.data| > 0
    ensures var loading := Begin(s, entries, url);
      && RenderSuggestions(loading.loading, loading.error, loading.data, debouncedQuery, query, -1).list.None?
      && OnKeyDown(OnKeyDown(UiState(query, -1), "ArrowDown", loading.data), "Enter", loading.data)
           == UiState(s.data[0].name, -1)
  {
  }
}
