/** What the component renders below the input, chosen from the fetch hook's `loading`,
    `error` and `data`, the debounced query, the raw query and the highlighted index; and the
    URL it hands to the fetch hook. */
module Render {
  import opened Wrappers
  import opened Breeds
  import opened Highlight

  /** The search endpoint; the debounced query is appended to it as it is, unencoded. */
  const SearchEndpoint := "https://api.thedogapi.com/v1/breeds/search?q="

  /** The URL passed to `useFetch`. */
  function SearchUrl(debouncedQuery: string): (url: string)
    ensures |url| == |SearchEndpoint| + |debouncedQuery|
    ensures url[..|SearchEndpoint|] == SearchEndpoint
    ensures url[|SearchEndpoint|..] == debouncedQuery
  {
    SearchEndpoint + debouncedQuery
  }

  /** Different debounced queries give different URLs, so each query has its own cache entry. */
  lemma SearchUrlInjective(a: string, b: string)
    requires SearchUrl(a) == SearchUrl(b)
    ensures a == b
  {
  }

  /** The URL the fetch test expects for "bulldog". */
  lemma SearchUrlExample()
    ensures SearchUrl("bulldog") == "https://api.thedogapi.com/v1/breeds/search?q=bulldog"
  {
  }

  /** Background colours of a list item. */
  const Tinted := "#ddd"
  const Plain := "#fff"

  /** `ListItem`'s style rule: tinted exactly at the highlighted index. */
  function Background(index: int, highlightedIndex: int): string
  {
    if index == highlightedIndex then Tinted else Plain
  }

  /** One `<li>`: its background and its highlighted content. */
  datatype ListItem = ListItem(background: string, content: seq<Segment>)

  /** Every name of the list highlighted for the query reads back as that name. */
  lemma HighlightAllJoinBack(suggestions: seq<Breed>, query: string)
    ensures forall i :: 0 <= i < |suggestions| ==>
      Text(HighlightSuggestion(suggestions[i].name, query)) == suggestions[i].name
  {
    forall i | 0 <= i < |suggestions| {
      HighlightJoinsBack(suggestions[i].name, query);
    }
  }

  /** `filteredSuggestions.map(...)` into `ListItem`s; the contents are highlighted for the raw
      query, not the debounced one. */
  function ListItems(suggestions: seq<Breed>, query: string, highlightedIndex: int): (items: seq<ListItem>)
    ensures |items| == |suggestions|
    ensures forall i :: 0 <= i < |items| ==> items[i].content == HighlightSuggestion(suggestions[i].name, query)
    ensures forall i :: 0 <= i < |items| ==> Text(items[i].content) == suggestions[i].name
    ensures forall i :: 0 <= i < |items| ==> (items[i].background == Tinted <==> i == highlightedIndex)
    ensures forall i, j ::
      0 <= i < |items| && 0 <= j < |items| && items[i].background == Tinted && items[j].background == Tinted
      ==> i == j
  {
    HighlightAllJoinBack(suggestions, query);
    seq(|suggestions|, i requires 0 <= i < |suggestions| =>
      ListItem(Background(i, highlightedIndex), HighlightSuggestion(suggestions[i].name, query)))
  }

  /** The children of the suggestions `<div>`, each present or absent. */
  datatype Panel = Panel(
    loading: Option<string>,
    error: Option<string>,
    noResults: Option<string>,
    list: Option<seq<ListItem>>)

  /** JavaScript truthiness of `error: string | null`: null and "" render nothing. */
  predicate Truthy(error: Option<string>)
  {
    error.Some? && error.value != ""
  }

  const LoadingText := "Loading..."

  function NoResultsText(debouncedQuery: string): string
  {
    "No results found for \"" + debouncedQuery + "\""
  }

  /** The four conditional children, each decided on its own. */
  function RenderSuggestions(loading: bool, error: Option<string>, suggestions: seq<Breed>,
                             debouncedQuery: string, query: string, highlightedIndex: int): (panel: Panel)
    ensures panel.loading.Some? <==> loading
    ensures panel.loading.Some? ==> panel.loading.value == LoadingText
    ensures panel.error.Some? <==> Truthy(error)
    ensures panel.error.Some? ==> panel.error == error
    ensures panel.noResults.Some? <==>
      !loading && !Truthy(error) && |suggestions| == 0 && debouncedQuery != ""
    ensures panel.noResults.Some? ==> panel.noResults.value == NoResultsText(debouncedQuery)
    ensures panel.list.Some? <==> !loading && !Truthy(error) && |suggestions| > 0
    ensures panel.list.Some? ==> panel.list.value == ListItems(suggestions, query, highlightedIndex)
    ensures !(panel.noResults.Some? && panel.list.Some?)
    ensures loading ==> panel.list.None? && panel.noResults.None?
    ensures Truthy(error) ==> panel.list.None? && panel.noResults.None?
  {
    var ok := !loading && !Truthy(error);
    Panel(
      if loading then Some(LoadingText) else None,
      if Truthy(error) then error else None,
      if ok && |suggestions| == 0 && debouncedQuery != "" then Some(NoResultsText(debouncedQuery)) else None,
      if ok && |suggestions| > 0 then Some(ListItems(suggestions, query, highlightedIndex)) else None)
  }

  /** The loading test: only "Loading..." is shown while loading with no error. */
  lemma RenderLoadingExample(suggestions: seq<Breed>, debouncedQuery: string, query: string, i: int)
    ensures RenderSuggestions(true, None, suggestions, debouncedQuery, query, i)
         == Panel(Some("Loading..."), None, None, None)
  {
  }

  /** The error test: the error message alone is shown. */
  lemma RenderErrorExample(debouncedQuery: string, query: string, i: int)
    ensures RenderSuggestions(false, Some("Failed to fetch"), [], debouncedQuery, query, i)
         == Panel(None, Some("Failed to fetch"), None, None)
  {
  }

  /** The no-results test for the debounced query "xyz". */
  lemma RenderNoResultsExample(query: string, i: int)
    ensures RenderSuggestions(false, None, [], "xyz", query, i)
         == Panel(None, None, Some("No results found for \"xyz\""), None)
  {
    assert NoResultsText("xyz") == "No results found for \"xyz\"";
  }

  /** Loading and error are rendered independently: both show at once when both are set. */
  lemma LoadingWithError(message: string, suggestions: seq<Breed>, debouncedQuery: string, query: string, i: int)
    requires message != ""
    ensures RenderSuggestions(true, Some(message), suggestions, debouncedQuery, query, i)
         == Panel(Some(LoadingText), Some(message), None, None)
  {
  }

  /** An empty error message is falsy: it shows nothing and does not hide the list. */
  lemma EmptyErrorIsNoError(loading: bool, suggestions: seq<Breed>, debouncedQuery: string, query: string, i: int)
    ensures RenderSuggestions(loading, Some(""), suggestions, debouncedQuery, query, i)
         == RenderSuggestions(loading, None, suggestions, debouncedQuery, query, i)
  {
  }

  /** With the debounced query empty and nothing found, nothing at all is shown. */
  lemma EmptyQueryShowsNothing(query: string, i: int)
    ensures RenderSuggestions(false, None, [], "", query, i) == Panel(None, None, None, None)
  {
  }
}
