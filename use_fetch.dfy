/** `useFetch(url)`: a module-wide cache from URL to parsed list, and per hook instance the
    triple (`data`, `loading`, `error`) that `fetchData` updates. The network is an input:
    the outcome the request for `url` would have. */
module UseFetch {
  import opened Wrappers
  import opened Breeds

  /** What one request yields: a parsed JSON array, a response that is not ok, or an
      exception thrown by `fetch` or `response.json()` with its message. */
  datatype Outcome = Ok(result: seq<Breed>) | NotOk | Threw(message: string)

  /** The message of the error thrown for a response that is not ok. */
  const NotOkMessage := "Network response was not ok"

  /** The state a hook instance returns. */
  datatype HookState = HookState(data: seq<Breed>, loading: bool, error: Option<string>)

  /** `useState([])`, `useState(true)`, `useState(null)`. */
  const InitialState := HookState([], true, None)

  /** The contents of the module-wide `cache` object. */
  type Entries = map<string, seq<Breed>>

  /** `fetchData` up to `await fetch(url)`: a hit (`cache[url]` holds an array, and every
      array is truthy, the empty one too) shows the cached list and stops loading; a miss
      starts loading. Neither touches `error`. */
  function Begin(s: HookState, entries: Entries, url: string): HookState
  {
    if url in entries then s.(data := entries[url], loading := false) else s.(loading := true)
  }

  /** The state once the request has completed: the `try` stores the list and clears the
      error, the `catch` empties the list and keeps the message, `finally` stops loading. */
  function Settled(outcome: Outcome): HookState
  {
    match outcome
    case Ok(result) => HookState(result, false, None)
    case NotOk => HookState([], false, Some(NotOkMessage))
    case Threw(message) => HookState([], false, Some(message))
  }

  /** The cache once the request has completed: only a successful one is stored. */
  function Stored(entries: Entries, url: string, outcome: Outcome): Entries
  {
    if outcome.Ok? then entries[url := outcome.result] else entries
  }

  /** The hook's state after one whole `fetchData` for `url`. */
  function NextState(s: HookState, entries: Entries, url: string, outcome: Outcome): HookState
  {
    if url in entries then Begin(s, entries, url) else Settled(outcome)
  }

  /** The cache after one whole `fetchData` for `url`. */
  function NextEntries(entries: Entries, url: string, outcome: Outcome): Entries
  {
    if url in entries then entries else Stored(entries, url, outcome)
  }

  /** `const cache = {}`: shared by every hook instance. */
  class ResponseCache {
    var entries: Entries

    constructor ()
      ensures entries == map[]
    {
      entries := map[];
    }
  }

  /** One `useFetch` instance: its three state variables and the shared cache it uses. */
  class FetchHook {
    const cache: ResponseCache
    var data: seq<Breed>
    var loading: bool
    var error: Option<string>

    function State(): HookState
      reads this
    {
      HookState(data, loading, error)
    }

    constructor (cache: ResponseCache)
      ensures this.cache == cache
      ensures State() == InitialState
    {
      this.cache := cache;
      data := [];
      loading := true;
      error := None;
    }

    /** The synchronous part of `fetchData`; `request` says whether `fetch(url)` is called. */
    method Start(url: string) returns (request: bool)
      modifies this
      ensures request == (url !in cache.entries)
      ensures State() == Begin(old(State()), cache.entries, url)
    {
      if url in cache.entries {
        data := cache.entries[url];
        loading := false;
        request := false;
      } else {
        loading := true;
        request := true;
      }
    }

    /** The continuation of `fetchData` once the request for `url` has an outcome. */
    method Finish(url: string, outcome: Outcome)
      modifies this, cache
      ensures State() == Settled(outcome)
      ensures cache.entries == Stored(old(cache.entries), url, outcome)
    {
      match outcome {
        case Ok(result) =>
          cache.entries := cache.entries[url := result];
          data := result;
          error := None;
        case NotOk =>
          error := Some(NotOkMessage);
          data := [];
        case Threw(message) =>
          error := Some(message);
          data := [];
      }
      loading := false;
    }

    /** One run of the effect for `url`; `outcome` is used only when a request is made. */
    method FetchData(url: string, outcome: Outcome) returns (requested: bool)
      modifies this, cache
      ensures requested == (url !in old(cache.entries))
      ensures State() == NextState(old(State()), old(cache.entries), url, outcome)
      ensures cache.entries == NextEntries(old(cache.entries), url, outcome)
    {
      requested := Start(url);
      if requested {
        Finish(url, outcome);
      }
    }
  }

  /** Every completed `fetchData` leaves the hook not loading. */
  lemma FetchEndsNotLoading(s: HookState, entries: Entries, url: string, outcome: Outcome)
    ensures !NextState(s, entries, url, outcome).loading
  {
  }

  /** A hit shows the cached list and stops loading whatever the network would have done;
      the cache and the error stay as they were. */
  lemma CacheHit(s: HookState, entries: Entries, url: string, outcome: Outcome)
    requires url in entries
    ensures NextState(s, entries, url, outcome) == HookState(entries[url], false, s.error)
    ensures NextEntries(entries, url, outcome) == entries
  {
  }

  /** A miss that succeeds stores the list under the URL, shows it and clears the error. */
  lemma MissSucceeds(s: HookState, entries: Entries, url: string, result: seq<Breed>)
    requires url !in entries
    ensures NextState(s, entries, url, Ok(result)) == HookState(result, false, None)
    ensures NextEntries(entries, url, Ok(result)) == entries[url := result]
  {
  }

  /** A miss whose response is not ok reports the fixed message with an empty list and leaves
      the cache alone. */
  lemma MissNotOk(s: HookState, entries: Entries, url: string)
    requires url !in entries
    ensures NextState(s, entries, url, NotOk) == HookState([], false, Some(NotOkMessage))
    ensures NextEntries(entries, url, NotOk) == entries
  {
  }

  /** A miss whose request throws reports the exception's message with an empty list and
      leaves the cache alone. */
  lemma MissThrows(s: HookState, entries: Entries, url: string, message: string)
    requires url !in entries
    ensures NextState(s, entries, url, Threw(message)) == HookState([], false, Some(message))
    ensures NextEntries(entries, url, Threw(message)) == entries
  {
  }

  /** While a miss is loading, the error of an earlier failure is still set. */
  lemma MissKeepsErrorWhileLoading(s: HookState, entries: Entries, url: string)
    requires url !in entries
    ensures Begin(s, entries, url) == s.(loading := true)
  {
  }

  /** The cache only grows: the one key that may be added is `url`, and no existing entry is
      changed or removed. */
  lemma CacheOnlyGrows(entries: Entries, url: string, outcome: Outcome)
    ensures var next := NextEntries(entries, url, outcome);
      && entries.Keys <= next.Keys
      && next.Keys <= entries.Keys + {url}
      && (forall k :: k in entries ==> next[k] == entries[k])
  {
  }

  /** Completing a request changes no entry other than the one for its own URL. */
  lemma StoredKeepsOthers(entries: Entries, url: string, outcome: Outcome)
    ensures var next := Stored(entries, url, outcome);
      && entries.Keys <= next.Keys
      && next.Keys <= entries.Keys + {url}
      && (forall k :: k in entries && k != url ==> next[k] == entries[k])
  {
  }

  /** After a successful fetch of `url`, the next call for `url`, from this or any other hook
      instance, is a hit: it needs no request and shows the stored list. */
  lemma HitAfterSuccess(s: HookState, t: HookState, entries: Entries, url: string,
                        result: seq<Breed>, later: Outcome)
    requires url !in entries
    ensures var e := NextEntries(entries, url, Ok(result));
      && url in e
      && NextState(t, e, url, later) == HookState(result, false, t.error)
      && NextEntries(e, url, later) == e
  {
  }

  /** A call of `fetchData` for a URL with the outcome its request would have. */
  datatype Call = Call(url: string, outcome: Outcome)

  /** The cache after a sequence of calls, from any hook instances, in that order. */
  function EntriesAfter(entries: Entries, calls: seq<Call>): Entries
    decreases |calls|
  {
    if calls == [] then entries
    else
      var last := calls[|calls| - 1];
      NextEntries(EntriesAfter(entries, calls[..|calls| - 1]), last.url, last.outcome)
  }

  /** Call `j` of the sequence makes a network request: its URL is not cached yet. */
  predicate RequestedAt(entries: Entries, calls: seq<Call>, j: nat)
    requires j < |calls|
  {
    calls[j].url !in EntriesAfter(entries, calls[..j])
  }

  /** A key once in the cache stays there for the rest of the sequence. */
  lemma {:induction false} KeysPersist(entries: Entries, calls: seq<Call>, i: nat, j: nat)
    requires i <= j <= |calls|
    ensures EntriesAfter(entries, calls[..i]).Keys <= EntriesAfter(entries, calls[..j]).Keys
    decreases j - i
  {
    if i < j {
      KeysPersist(entries, calls, i, j - 1);
      assert calls[..j][..j - 1] == calls[..j - 1];
      CacheOnlyGrows(EntriesAfter(entries, calls[..j - 1]), calls[j - 1].url, calls[j - 1].outcome);
    }
  }

  /** Once a call for a URL has had a successful outcome, no later call for that URL, from
      any hook instance sharing the cache, makes a network request. */
  lemma NoSecondRequest(entries: Entries, calls: seq<Call>, i: nat, j: nat)
    requires i < j < |calls|
    requires calls[i].outcome.Ok? && calls[j].url == calls[i].url
    ensures !RequestedAt(entries, calls, j)
  {
    assert calls[..i + 1][..i] == calls[..i];
    KeysPersist(entries, calls, i + 1, j);
  }

  /** Two hook instances over one fresh cache: the second asks for a URL the first has
      fetched successfully and gets the same list without a request. */
  method SharedCacheScenario(url: string, result: seq<Breed>, later: Outcome)
    returns (firstRequested: bool, secondRequested: bool, secondData: seq<Breed>)
    ensures firstRequested && !secondRequested && secondData == result
  {
    var cache := new ResponseCache();
    var first := new FetchHook(cache);
    var second := new FetchHook(cache);
    firstRequested := first.FetchData(url, Ok(result));
    secondRequested := second.FetchData(url, later);
    secondData := second.data;
  }
}
