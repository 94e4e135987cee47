/** The input's state as `handleInputChange` and `handleKeyDown` change it: the raw query
    text and the index of the highlighted suggestion (-1 for none). The suggestion list the
    keys act on is the `data` of the fetch hook at the time of the event. */
module Keyboard {
  import opened Breeds

  /** `query` and `highlightedIndex` of the component. */
  datatype UiState = UiState(query: string, highlightedIndex: int)

  /** `useState('')` and `useState(-1)`. */
  const InitialUi := UiState("", -1)

  /** `Math.min` */
  function Min(a: int, b: int): int
  {
    if a <= b then a else b
  }

  /** `Math.max` */
  function Max(a: int, b: int): int
  {
    if a <= b then b else a
  }

  /** `handleInputChange`: the state after the input's text becomes `value`. */
  function OnInputChange(s: UiState, value: string): UiState
  {
    UiState(value, -1)
  }

  /** `handleKeyDown`: the state after the key named `key` is pressed in the input. */
  function OnKeyDown(s: UiState, key: string, suggestions: seq<Breed>): UiState
  {
    if key == "ArrowDown" then
      s.(highlightedIndex := Min(s.highlightedIndex + 1, |suggestions| - 1))
    else if key == "ArrowUp" then
      s.(highlightedIndex := Max(s.highlightedIndex - 1, 0))
    else if key == "Enter" then
      if 0 <= s.highlightedIndex < |suggestions| then
        UiState(suggestions[s.highlightedIndex].name, -1)
      else
        s
    else
      s
  }

  /** The state after `n` presses of the same key while the list stays the same. */
  function Presses(s: UiState, key: string, suggestions: seq<Breed>, n: nat): UiState
    decreases n
  {
    if n == 0 then s else Presses(OnKeyDown(s, key, suggestions), key, suggestions, n - 1)
  }

  /** The index points into the list or is -1 (nothing highlighted). */
  predicate IndexInRange(s: UiState, suggestions: seq<Breed>)
  {
    -1 <= s.highlightedIndex < |suggestions|
  }

  /** The component's two state variables, changed in place by its event handlers. */
  class Controller {
    var query: string
    var highlightedIndex: int

    function State(): UiState
      reads this
    {
      UiState(query, highlightedIndex)
    }

    constructor ()
      ensures State() == InitialUi
    {
      query := "";
      highlightedIndex := -1;
    }

    /** `handleInputChange(e)` with `e.target.value == value`. */
    method HandleInputChange(value: string)
      modifies this
      ensures query == value && highlightedIndex == -1
      ensures State() == OnInputChange(old(State()), value)
    {
      query := value;
      highlightedIndex := -1;
    }

    /** `handleKeyDown(e)` with `e.key == key`, against the hook's current `data`, shown or not. */
    method HandleKeyDown(key: string, suggestions: seq<Breed>)
      modifies this
      ensures State() == OnKeyDown(old(State()), key, suggestions)
    {
      if key == "ArrowDown" {
        highlightedIndex := Min(highlightedIndex + 1, |suggestions| - 1);
      } else if key == "ArrowUp" {
        highlightedIndex := Max(highlightedIndex - 1, 0);
      } else if key == "Enter" {
        if highlightedIndex >= 0 && highlightedIndex < |suggestions| {
          query := suggestions[highlightedIndex].name;
          highlightedIndex := -1;
        }
      }
    }
  }

  /** ArrowDown moves one step down, never past the last suggestion; the query stays. On an
      empty list an index of -1 or more becomes -1; from -1 on a non-empty list it becomes 0. */
  lemma ArrowDownClamps(s: UiState, suggestions: seq<Breed>)
    ensures var r := OnKeyDown(s, "ArrowDown", suggestions);
      && r.query == s.query
      && r.highlightedIndex <= |suggestions| - 1
      && (r.highlightedIndex == s.highlightedIndex + 1 || r.highlightedIndex == |suggestions| - 1)
      && (|suggestions| == 0 && s.highlightedIndex >= -1 ==> r.highlightedIndex == -1)
      && (s.highlightedIndex == -1 && |suggestions| > 0 ==> r.highlightedIndex == 0)
  {
  }

  /** `n` presses of ArrowDown from index `i` reach `min(i + n, len - 1)`. */
  lemma {:induction false} ArrowDownPresses(s: UiState, suggestions: seq<Breed>, n: nat)
    requires n > 0
    decreases n
    ensures Presses(s, "ArrowDown", suggestions, n)
         == s.(highlightedIndex := Min(s.highlightedIndex + n, |suggestions| - 1))
  {
    if n > 1 {
      ArrowDownPresses(OnKeyDown(s, "ArrowDown", suggestions), suggestions, n - 1);
    }
  }

  /** From "nothing highlighted", `n` presses of ArrowDown highlight `min(n - 1, len - 1)`. */
  lemma ArrowDownFromNone(query: string, suggestions: seq<Breed>, n: nat)
    ensures Presses(UiState(query, -1), "ArrowDown", suggestions, n).highlightedIndex
         == Min(n - 1, |suggestions| - 1)
  {
    if n > 0 {
      ArrowDownPresses(UiState(query, -1), suggestions, n);
    }
  }

  /** ArrowUp moves one step up and never below 0, even from -1; the query stays. */
  lemma ArrowUpClamps(s: UiState, suggestions: seq<Breed>)
    ensures var r := OnKeyDown(s, "ArrowUp", suggestions);
      && r.query == s.query
      && r.highlightedIndex >= 0
      && (r.highlightedIndex == s.highlightedIndex - 1 || r.highlightedIndex == 0)
      && (s.highlightedIndex <= 1 ==> r.highlightedIndex == 0)
  {
  }

  /** `n` presses of ArrowUp from index `i` reach `max(i - n, 0)`. */
  lemma {:induction false} ArrowUpPresses(s: UiState, suggestions: seq<Breed>, n: nat)
    requires n > 0
    decreases n
    ensures Presses(s, "ArrowUp", suggestions, n)
         == s.(highlightedIndex := Max(s.highlightedIndex - n, 0))
  {
    if n > 1 {
      ArrowUpPresses(OnKeyDown(s, "ArrowUp", suggestions), suggestions, n - 1);
    }
  }

  /** Enter on a highlighted suggestion puts its name into the input and clears the
      highlight; with nothing valid highlighted it changes nothing. */
  lemma EnterSelects(s: UiState, suggestions: seq<Breed>)
    ensures var r := OnKeyDown(s, "Enter", suggestions);
      && (0 <= s.highlightedIndex < |suggestions| ==>
            r.query == suggestions[s.highlightedIndex].name && r.highlightedIndex == -1)
      && (!(0 <= s.highlightedIndex < |suggestions|) ==> r == s)
  {
  }

  /** Any other key changes neither the query nor the highlight. */
  lemma OtherKeysIgnored(s: UiState, key: string, suggestions: seq<Breed>)
    requires key != "ArrowDown" && key != "ArrowUp" && key != "Enter"
    ensures OnKeyDown(s, key, suggestions) == s
  {
  }

  /** Typing keeps the text exactly and clears any highlight, so the index is in range for
      whatever list comes next. */
  lemma InputChangeResets(s: UiState, value: string, suggestions: seq<Breed>)
    ensures OnInputChange(s, value).query == value
    ensures IndexInRange(OnInputChange(s, value), suggestions)
  {
  }

  /** On a non-empty list every key keeps the index in [-1, len - 1]. */
  lemma KeysKeepIndexInRange(s: UiState, key: string, suggestions: seq<Breed>)
    requires |suggestions| > 0 && IndexInRange(s, suggestions)
    ensures IndexInRange(OnKeyDown(s, key, suggestions), suggestions)
  {
  }

  /** On an empty list, where -1 is the only index in range, ArrowUp sets the index to 0,
      which points at no suggestion. */
  lemma ArrowUpOnEmptyList(s: UiState)
    requires IndexInRange(s, [])
    ensures OnKeyDown(s, "ArrowUp", []).highlightedIndex == 0
    ensures !IndexInRange(OnKeyDown(s, "ArrowUp", []), [])
  {
  }

  /** Typing, pressing ArrowDown `n > 0` times and then Enter puts the name of suggestion
      `min(n - 1, len - 1)` into the input. */
  lemma TypeNavigateSelect(s: UiState, value: string, suggestions: seq<Breed>, n: nat)
    requires |suggestions| > 0 && n > 0
    ensures var k := Min(n - 1, |suggestions| - 1);
      OnKeyDown(Presses(OnInputChange(s, value), "ArrowDown", suggestions, n), "Enter", suggestions)
        == UiState(suggestions[k].name, -1)
  {
    ArrowDownPresses(OnInputChange(s, value), suggestions, n);
  }

  /** The keyboard test: after typing "b" with Bulldog and Beagle listed, ArrowDown and
      Enter leave "Bulldog" in the input. */
  lemma BulldogSelected(s: UiState)
    ensures var list := [Breed("Bulldog"), Breed("Beagle")];
      OnKeyDown(OnKeyDown(OnInputChange(s, "b"), "ArrowDown", list), "Enter", list).query == "Bulldog"
  {
  }
}
