/** The single-select lists of the first three wizard steps (agencies, appointment
    types, advisors), as appointment/js/appointment.js drives them: each item carries
    an id and a `selected` class, a hidden input holds the chosen id, and a click either
    clears the selection or moves it to the clicked item. The three lists behave the
    same way and are modelled by one class. */
module Selection {

  import opened Wrappers

  /** The hidden input's new value after clicking an item with id `clicked`. */
  function ToggleValue(current: string, clicked: string): string {
    if current == clicked then "" else clicked
  }

  /** The items' `selected` flags after clicking item `i`. */
  function ToggleFlags(flags: seq<bool>, i: nat, current: string, clicked: string): seq<bool>
    requires i < |flags|
  {
    if current == clicked then flags[i := false] else seq(|flags|, j => j == i)
  }

  predicate UniqueIds(ids: seq<string>) {
    forall j, k :: 0 <= j < k < |ids| ==> ids[j] != ids[k]
  }

  /** The selected items are exactly those whose id is the (non-empty) hidden value. */
  predicate Consistent(flags: seq<bool>, ids: seq<string>, value: string)
    requires |flags| == |ids|
  {
    forall j :: 0 <= j < |ids| ==> (flags[j] <==> value != "" && ids[j] == value)
  }

  /** With unique non-empty ids, every click keeps the flags consistent with the value. */
  lemma ToggleKeepsConsistent(flags: seq<bool>, ids: seq<string>, value: string, i: nat)
    requires |flags| == |ids| && i < |ids|
    requires UniqueIds(ids) && forall j :: 0 <= j < |ids| ==> ids[j] != ""
    requires Consistent(flags, ids, value)
    ensures var flags', value' := ToggleFlags(flags, i, value, ids[i]), ToggleValue(value, ids[i]);
            |flags'| == |ids| && Consistent(flags', ids, value')
  {
    if value == ids[i] {
      var flags' := flags[i := false];
      forall j | 0 <= j < |ids|
        ensures !flags'[j]
      {
        if j != i {
          assert ids[j] != ids[i] by {
            if j < i { assert ids[j] != ids[i]; } else { assert ids[i] != ids[j]; }
          }
        }
      }
    } else {
      forall j | 0 <= j < |ids| && j != i
        ensures ids[j] != ids[i]
      {
        if j < i { assert ids[j] != ids[i]; } else { assert ids[i] != ids[j]; }
      }
    }
  }

  /** Clicking the same item twice from an empty selection returns to an empty selection. */
  lemma ClickTwiceClears(flags: seq<bool>, ids: seq<string>, i: nat)
    requires |flags| == |ids| && i < |ids| && ids[i] != ""
    ensures var v1 := ToggleValue("", ids[i]);
            var f1 := ToggleFlags(flags, i, "", ids[i]);
            v1 == ids[i] && f1[i]
            && ToggleValue(v1, ids[i]) == ""
            && forall j :: 0 <= j < |ids| ==> !ToggleFlags(f1, i, v1, ids[i])[j]
  {
  }

  /** One list of items on the page. */
  class SelectionList {
    /** The items' `data-*-id` attributes, in document order. */
    const ids: seq<string>
    /** Whether each item has the `selected` class. */
    const selected: array<bool>
    /** Whether each item has the `*-selection-processed` marker class. */
    const processed: array<bool>
    /** How many click listeners each item has. */
    const listeners: array<nat>
    /** The hidden input's value; `None` when the page has no such input. */
    var hidden: Option<string>

    ghost predicate Valid()
      reads this, processed, listeners
    {
      && selected.Length == processed.Length == listeners.Length == |ids|
      && selected != processed
      && forall j :: 0 <= j < |ids| ==> listeners[j] == if processed[j] then 1 else 0
    }

    constructor(ids: seq<string>, hidden: Option<string>)
      ensures Valid() && this.ids == ids && this.hidden == hidden
      ensures fresh(selected) && fresh(processed) && fresh(listeners)
      ensures forall j :: 0 <= j < |ids| ==> !selected[j] && !processed[j]
    {
      this.ids := ids;
      this.hidden := hidden;
      selected := new bool[|ids|](_ => false);
      processed := new bool[|ids|](_ => false);
      listeners := new nat[|ids|](_ => 0);
    }

    /** The hidden value as the handlers read it: '' when there is no input. */
    function Current(): string
      reads this
    {
      hidden.GetOr("")
    }

    /** The click handler on item `i`: an item whose id equals the hidden value loses
        its `selected` class and the value becomes ''; otherwise every item loses the
        class, item `i` gains it and the value becomes its id. A missing input is left
        missing. */
    method Toggle(i: nat)
      requires Valid() && i < |ids|
      modifies selected, this`hidden
      ensures Valid()
      ensures selected[..] == ToggleFlags(old(selected[..]), i, old(Current()), ids[i])
      ensures hidden == if old(hidden).None? then None else Some(ToggleValue(old(Current()), ids[i]))
    {
      var current := Current();
      if current == ids[i] {
        selected[i] := false;
        if hidden.Some? {
          hidden := Some("");
        }
      } else {
        for j := 0 to selected.Length
          invariant forall k :: 0 <= k < j ==> !selected[k]
          invariant forall k :: j <= k < selected.Length ==> selected[k] == old(selected[k])
          invariant hidden == old(hidden)
        {
          selected[j] := false;
        }
        selected[i] := true;
        assert selected[..] == seq(|ids|, j => j == i);
        if hidden.Some? {
          hidden := Some(ids[i]);
        }
      }
    }

    /** A click on item `i` runs each of its listeners; with at most one per item it
        toggles once, or does nothing on an item never attached. */
    method Click(i: nat)
      requires Valid() && i < |ids|
      modifies selected, this`hidden
      ensures Valid()
      ensures processed[i] ==> selected[..] == ToggleFlags(old(selected[..]), i, old(Current()), ids[i])
      ensures processed[i] ==> hidden == if old(hidden).None? then None else Some(ToggleValue(old(Current()), ids[i]))
      ensures !processed[i] ==> selected[..] == old(selected[..]) && hidden == old(hidden)
      ensures (hidden.Some? && UniqueIds(ids) && (forall j :: 0 <= j < |ids| ==> ids[j] != "")
               && old(Consistent(selected[..], ids, Current())))
              ==> Consistent(selected[..], ids, Current())
    {
      if listeners[i] == 1 {
        ghost var before, value := selected[..], Current();
        Toggle(i);
        if hidden.Some? && UniqueIds(ids) && (forall j :: 0 <= j < |ids| ==> ids[j] != "")
           && Consistent(before, ids, value) {
          ToggleKeepsConsistent(before, ids, value, i);
        }
      }
    }

    /** `processOnce` over the items of `context`: each item not yet marked is marked,
        gets its click listener, and is preselected when its id equals the hidden value. */
    method Attach(context: seq<nat>)
      requires Valid() && forall k :: 0 <= k < |context| ==> context[k] < |ids|
      modifies processed, listeners, selected
      ensures Valid()
      ensures forall j :: 0 <= j < |ids| ==> processed[j] == (old(processed[j]) || j in context)
      ensures forall j :: 0 <= j < |ids| ==> listeners[j] <= 1
      ensures forall j :: 0 <= j < |ids| ==>
                selected[j] == (old(selected[j]) || (j in context && !old(processed[j]) && ids[j] == Current()))
    {
      for n := 0 to |context|
        invariant Valid()
        invariant forall j :: 0 <= j < |ids| ==> processed[j] == (old(processed[j]) || j in context[..n])
        invariant forall j :: 0 <= j < |ids| ==>
                    selected[j] == (old(selected[j]) || (j in context[..n] && !old(processed[j]) && ids[j] == Current()))
      {
        var item := context[n];
        assert context[..n + 1] == context[..n] + [item];
        if !processed[item] {
          processed[item] := true;
          listeners[item] := listeners[item] + 1;
          if ids[item] == Current() {
            selected[item] := true;
          }
        }
      }
      assert context[..|context|] == context;
    }
  }
}
