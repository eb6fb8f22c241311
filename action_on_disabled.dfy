/** ActionOnDisabled: the removal signal a spawned entity raises when it is
    disabled, as a multicast delegate field that other classes subscribe to
    with += and unsubscribe from with -=. */
module Signals {
  import opened Common

  /** A delegate target: C# delegates compare equal when they bind the same
      method on the same object. */
  datatype Handler = Handler(target: object, methodName: string)

  /** `list -= h` removes the LAST occurrence of h, or nothing when h is absent. */
  function RemoveLast(list: seq<Handler>, h: Handler): (r: seq<Handler>)
    ensures |r| == (if h in list then |list| - 1 else |list|)
  {
    if list == [] then []
    else if list[|list| - 1] == h then list[..|list| - 1]
    else RemoveLast(list[..|list| - 1], h) + [list[|list| - 1]]
  }

  /** -= takes exactly one copy of h away and leaves every other handler alone. */
  lemma {:induction false} RemoveLastMultiset(list: seq<Handler>, h: Handler)
    ensures multiset(RemoveLast(list, h)) == multiset(list) - multiset{h}
  {
    if list != [] {
      var init, last := list[..|list| - 1], list[|list| - 1];
      assert list == init + [last];
      if last != h {
        RemoveLastMultiset(init, h);
      }
    }
  }

  /** Removing a handler that is absent leaves the list as it was. */
  lemma {:induction false} RemoveLastAbsent(list: seq<Handler>, h: Handler)
    requires h !in list
    ensures RemoveLast(list, h) == list
  {
    if list != [] {
      var init := list[..|list| - 1];
      assert list == init + [list[|list| - 1]];
      RemoveLastAbsent(init, h);
    }
  }

  /** A subscription moved from signal `prev` to signal `next` (either may
      be null): `prev.onDisabled -= h` then `next.onDisabled += h`, and no
      other handler on either list is touched. */
  twostate predicate Swapped(prev: ActionOnDisabled?, next: ActionOnDisabled?, h: Handler)
    reads prev, next
  {
    (prev != null && prev != next ==> prev.onDisabled == RemoveLast(old(prev.onDisabled), h)) &&
    (next != null ==>
      next.onDisabled == (if next == prev then RemoveLast(old(next.onDisabled), h) else old(next.onDisabled)) + [h])
  }

  class ActionOnDisabled {
    /** The invocation list of `onDisabled`; the empty list is a null delegate. */
    var onDisabled: seq<Handler>

    constructor ()
      ensures onDisabled == []
    {
      onDisabled := [];
    }

    /** `onDisabled += h`. */
    method Subscribe(h: Handler)
      modifies this
      ensures onDisabled == old(onDisabled) + [h]
      ensures multiset(onDisabled) == old(multiset(onDisabled)) + multiset{h}
    {
      onDisabled := onDisabled + [h];
    }

    /** `onDisabled -= h`. */
    method Unsubscribe(h: Handler)
      modifies this
      ensures onDisabled == RemoveLast(old(onDisabled), h)
      ensures multiset(onDisabled) == old(multiset(onDisabled)) - multiset{h}
    {
      RemoveLastMultiset(onDisabled, h);
      onDisabled := RemoveLast(onDisabled, h);
    }

    /** OnDisable: returns the handlers it invokes, in invocation order. The
        delegate is invoked (each of its handlers once) exactly when the game
        is not over and some handler is attached. */
    method OnDisable(game: GameState) returns (invoked: seq<Handler>)
      ensures invoked != [] <==> !IsGameOver(game) && onDisabled != []
      ensures invoked != [] ==> invoked == onDisabled
      ensures IsGameOver(game) ==> invoked == []
      ensures forall h :: h in invoked ==> multiset(invoked)[h] == multiset(onDisabled)[h]
    {
      if !IsGameOver(game) && onDisabled != [] {
        invoked := onDisabled;
      } else {
        invoked := [];
      }
    }
  }
}
