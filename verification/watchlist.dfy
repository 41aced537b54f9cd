/**
 The in-memory watchlist of the desktop analyzer: an ordered list of ticker
 symbols. Adding appends the current ticker when it is set and not listed
 yet; removing deletes the first occurrence of a listed ticker. Loading and
 saving the list as JSON is not part of this model.
 */
module Watchlist {
  import opened Values

  /** Whether no ticker appears twice. */
  predicate NoDuplicates(list: seq<string>)
  {
    forall i, j :: 0 <= i < j < |list| ==> list[i] != list[j]
  }

  /**
   `add_to_watchlist`: the current ticker (None before the first analysis)
   is appended when it is truthy, that is set and non-empty, and not listed yet.
   */
  function Add(list: seq<string>, current: Option<string>): (r: seq<string>)
    ensures |list| <= |r| <= |list| + 1
    ensures r[..|list|] == list
    ensures current.Some? && current.value != "" ==> current.value in r
    ensures forall t :: t in r ==> t in list || current == Some(t)
    ensures NoDuplicates(list) ==> NoDuplicates(r)
    ensures r != list <==> current.Some? && current.value != "" && current.value !in list
    ensures r != list ==> r == list + [current.value]
  {
    if current.Some? && current.value != "" && current.value !in list then list + [current.value]
    else list
  }

  /** Position of the first occurrence of t. */
  function FirstIndex(list: seq<string>, t: string): (k: nat)
    requires t in list
    ensures k < |list| && list[k] == t
    ensures forall j :: 0 <= j < k ==> list[j] != t
  {
    if list[0] == t then 0 else 1 + FirstIndex(list[1..], t)
  }

  /** `list.remove(t)`: deletes the first occurrence of a listed ticker. */
  function RemoveFirst(list: seq<string>, t: string): (r: seq<string>)
    requires t in list
    ensures r == list[..FirstIndex(list, t)] + list[FirstIndex(list, t) + 1..]
  {
    if list[0] == t then list[1..]
    else [list[0]] + RemoveFirst(list[1..], t)
  }

  /**
   `remove_from_watchlist`: removes a listed ticker and otherwise leaves
   the list as it is.
   */
  function Remove(list: seq<string>, t: string): (r: seq<string>)
    ensures t !in list ==> r == list
    ensures t in list ==> |r| == |list| - 1 && multiset(r) == multiset(list) - multiset{t}
    ensures forall u :: u != t ==> (u in r <==> u in list)
  {
    if t in list then
      var k := FirstIndex(list, t);
      assert list == list[..k] + [t] + list[k + 1..];
      RemoveFirst(list, t)
    else list
  }

  // ---------------------------------------------------------------- properties

  /** Adding the same ticker twice is the same as adding it once. */
  lemma AddIdempotent(list: seq<string>, current: Option<string>)
    ensures Add(Add(list, current), current) == Add(list, current)
  {
  }

  /** Deleting one position of a list without duplicates leaves no duplicates and no copy of the deleted ticker. */
  lemma DeleteAtKeepsDistinct(list: seq<string>, k: int)
    requires NoDuplicates(list) && 0 <= k < |list|
    ensures NoDuplicates(list[..k] + list[k + 1..])
    ensures list[k] !in list[..k] + list[k + 1..]
  {
    var r := list[..k] + list[k + 1..];
    assert forall i :: 0 <= i < |r| ==> r[i] == list[if i < k then i else i + 1];
  }

  /** Removing keeps the other tickers in their order and keeps the list free of duplicates. */
  lemma RemoveKeepsOrder(list: seq<string>, t: string)
    requires NoDuplicates(list)
    ensures t !in Remove(list, t)
    ensures NoDuplicates(Remove(list, t))
    ensures t in list ==> exists k :: 0 <= k < |list| && list[k] == t && Remove(list, t) == list[..k] + list[k + 1..]
  {
    if t in list {
      var k := FirstIndex(list, t);
      DeleteAtKeepsDistinct(list, k);
      assert Remove(list, t) == RemoveFirst(list, t) == list[..k] + list[k + 1..];
    }
  }

  /** Removing a ticker that was just added restores the list. */
  lemma RemoveUndoesAdd(list: seq<string>, t: string)
    requires t != "" && t !in list
    ensures Remove(Add(list, Some(t)), t) == list
  {
    var l := list + [t];
    assert FirstIndex(l, t) == |list|;
    assert l[..|list|] == list;
  }
}
