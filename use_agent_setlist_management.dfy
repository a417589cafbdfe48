// The local state of src/hooks/useAgentSetlistManagement.ts: the list of
// setlists, the current setlist and its items, and how each successful
// agent call updates them. The agent calls are inputs: `failed` stands for a
// call that threw, after which the state is left as it was.

module AgentSetlistManagement {
  import opened Wrappers
  import opened Lists
  import opened Ordering

  datatype Setlist = Setlist(id: string, name: string, description: Option<string>, createdAt: int, updatedAt: int)

  /** A setlist item as the hook holds it, with the id of its song. */
  datatype Item = Item(id: string, setlistId: string, songId: string, position: int, notes: Option<string>)

  /** The setlists with the one of that id renamed and re-described. */
  function Renamed(setlists: seq<Setlist>, setlistId: string, name: string, description: Option<string>): (r: seq<Setlist>)
    ensures |r| == |setlists|
    ensures forall i :: 0 <= i < |r| && setlists[i].id == setlistId ==>
              r[i] == setlists[i].(name := name, description := description)
    ensures forall i :: 0 <= i < |r| && setlists[i].id != setlistId ==> r[i] == setlists[i]
  {
    seq(|setlists|, i requires 0 <= i < |setlists| =>
      if setlists[i].id == setlistId then setlists[i].(name := name, description := description) else setlists[i])
  }

  function IdIsNot(setlistId: string): Setlist -> bool
  {
    (s: Setlist) => s.id != setlistId
  }

  function ItemIdIsNot(itemId: string): Item -> bool
  {
    (x: Item) => x.id != itemId
  }

  /** Items ordered by position. */
  function ByPosition(a: Item, b: Item): bool
  {
    a.position <= b.position
  }

  /** The items after an add: the old ones and the new one, sorted by position. */
  function WithAdded(items: seq<Item>, item: Item): (r: seq<Item>)
  {
    SortBy(items + [item], ByPosition)
  }

  /** The add gives a list sorted by position holding the old items and the new one. */
  lemma WithAddedSortedPermutation(items: seq<Item>, item: Item)
    ensures SortedBy(WithAdded(items, item), ByPosition)
    ensures multiset(WithAdded(items, item)) == multiset(items) + multiset{item}
  {
    SortBySorted(items + [item], ByPosition);
  }

  /**
   * Adding an item behind every position of a sorted list appends it:
   * the usual case, where the agent gives the new item the next position.
   */
  lemma AddedLastAppends(items: seq<Item>, item: Item)
    requires SortedBy(items, ByPosition)
    requires forall i :: 0 <= i < |items| ==> items[i].position <= item.position
    ensures WithAdded(items, item) == items + [item]
  {
    SortedSortsToItself(items + [item], ByPosition);
  }

  /** The items in the given order, each given its index as position. */
  function Renumbered(items: seq<Item>): (r: seq<Item>)
    ensures |r| == |items|
    ensures forall i :: 0 <= i < |r| ==> r[i] == items[i].(position := i)
  {
    seq(|items|, i requires 0 <= i < |items| => items[i].(position := i))
  }

  /** Renumbered items are sorted by position, and their positions are distinct. */
  lemma RenumberedSorted(items: seq<Item>)
    ensures SortedBy(Renumbered(items), ByPosition)
    ensures forall i, j :: 0 <= i < j < |items| ==> Renumbered(items)[i].position < Renumbered(items)[j].position
  {
  }

  class SetlistManagement {
    var setlists: seq<Setlist>
    var currentSetlist: Option<Setlist>
    var setlistItems: seq<Item>

    constructor ()
      ensures setlists == [] && currentSetlist == None && setlistItems == []
    {
      setlists := [];
      currentSetlist := None;
      setlistItems := [];
    }

    predicate IsCurrent(setlistId: string)
      reads this
    {
      currentSetlist.Some? && currentSetlist.value.id == setlistId
    }

    /**
     * updateSetlist: renames the matching setlist in the list and, when it
     * is the current one, the current setlist too.
     */
    method UpdateSetlist(isInitialized: bool, failed: bool, setlistId: string, name: string, description: Option<string>)
      returns (ok: bool)
      modifies this
      ensures ok <==> isInitialized && !failed
      ensures ok ==> setlists == Renamed(old(setlists), setlistId, name, description)
      ensures ok && old(IsCurrent(setlistId)) ==> currentSetlist == Some(old(currentSetlist).value.(name := name, description := description))
      ensures !ok ==> setlists == old(setlists)
      ensures !(ok && old(IsCurrent(setlistId))) ==> currentSetlist == old(currentSetlist)
      ensures setlistItems == old(setlistItems)
    {
      if !isInitialized || failed {
        return false;
      }
      setlists := Renamed(setlists, setlistId, name, description);
      if IsCurrent(setlistId) {
        currentSetlist := Some(currentSetlist.value.(name := name, description := description));
      }
      ok := true;
    }

    /**
     * deleteSetlist: drops exactly the setlists with that id; deleting the
     * current one clears it and its items.
     */
    method DeleteSetlist(isInitialized: bool, failed: bool, setlistId: string) returns (ok: bool)
      modifies this
      ensures ok <==> isInitialized && !failed
      ensures ok ==> setlists == Filter(old(setlists), IdIsNot(setlistId)) &&
                     forall s :: s in setlists <==> s in old(setlists) && s.id != setlistId
      ensures ok && old(IsCurrent(setlistId)) ==> currentSetlist == None && setlistItems == []
      ensures !(ok && old(IsCurrent(setlistId))) ==> currentSetlist == old(currentSetlist) && setlistItems == old(setlistItems)
      ensures !ok ==> setlists == old(setlists)
    {
      if !isInitialized || failed {
        return false;
      }
      setlists := Filter(setlists, IdIsNot(setlistId));
      if IsCurrent(setlistId) {
        currentSetlist := None;
        setlistItems := [];
      }
      ok := true;
    }

    /**
     * addSongToSetlist: the item the agent created joins the current
     * setlist's items, which are then sorted by position; other setlists'
     * items are not held locally.
     */
    method AddSongToSetlist(isInitialized: bool, failed: bool, setlistId: string, item: Item) returns (ok: bool)
      modifies this
      ensures ok <==> isInitialized && !failed
      ensures ok && old(IsCurrent(setlistId)) ==>
                setlistItems == WithAdded(old(setlistItems), item) &&
                SortedBy(setlistItems, ByPosition) &&
                multiset(setlistItems) == multiset(old(setlistItems)) + multiset{item}
      ensures !(ok && old(IsCurrent(setlistId))) ==> setlistItems == old(setlistItems)
      ensures setlists == old(setlists) && currentSetlist == old(currentSetlist)
    {
      if !isInitialized || failed {
        return false;
      }
      if IsCurrent(setlistId) {
        var newItems := setlistItems + [item];
        newItems := SortBy(newItems, ByPosition);
        WithAddedSortedPermutation(setlistItems, item);
        setlistItems := newItems;
      }
      ok := true;
    }

    /** removeSongFromSetlist: drops exactly the items with that id from the current setlist's items. */
    method RemoveSongFromSetlist(isInitialized: bool, failed: bool, setlistId: string, itemId: string) returns (ok: bool)
      modifies this
      ensures ok <==> isInitialized && !failed
      ensures ok && old(IsCurrent(setlistId)) ==>
                setlistItems == Filter(old(setlistItems), ItemIdIsNot(itemId)) &&
                forall x :: x in setlistItems <==> x in old(setlistItems) && x.id != itemId
      ensures !(ok && old(IsCurrent(setlistId))) ==> setlistItems == old(setlistItems)
      ensures setlists == old(setlists) && currentSetlist == old(currentSetlist)
    {
      if !isInitialized || failed {
        return false;
      }
      if IsCurrent(setlistId) {
        setlistItems := Filter(setlistItems, ItemIdIsNot(itemId));
      }
      ok := true;
    }

    /** reorderSetlistSongs: the current setlist's items become the given ones, numbered by index. */
    method ReorderSetlistSongs(isInitialized: bool, failed: bool, setlistId: string, items: seq<Item>) returns (ok: bool)
      modifies this
      ensures ok <==> isInitialized && !failed
      ensures ok && old(IsCurrent(setlistId)) ==>
                setlistItems == Renumbered(items) && SortedBy(setlistItems, ByPosition)
      ensures !(ok && old(IsCurrent(setlistId))) ==> setlistItems == old(setlistItems)
      ensures setlists == old(setlists) && currentSetlist == old(currentSetlist)
    {
      if !isInitialized || failed {
        return false;
      }
      if IsCurrent(setlistId) {
        RenumberedSorted(items);
        setlistItems := Renumbered(items);
      }
      ok := true;
    }
  }
}
