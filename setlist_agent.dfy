// The position arithmetic of src/agents/SetlistAgent.ts over the
// `setlists` and `setlist_items` tables, here two maps from row id to row:
// appending after the highest position or inserting at a given one after
// shifting the items at or above it, removing an item and closing the gap,
// reordering by list index, and deleting a setlist with its items. Every
// query filters on the setlist id, so other setlists' items never move.
// Generated row ids and timestamps are parameters.

module SetlistAgent {
  import opened Wrappers

  datatype Item = Item(setlistId: string, songId: string, position: int, notes: Option<string>, updatedAt: int)

  datatype SetlistRow = SetlistRow(name: string, description: Option<string>, createdAt: int, updatedAt: int)

  /** The ids of the items of one setlist (`.eq('setlist_id', setlistId)`). */
  function ItemsOf(items: map<string, Item>, setlistId: string): (r: set<string>)
    ensures forall k :: k in r <==> k in items && items[k].setlistId == setlistId
  {
    set k | k in items && items[k].setlistId == setlistId
  }

  /** A setlist's positions are 0..n-1, each used once, for its n items. */
  predicate Contiguous(items: map<string, Item>, setlistId: string)
  {
    (forall k :: k in ItemsOf(items, setlistId) ==> 0 <= items[k].position < |ItemsOf(items, setlistId)|) &&
    (forall a, b :: a in ItemsOf(items, setlistId) && b in ItemsOf(items, setlistId) && a != b ==>
       items[a].position != items[b].position)
  }

  /**
   * `update({position: position + delta}).eq('setlist_id', s).gte('position', from)`:
   * the items of that setlist at or above `from` move by `delta`.
   */
  function Shifted(items: map<string, Item>, setlistId: string, from: int, delta: int): (r: map<string, Item>)
    ensures r.Keys == items.Keys
    ensures forall k :: k in items ==> r[k].setlistId == items[k].setlistId && r[k].songId == items[k].songId
    ensures forall k :: k in items && (items[k].setlistId != setlistId || items[k].position < from) ==> r[k] == items[k]
  {
    map k | k in items ::
      if items[k].setlistId == setlistId && items[k].position >= from
      then items[k].(position := items[k].position + delta)
      else items[k]
  }

  lemma ShiftedItemsOf(items: map<string, Item>, setlistId: string, from: int, delta: int, other: string)
    ensures ItemsOf(Shifted(items, setlistId, from, delta), other) == ItemsOf(items, other)
  {
  }

  /** `m` is the highest position among the setlist's items. */
  ghost predicate IsHighest(items: map<string, Item>, setlistId: string, m: int)
  {
    (exists k :: k in ItemsOf(items, setlistId) && items[k].position == m) &&
    (forall k :: k in ItemsOf(items, setlistId) ==> items[k].position <= m)
  }

  /** A scan of all the setlist's items that kept the largest position found the highest one. */
  lemma ScanFindsHighest(items: map<string, Item>, setlistId: string, all: set<string>, top: string, m: int)
    requires all == ItemsOf(items, setlistId) && top in all && items[top].position == m
    requires forall k :: k in all ==> items[k].position <= m
    ensures IsHighest(items, setlistId, m)
  {
  }

  /** The position an item is added at: the given one, else highest + 1, else 0. */
  ghost predicate NewPosition(items: map<string, Item>, setlistId: string, position: Option<int>, p: int)
  {
    if position.Some? then p == position.value
    else if ItemsOf(items, setlistId) == {} then p == 0
    else IsHighest(items, setlistId, p - 1)
  }

  /** The last index of `k` in `ids`, or -1. */
  function LastIndexOf(ids: seq<string>, k: string): (r: int)
    ensures -1 <= r < |ids|
    ensures r == -1 <==> k !in ids
    ensures r >= 0 ==> ids[r] == k && forall j :: r < j < |ids| ==> ids[j] != k
  {
    if |ids| == 0 then -1
    else if ids[|ids| - 1] == k then |ids| - 1
    else LastIndexOf(ids[..|ids| - 1], k)
  }

  /** The table after the reorder loop: each listed item at its (last) index. */
  function Reordered(items: map<string, Item>, ids: seq<string>, now: int): (r: map<string, Item>)
    ensures r.Keys == items.Keys
    ensures forall k :: k in items ==> r[k].setlistId == items[k].setlistId
    ensures forall k :: k in items && k !in ids ==> r[k] == items[k]
  {
    map k | k in items :: if k in ids then items[k].(position := LastIndexOf(ids, k), updatedAt := now) else items[k]
  }

  predicate Distinct(ids: seq<string>)
  {
    forall i, j :: 0 <= i < j < |ids| ==> ids[i] != ids[j]
  }

  lemma {:induction false} DistinctCardinality(ids: seq<string>)
    requires Distinct(ids)
    ensures |set x | x in ids| == |ids|
  {
    if |ids| > 0 {
      var init := ids[..|ids| - 1];
      assert Distinct(init);
      DistinctCardinality(init);
      assert (set x | x in ids) == (set x | x in init) + {ids[|ids| - 1]};
      assert ids[|ids| - 1] !in init;
    }
  }

  /** Appending at highest + 1 (or 0) keeps a contiguous setlist contiguous. */
  lemma AppendKeepsContiguous(items: map<string, Item>, setlistId: string, newId: string, item: Item, p: int)
    requires Contiguous(items, setlistId) && newId !in items
    requires NewPosition(items, setlistId, None, p)
    requires item.setlistId == setlistId && item.position == p
    ensures Contiguous(items[newId := item], setlistId)
  {
    AppendMembers(items, setlistId, newId, item);
    AppendAbove(items, setlistId, p);
    AppendDistinct(items, setlistId, newId, item, p);
  }

  /** The appended item's position is new, so positions stay distinct. */
  lemma AppendDistinct(items: map<string, Item>, setlistId: string, newId: string, item: Item, p: int)
    requires Contiguous(items, setlistId) && newId !in items && item.position == p
    requires forall k :: k in ItemsOf(items, setlistId) ==> items[k].position < p
    ensures var after := items[newId := item];
            forall a, b :: a in ItemsOf(items, setlistId) + {newId} && b in ItemsOf(items, setlistId) + {newId} && a != b ==>
              after[a].position != after[b].position
  {
    var before := ItemsOf(items, setlistId);
    var after := items[newId := item];
    forall a, b | a in before + {newId} && b in before + {newId} && a != b
      ensures after[a].position != after[b].position
    {
      if a != newId && b != newId {
        assert items[a].position != items[b].position;
      }
    }
  }

  /** After the append the setlist holds its old items and the new one. */
  lemma AppendMembers(items: map<string, Item>, setlistId: string, newId: string, item: Item)
    requires newId !in items && item.setlistId == setlistId
    ensures ItemsOf(items[newId := item], setlistId) == ItemsOf(items, setlistId) + {newId}
    ensures |ItemsOf(items[newId := item], setlistId)| == |ItemsOf(items, setlistId)| + 1
  {
  }

  /** The appended position is above every position of the setlist and at most its size. */
  lemma AppendAbove(items: map<string, Item>, setlistId: string, p: int)
    requires Contiguous(items, setlistId)
    requires NewPosition(items, setlistId, None, p)
    ensures 0 <= p <= |ItemsOf(items, setlistId)|
    ensures forall k :: k in ItemsOf(items, setlistId) ==> items[k].position < p
  {
    if ItemsOf(items, setlistId) != {} {
      var top :| top in ItemsOf(items, setlistId) && items[top].position == p - 1;
    }
  }

  /**
   * Inserting at p with 0 <= p <= n after shifting the items at or above p
   * keeps a contiguous setlist contiguous.
   */
  lemma InsertAtKeepsContiguous(items: map<string, Item>, setlistId: string, newId: string, item: Item, p: int)
    requires Contiguous(items, setlistId) && newId !in items
    requires 0 <= p <= |ItemsOf(items, setlistId)|
    requires item.setlistId == setlistId && item.position == p
    ensures Contiguous(Shifted(items, setlistId, p, 1)[newId := item], setlistId)
  {
    InsertAtMembers(items, setlistId, newId, item, p);
    InsertAtRange(items, setlistId, newId, item, p);
    InsertAtDistinct(items, setlistId, newId, item, p);
  }

  /** After the insert the setlist holds its old items and the new one. */
  lemma InsertAtMembers(items: map<string, Item>, setlistId: string, newId: string, item: Item, p: int)
    requires newId !in items && item.setlistId == setlistId
    ensures ItemsOf(Shifted(items, setlistId, p, 1)[newId := item], setlistId) == ItemsOf(items, setlistId) + {newId}
    ensures |ItemsOf(Shifted(items, setlistId, p, 1)[newId := item], setlistId)| == |ItemsOf(items, setlistId)| + 1
  {
    ShiftedItemsOf(items, setlistId, p, 1, setlistId);
  }

  lemma InsertAtRange(items: map<string, Item>, setlistId: string, newId: string, item: Item, p: int)
    requires Contiguous(items, setlistId) && newId !in items
    requires 0 <= p <= |ItemsOf(items, setlistId)|
    requires item.setlistId == setlistId && item.position == p
    requires |ItemsOf(Shifted(items, setlistId, p, 1)[newId := item], setlistId)| == |ItemsOf(items, setlistId)| + 1
    ensures var after := Shifted(items, setlistId, p, 1)[newId := item];
            forall k :: k in ItemsOf(items, setlistId) + {newId} ==> 0 <= after[k].position <= |ItemsOf(items, setlistId)|
  {
  }

  lemma InsertAtDistinct(items: map<string, Item>, setlistId: string, newId: string, item: Item, p: int)
    requires Contiguous(items, setlistId) && newId !in items
    requires item.setlistId == setlistId && item.position == p
    ensures var after := Shifted(items, setlistId, p, 1)[newId := item];
            forall a, b :: a in ItemsOf(items, setlistId) + {newId} && b in ItemsOf(items, setlistId) + {newId} && a != b ==>
              after[a].position != after[b].position
  {
    var after := Shifted(items, setlistId, p, 1)[newId := item];
    var before := ItemsOf(items, setlistId);
    forall a, b | a in before + {newId} && b in before + {newId} && a != b
      ensures after[a].position != after[b].position
    {
      if a != newId && b != newId {
        assert items[a].position != items[b].position;
      }
    }
  }

  /** Removing an item and moving the higher ones down keeps its setlist contiguous. */
  lemma RemoveKeepsContiguous(items: map<string, Item>, setlistId: string, itemId: string)
    requires itemId in items && items[itemId].setlistId == setlistId
    requires Contiguous(items, setlistId)
    ensures Contiguous(Shifted(items - {itemId}, setlistId, items[itemId].position + 1, -1), setlistId)
  {
    RemoveMembers(items, setlistId, itemId);
    RemoveRange(items, setlistId, itemId);
    RemoveDistinct(items, setlistId, itemId);
  }

  /** After the removal the setlist holds its other items. */
  lemma RemoveMembers(items: map<string, Item>, setlistId: string, itemId: string)
    requires itemId in items && items[itemId].setlistId == setlistId
    ensures var after := Shifted(items - {itemId}, setlistId, items[itemId].position + 1, -1);
            ItemsOf(after, setlistId) == ItemsOf(items, setlistId) - {itemId} &&
            |ItemsOf(after, setlistId)| == |ItemsOf(items, setlistId)| - 1
  {
    var rest := items - {itemId};
    ShiftedItemsOf(rest, setlistId, items[itemId].position + 1, -1, setlistId);
    assert ItemsOf(items, setlistId) == ItemsOf(rest, setlistId) + {itemId};
  }

  lemma RemoveRange(items: map<string, Item>, setlistId: string, itemId: string)
    requires itemId in items && items[itemId].setlistId == setlistId
    requires Contiguous(items, setlistId)
    ensures var after := Shifted(items - {itemId}, setlistId, items[itemId].position + 1, -1);
            forall k :: k in ItemsOf(items, setlistId) - {itemId} ==>
              0 <= after[k].position < |ItemsOf(items, setlistId)| - 1
  {
    var after := Shifted(items - {itemId}, setlistId, items[itemId].position + 1, -1);
    forall k | k in ItemsOf(items, setlistId) - {itemId}
      ensures 0 <= after[k].position < |ItemsOf(items, setlistId)| - 1
    {
      assert items[k].position != items[itemId].position;
    }
  }

  lemma RemoveDistinct(items: map<string, Item>, setlistId: string, itemId: string)
    requires itemId in items && items[itemId].setlistId == setlistId
    requires Contiguous(items, setlistId)
    ensures var after := Shifted(items - {itemId}, setlistId, items[itemId].position + 1, -1);
            forall a, b :: a in ItemsOf(items, setlistId) - {itemId} && b in ItemsOf(items, setlistId) - {itemId} && a != b ==>
              after[a].position != after[b].position
  {
    var after := Shifted(items - {itemId}, setlistId, items[itemId].position + 1, -1);
    var removedAt := items[itemId].position;
    forall a, b | a in ItemsOf(items, setlistId) - {itemId} && b in ItemsOf(items, setlistId) - {itemId} && a != b
      ensures after[a].position != after[b].position
    {
      assert items[a].position != items[b].position;
      assert items[a].position != removedAt && items[b].position != removedAt;
    }
  }

  lemma {:induction false} DistinctLastIndex(ids: seq<string>, i: int)
    requires Distinct(ids) && 0 <= i < |ids|
    ensures LastIndexOf(ids, ids[i]) == i
  {
  }

  /**
   * Reordering by a duplicate-free list of exactly the setlist's items
   * gives position i to the i-th item, so the setlist is contiguous.
   */
  lemma ReorderedContiguous(items: map<string, Item>, setlistId: string, ids: seq<string>, now: int)
    requires Distinct(ids)
    requires forall k :: k in ids <==> k in ItemsOf(items, setlistId)
    ensures forall i :: 0 <= i < |ids| ==> Reordered(items, ids, now)[ids[i]].position == i
    ensures Contiguous(Reordered(items, ids, now), setlistId)
  {
    var r := Reordered(items, ids, now);
    forall i | 0 <= i < |ids|
      ensures r[ids[i]].position == i
    {
      assert ids[i] in ids;
      DistinctLastIndex(ids, i);
    }
    assert ItemsOf(r, setlistId) == ItemsOf(items, setlistId);
    assert ItemsOf(items, setlistId) == set x | x in ids;
    DistinctCardinality(ids);
  }

  class SetlistStore {
    var setlists: map<string, SetlistRow>
    var items: map<string, Item>

    constructor ()
      ensures setlists == map[] && items == map[]
    {
      setlists := map[];
      items := map[];
    }

    /** The highest position in a setlist (`order('position', desc).limit(1)`), or none. */
    method HighestPosition(setlistId: string) returns (highest: Option<int>)
      ensures highest.None? <==> ItemsOf(items, setlistId) == {}
      ensures highest.Some? ==> IsHighest(items, setlistId, highest.value)
    {
      var all := ItemsOf(items, setlistId);
      var pending := all;
      var found, best := false, 0;
      ghost var topItem: string := "";
      while pending != {}
        invariant pending <= all
        invariant found <==> pending != all
        invariant found ==> topItem in all && items[topItem].position == best
        invariant found ==> forall k :: k in all && k !in pending ==> items[k].position <= best
        decreases |pending|
      {
        var k :| k in pending;
        if !found || items[k].position > best {
          found, best, topItem := true, items[k].position, k;
        }
        pending := pending - {k};
      }
      if found {
        ScanFindsHighest(items, setlistId, all, topItem, best);
        highest := Some(best);
      } else {
        highest := None;
      }
    }

    /**
     * addSongToSetlist: the new item goes at the given position after the
     * items at or above it move up one, or, without a position, after the
     * highest one (0 for an empty setlist); the setlist row's update time
     * is refreshed. `freshId` is the id the database gives the new row.
     * The three flags say which request returns an error: the position
     * query (nothing has changed), the shift (nothing has changed) or the
     * insert (the shift has already happened). Each throws, and None
     * stands for that.
     */
    method AddSong(setlistId: string, songId: string, position: Option<int>, notes: Option<string>, freshId: string, now: int,
                   queryFails: bool, shiftFails: bool, insertFails: bool)
      returns (added: Option<Item>)
      requires freshId !in items
      modifies this
      ensures added.None? <==> queryFails || (position.Some? && shiftFails) || insertFails
      ensures queryFails || (position.Some? && shiftFails) ==> items == old(items) && setlists == old(setlists)
      ensures !queryFails && !(position.Some? && shiftFails) && insertFails ==>
                setlists == old(setlists) &&
                items == if position.Some? then Shifted(old(items), setlistId, position.value, 1) else old(items)
      ensures added.Some? ==>
                var item := added.value;
                item.setlistId == setlistId && item.songId == songId && item.notes == notes && item.updatedAt == now &&
                NewPosition(old(items), setlistId, position, item.position) &&
                (position.None? ==> items == old(items)[freshId := item]) &&
                (position.Some? ==> items == Shifted(old(items), setlistId, position.value, 1)[freshId := item]) &&
                (setlistId in old(setlists) ==> setlists == old(setlists)[setlistId := old(setlists)[setlistId].(updatedAt := now)]) &&
                (setlistId !in old(setlists) ==> setlists == old(setlists))
      ensures forall k :: k in old(items) && old(items)[k].setlistId != setlistId ==> items[k] == old(items)[k]
    {
      if queryFails {
        return None;
      }
      var highest := HighestPosition(setlistId);
      var p := if highest.Some? then highest.value + 1 else 0;
      if position.Some? {
        p := position.value;
        if shiftFails {
          return None;
        }
        items := Shifted(items, setlistId, position.value, 1);
      }
      if insertFails {
        return None;
      }
      var item := Item(setlistId, songId, p, notes, now);
      items := items[freshId := item];
      if setlistId in setlists {
        setlists := setlists[setlistId := setlists[setlistId].(updatedAt := now)];
      }
      added := Some(item);
    }

    /**
     * removeSongFromSetlist: an unknown item fails the `.single()` lookup
     * with nothing changed; otherwise the item is deleted and the items of
     * `setlistId` above its position move down one. A failed delete
     * changes nothing; a failed shift comes after the delete, so the item
     * is gone and the others have not moved.
     */
    method RemoveSong(setlistId: string, itemId: string, now: int, deleteFails: bool, shiftFails: bool)
      returns (removed: bool)
      modifies this
      ensures removed <==> itemId in old(items) && !deleteFails && !shiftFails
      ensures itemId !in old(items) || deleteFails ==> items == old(items) && setlists == old(setlists)
      ensures itemId in old(items) && !deleteFails && shiftFails ==>
                items == old(items) - {itemId} && setlists == old(setlists)
      ensures removed ==> items == Shifted(old(items) - {itemId}, setlistId, old(items)[itemId].position + 1, -1)
      ensures removed && setlistId in old(setlists) ==> setlists == old(setlists)[setlistId := old(setlists)[setlistId].(updatedAt := now)]
      ensures removed && setlistId !in old(setlists) ==> setlists == old(setlists)
    {
      if itemId !in items || deleteFails {
        return false;
      }
      var p := items[itemId].position;
      items := items - {itemId};
      if shiftFails {
        return false;
      }
      items := Shifted(items, setlistId, p + 1, -1);
      if setlistId in setlists {
        setlists := setlists[setlistId := setlists[setlistId].(updatedAt := now)];
      }
      removed := true;
    }

    /**
     * reorderSetlistSongs: the i-th listed item gets position i; ids with
     * no row update nothing, and a later mention of an id wins. When the
     * update of entry `failsAt` returns an error the loop throws there:
     * the entries before it are updated, the rest and the setlist's
     * update time are not.
     */
    method ReorderSongs(setlistId: string, ids: seq<string>, now: int, failsAt: Option<nat>) returns (done: bool)
      modifies this
      ensures done <==> failsAt.None? || failsAt.value >= |ids|
      ensures done ==> items == Reordered(old(items), ids, now)
      ensures !done ==> items == Reordered(old(items), ids[..failsAt.value], now) && setlists == old(setlists)
      ensures done && setlistId in old(setlists) ==> setlists == old(setlists)[setlistId := old(setlists)[setlistId].(updatedAt := now)]
      ensures done && setlistId !in old(setlists) ==> setlists == old(setlists)
    {
      var i := 0;
      while i < |ids|
        invariant 0 <= i <= |ids|
        invariant failsAt.Some? ==> i <= failsAt.value
        invariant items == Reordered(old(items), ids[..i], now)
        invariant setlists == old(setlists)
      {
        if failsAt == Some(i) {
          return false;
        }
        ReorderStep(old(items), ids, i, now);
        if ids[i] in items {
          items := items[ids[i] := items[ids[i]].(position := i, updatedAt := now)];
        }
        i := i + 1;
      }
      assert ids[..|ids|] == ids;
      if setlistId in setlists {
        setlists := setlists[setlistId := setlists[setlistId].(updatedAt := now)];
      }
      done := true;
    }

    /**
     * deleteSetlist: first every item of the setlist, then its row; a
     * failure of the first delete leaves both tables as they were, a
     * failure of the second leaves the row without its items.
     */
    method DeleteSetlist(setlistId: string, itemsDeleteFails: bool, rowDeleteFails: bool) returns (deleted: bool)
      modifies this
      ensures deleted <==> !itemsDeleteFails && !rowDeleteFails
      ensures itemsDeleteFails ==> items == old(items) && setlists == old(setlists)
      ensures !itemsDeleteFails ==> items == map k | k in old(items) && old(items)[k].setlistId != setlistId :: old(items)[k]
      ensures !itemsDeleteFails ==> ItemsOf(items, setlistId) == {}
      ensures deleted ==> setlists == old(setlists) - {setlistId}
      ensures !itemsDeleteFails && rowDeleteFails ==> setlists == old(setlists)
    {
      if itemsDeleteFails {
        return false;
      }
      items := map k | k in items && items[k].setlistId != setlistId :: items[k];
      if rowDeleteFails {
        return false;
      }
      setlists := setlists - {setlistId};
      deleted := true;
    }

    /** createSetlist: a new row under the id the database gives it. */
    method CreateSetlist(name: string, description: Option<string>, freshId: string, now: int) returns (row: SetlistRow)
      modifies this
      ensures row == SetlistRow(name, description, now, now)
      ensures setlists == old(setlists)[freshId := row] && items == old(items)
    {
      row := SetlistRow(name, description, now, now);
      setlists := setlists[freshId := row];
    }

    /** updateSetlist: `.single()` fails when no row has the id; otherwise name and description are replaced. */
    method UpdateSetlist(setlistId: string, name: string, description: Option<string>, now: int) returns (row: Option<SetlistRow>)
      modifies this
      ensures row.None? <==> setlistId !in old(setlists)
      ensures row.None? ==> setlists == old(setlists)
      ensures row.Some? ==> row.value == old(setlists)[setlistId].(name := name, description := description, updatedAt := now) &&
                            setlists == old(setlists)[setlistId := row.value]
      ensures items == old(items)
    {
      if setlistId !in setlists {
        return None;
      }
      var updated := setlists[setlistId].(name := name, description := description, updatedAt := now);
      setlists := setlists[setlistId := updated];
      row := Some(updated);
    }

    /** getSetlist: the row and its items (their order by position is not modelled), or a failure. */
    function GetSetlist(setlistId: string): (r: Option<(SetlistRow, set<string>)>)
      reads this
      ensures r.None? <==> setlistId !in setlists
      ensures r.Some? ==> r.value.0 == setlists[setlistId] && r.value.1 == ItemsOf(items, setlistId)
    {
      if setlistId in setlists then Some((setlists[setlistId], ItemsOf(items, setlistId))) else None
    }
  }

  /** One turn of the reorder loop. */
  lemma ReorderStep(items: map<string, Item>, ids: seq<string>, i: int, now: int)
    requires 0 <= i < |ids|
    ensures var before := Reordered(items, ids[..i], now);
            Reordered(items, ids[..i + 1], now) ==
              if ids[i] in before then before[ids[i] := before[ids[i]].(position := i, updatedAt := now)] else before
  {
    var prefix := ids[..i + 1];
    assert prefix[..i] == ids[..i];
    assert forall k :: k in prefix <==> k in ids[..i] || k == ids[i];
  }

  /** A successful add, with no position or a position in 0..n, leaves the setlist contiguous. */
  method AddKeepsContiguous(store: SetlistStore, setlistId: string, songId: string, position: Option<int>, freshId: string, now: int,
                            queryFails: bool, shiftFails: bool, insertFails: bool)
    returns (added: Option<Item>)
    requires freshId !in store.items && Contiguous(store.items, setlistId)
    requires position.Some? ==> 0 <= position.value <= |ItemsOf(store.items, setlistId)|
    modifies store
    ensures added.Some? ==> Contiguous(store.items, setlistId)
  {
    ghost var before := store.items;
    added := store.AddSong(setlistId, songId, position, None, freshId, now, queryFails, shiftFails, insertFails);
    if added.Some? {
      if position.Some? {
        InsertAtKeepsContiguous(before, setlistId, freshId, added.value, position.value);
      } else {
        AppendKeepsContiguous(before, setlistId, freshId, added.value, added.value.position);
      }
    }
  }

  /** A successful removal of one of a setlist's items leaves it contiguous. */
  method RemoveKeepsContiguousStore(store: SetlistStore, setlistId: string, itemId: string, now: int,
                                    deleteFails: bool, shiftFails: bool)
    returns (removed: bool)
    requires itemId in store.items && store.items[itemId].setlistId == setlistId
    requires Contiguous(store.items, setlistId)
    modifies store
    ensures removed ==> Contiguous(store.items, setlistId)
  {
    ghost var before := store.items;
    ghost var expected := Shifted(before - {itemId}, setlistId, before[itemId].position + 1, -1);
    RemoveKeepsContiguous(before, setlistId, itemId);
    assert Contiguous(expected, setlistId);
    removed := store.RemoveSong(setlistId, itemId, now, deleteFails, shiftFails);
  }

  /**
   * A position outside 0..n, which addSongToSetlist accepts unchecked,
   * never leaves the setlist contiguous: the new item sits past the end
   * or below 0.
   */
  lemma InsertOutsideBreaksContiguous(items: map<string, Item>, setlistId: string, newId: string, item: Item, p: int)
    requires newId !in items
    requires !(0 <= p <= |ItemsOf(items, setlistId)|)
    requires item.setlistId == setlistId && item.position == p
    ensures !Contiguous(Shifted(items, setlistId, p, 1)[newId := item], setlistId)
  {
    InsertAtMembers(items, setlistId, newId, item, p);
    var after := Shifted(items, setlistId, p, 1)[newId := item];
    assert newId in ItemsOf(after, setlistId);
  }

  /**
   * After a shift whose insert then fails, no item of the setlist holds
   * the requested position, so a contiguous setlist gets a hole there.
   */
  lemma ShiftWithoutInsertLeavesHole(items: map<string, Item>, setlistId: string, p: int)
    ensures forall k :: k in ItemsOf(Shifted(items, setlistId, p, 1), setlistId) ==>
              Shifted(items, setlistId, p, 1)[k].position != p
  {
  }

  /** One item at 0, a shift for position 0 and a failed insert: the setlist holds 1 item at position 1. */
  lemma ShiftWithoutInsertExample()
    ensures var items := map["a" := Item("s", "x", 0, None, 0)];
            Contiguous(items, "s") && !Contiguous(Shifted(items, "s", 0, 1), "s")
  {
    var items := map["a" := Item("s", "x", 0, None, 0)];
    var after := Shifted(items, "s", 0, 1);
    assert ItemsOf(items, "s") == {"a"};
    assert ItemsOf(after, "s") == {"a"};
    assert after["a"].position == 1;
  }

  /** Items at 0 and 1, the first deleted but the shift failing: the one item left sits at 1. */
  lemma DeleteWithoutShiftExample()
    ensures var items := map["a" := Item("s", "x", 0, None, 0), "b" := Item("s", "y", 1, None, 0)];
            Contiguous(items, "s") && !Contiguous(items - {"a"}, "s")
  {
    var items := map["a" := Item("s", "x", 0, None, 0), "b" := Item("s", "y", 1, None, 0)];
    assert ItemsOf(items, "s") == {"a", "b"};
    assert ItemsOf(items - {"a"}, "s") == {"b"};
  }

  /** Swapping two items, failing at the second update: both sit at position 0. */
  lemma PartialReorderExample()
    ensures var items := map["a" := Item("s", "x", 0, None, 0), "b" := Item("s", "y", 1, None, 0)];
            Contiguous(items, "s") && !Contiguous(Reordered(items, ["b", "a"][..1], 5), "s")
  {
    var items := map["a" := Item("s", "x", 0, None, 0), "b" := Item("s", "y", 1, None, 0)];
    assert ItemsOf(items, "s") == {"a", "b"};
    assert ["b", "a"][..1] == ["b"];
    var after := Reordered(items, ["b"], 5);
    assert ItemsOf(after, "s") == {"a", "b"};
    assert after["a"].position == 0 && after["b"].position == 0;
  }
}
