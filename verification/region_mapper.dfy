/**
 * The manual region mapper: a drag on the image proposes a rectangle, the
 * user confirms it as the next item of the current ID, starts new IDs,
 * deletes the most recent item, and saves a summary.
 *
 * The mapping from IDs to their entries is a dictionary in the program,
 * which keeps insertion order; here it is a sequence of entries, each
 * carrying its dictionary key next to its own `id` field.
 */
module RegionMapping {
  import opened Wrappers

  datatype Point = Point(x: int, y: int)

  /** A confirmed or pending rectangle in pixel coordinates, with its two side lengths. */
  datatype Rect = Rect(xMin: int, yMin: int, xMax: int, yMax: int, width: int, height: int)

  /** Both sides of a drawn rectangle must be strictly longer than this. */
  const MinSide: int := 5

  function MinInt(a: int, b: int): int { if a <= b then a else b }
  function MaxInt(a: int, b: int): int { if a >= b then a else b }
  function Abs(a: int): int { if a >= 0 then a else -a }

  /**
   * The rectangle spanned by the press and release points, or None when
   * either side is 5 pixels or shorter. It is the tightest rectangle holding
   * both points.
   */
  function NormalizeDrag(p: Point, q: Point): (r: Option<Rect>)
    ensures r.Some? <==> Abs(p.x - q.x) > MinSide && Abs(p.y - q.y) > MinSide
    ensures r.Some? ==>
      && r.value.xMin <= p.x <= r.value.xMax && r.value.xMin <= q.x <= r.value.xMax
      && r.value.yMin <= p.y <= r.value.yMax && r.value.yMin <= q.y <= r.value.yMax
      && (r.value.xMin == p.x || r.value.xMin == q.x) && (r.value.xMax == p.x || r.value.xMax == q.x)
      && (r.value.yMin == p.y || r.value.yMin == q.y) && (r.value.yMax == p.y || r.value.yMax == q.y)
      && r.value.width == r.value.xMax - r.value.xMin > MinSide
      && r.value.height == r.value.yMax - r.value.yMin > MinSide
  {
    var xMin, yMin := MinInt(p.x, q.x), MinInt(p.y, q.y);
    var xMax, yMax := MaxInt(p.x, q.x), MaxInt(p.y, q.y);
    if xMax - xMin > MinSide && yMax - yMin > MinSide then
      Some(Rect(xMin, yMin, xMax, yMax, xMax - xMin, yMax - yMin))
    else None
  }

  /** Dragging from p to q or from q to p proposes the same rectangle. */
  lemma NormalizeSymmetric(p: Point, q: Point)
    ensures NormalizeDrag(p, q) == NormalizeDrag(q, p)
  {
  }

  /** One confirmed item: its number within its ID and its rectangle. */
  datatype Item = Item(number: int, coords: Rect)

  /** A dictionary slot: the key, the entry's own `id` field and its items. */
  datatype Entry = Entry(key: int, id: int, items: seq<Item>)

  /** The editing state the keyboard commands act on. */
  datatype MapState = MapState(regions: seq<Entry>, currentId: int, currentItem: int, pending: Option<Rect>)

  predicate DistinctKeys(es: seq<Entry>) {
    forall i, j :: 0 <= i < |es| && 0 <= j < |es| && i != j ==> es[i].key != es[j].key
  }

  /**
   * The store's invariant: keys are distinct, every entry's `id` equals its
   * key, and no entry has an empty item list.
   */
  predicate WellKeyed(es: seq<Entry>) {
    && DistinctKeys(es)
    && forall i :: 0 <= i < |es| ==> es[i].id == es[i].key && es[i].items != []
  }

  function Keys(es: seq<Entry>): set<int> {
    set i | 0 <= i < |es| :: es[i].key
  }

  /** The position of the slot with the given key, or -1 when there is none. */
  function Find(es: seq<Entry>, key: int): (i: int)
    ensures -1 <= i < |es|
    ensures i >= 0 ==> es[i].key == key && forall j :: 0 <= j < i ==> es[j].key != key
    ensures i == -1 <==> forall j :: 0 <= j < |es| ==> es[j].key != key
  {
    if es == [] then -1
    else if es[0].key == key then 0
    else
      var j := Find(es[1..], key);
      if j == -1 then -1
      else
        assert es[j + 1] == es[1..][j];
        j + 1
  }

  /** Dictionary lookup. */
  function Lookup(es: seq<Entry>, key: int): Option<Entry> {
    var i := Find(es, key);
    if i < 0 then None else Some(es[i])
  }

  /** The items under a key, empty when the key is absent. */
  function ItemsOf(es: seq<Entry>, key: int): seq<Item> {
    var i := Find(es, key);
    if i < 0 then [] else es[i].items
  }

  lemma FindKeys(es: seq<Entry>, key: int)
    ensures Find(es, key) >= 0 <==> key in Keys(es)
  {
    if key in Keys(es) {
      var i :| 0 <= i < |es| && es[i].key == key;
    }
  }

  /** With distinct keys, every slot is found at its own position. */
  lemma FindUnique(es: seq<Entry>, i: int)
    requires DistinctKeys(es) && 0 <= i < |es|
    ensures Find(es, es[i].key) == i
  {
  }

  /** The position of a largest key. */
  function MaxIndex(es: seq<Entry>): (i: nat)
    requires es != []
    ensures i < |es| && forall j :: 0 <= j < |es| ==> es[j].key <= es[i].key
  {
    if |es| == 1 then 0
    else
      var j := MaxIndex(es[..|es| - 1]);
      if es[|es| - 1].key > es[j].key then |es| - 1 else j
  }

  /** The largest key in the store. */
  function MaxKey(es: seq<Entry>): (m: int)
    requires es != []
    ensures m in Keys(es) && forall k :: k in Keys(es) ==> k <= m
  {
    es[MaxIndex(es)].key
  }

  /** No key exceeds the current ID. */
  predicate KeysBelow(s: MapState) {
    forall i :: 0 <= i < |s.regions| ==> s.regions[i].key <= s.currentId
  }

  /**
   * Confirming: without a pending rectangle nothing changes; otherwise the
   * rectangle becomes item `currentItem` under `currentId` (the entry is
   * created at the end when the ID is new), the item counter advances and
   * the pending rectangle is cleared.
   */
  function Confirm(s: MapState): (r: MapState)
    ensures s.pending.None? ==> r == s
    ensures s.pending.Some? ==>
      && r.currentId == s.currentId && r.currentItem == s.currentItem + 1 && r.pending == None
      && ItemsOf(r.regions, s.currentId) == ItemsOf(s.regions, s.currentId) + [Item(s.currentItem, s.pending.value)]
  {
    if s.pending.None? then s
    else
      var item := Item(s.currentItem, s.pending.value);
      var i := Find(s.regions, s.currentId);
      var regions :=
        if i < 0 then s.regions + [Entry(s.currentId, s.currentId, [item])]
        else s.regions[i := s.regions[i].(items := s.regions[i].items + [item])];
      FindAfterConfirm(s.regions, s.currentId, item);
      MapState(regions, s.currentId, s.currentItem + 1, None)
  }

  lemma FindAfterConfirm(es: seq<Entry>, key: int, item: Item)
    ensures var i := Find(es, key);
      i < 0 ==> Find(es + [Entry(key, key, [item])], key) == |es|
    ensures var i := Find(es, key);
      i >= 0 ==> Find(es[i := es[i].(items := es[i].items + [item])], key) == i
  {
    var i := Find(es, key);
    if i < 0 {
      FindAppend(es, Entry(key, key, [item]), key);
    } else {
      FindReplace(es, i, es[i].(items := es[i].items + [item]), key);
    }
  }

  /** Appending a slot leaves every earlier key where it was. */
  lemma FindAppend(es: seq<Entry>, e: Entry, key: int)
    ensures Find(es + [e], key) == if Find(es, key) >= 0 then Find(es, key) else if e.key == key then |es| else -1
  {
    var f := Find(es + [e], key);
    assert forall j :: 0 <= j < |es| ==> (es + [e])[j] == es[j];
    if Find(es, key) >= 0 {
      assert (es + [e])[Find(es, key)].key == key;
    } else if e.key == key {
      assert (es + [e])[|es|].key == key;
    }
  }

  /** Replacing a slot by one with the same key moves no key. */
  lemma FindReplace(es: seq<Entry>, i: int, e: Entry, key: int)
    requires 0 <= i < |es| && e.key == es[i].key
    ensures Find(es[i := e], key) == Find(es, key)
  {
    var f := Find(es, key);
    var g := Find(es[i := e], key);
    if f >= 0 {
      assert es[i := e][f].key == key;
    }
    if g >= 0 {
      assert es[g].key == key;
    }
  }

  /** Confirming touches no ID other than the current one. */
  lemma ConfirmOthersUntouched(s: MapState, k: int)
    requires k != s.currentId
    ensures Lookup(Confirm(s).regions, k) == Lookup(s.regions, k)
  {
    if s.pending.Some? {
      var item := Item(s.currentItem, s.pending.value);
      var i := Find(s.regions, s.currentId);
      if i < 0 {
        FindAppend(s.regions, Entry(s.currentId, s.currentId, [item]), k);
      } else {
        FindReplace(s.regions, i, s.regions[i].(items := s.regions[i].items + [item]), k);
      }
    }
  }

  /** Confirming keeps the store well keyed and no key above the current ID. */
  lemma ConfirmKeepsInvariant(s: MapState)
    requires WellKeyed(s.regions) && KeysBelow(s)
    ensures WellKeyed(Confirm(s).regions) && KeysBelow(Confirm(s))
  {
  }

  /** Starting a new ID: the ID advances, numbering restarts at 1, the store is untouched. */
  function NextId(s: MapState): (r: MapState)
    ensures r.regions == s.regions && r.pending == s.pending
    ensures r.currentId == s.currentId + 1 && r.currentItem == 1
  {
    s.(currentId := s.currentId + 1, currentItem := 1)
  }

  lemma NextIdKeepsInvariant(s: MapState)
    requires WellKeyed(s.regions) && KeysBelow(s)
    ensures WellKeyed(NextId(s).regions) && KeysBelow(NextId(s))
  {
  }

  function RemoveAt(es: seq<Entry>, i: int): (r: seq<Entry>)
    requires 0 <= i < |es|
    ensures |r| == |es| - 1
  {
    es[..i] + es[i + 1..]
  }

  /**
   * Deleting the last item: on an empty store nothing changes; otherwise the
   * last item of the LARGEST key is popped (not necessarily the current ID).
   * An entry left empty is removed and the counters move to the largest
   * remaining key and its next item number, or back to (1, 1); otherwise the
   * item counter becomes that entry's next item number.
   */
  function DeleteLast(s: MapState): (r: MapState)
    ensures s.regions == [] ==> r == s
    ensures r.pending == s.pending
  {
    if s.regions == [] then s
    else
      var i := MaxIndex(s.regions);
      var items := s.regions[i].items;
      if items == [] then s
      else
        var rest := items[..|items| - 1];
        if rest == [] then
          var regions := RemoveAt(s.regions, i);
          if regions == [] then MapState(regions, 1, 1, s.pending)
          else
            var top := MaxIndex(regions);
            MapState(regions, regions[top].key, |regions[top].items| + 1, s.pending)
        else s.(regions := s.regions[i := s.regions[i].(items := rest)], currentItem := |rest| + 1)
  }

  /** Removing a slot moves no other key, and with distinct keys its own key is gone. */
  lemma LookupRemove(es: seq<Entry>, i: int, key: int)
    requires DistinctKeys(es) && 0 <= i < |es|
    ensures key != es[i].key ==> Lookup(RemoveAt(es, i), key) == Lookup(es, key)
    ensures key == es[i].key ==> Find(RemoveAt(es, i), key) == -1
  {
    var r := RemoveAt(es, i);
    assert forall j :: 0 <= j < i ==> r[j] == es[j];
    assert forall j :: i <= j < |r| ==> r[j] == es[j + 1];
    var f := Find(es, key);
    var g := Find(r, key);
    if key != es[i].key {
      if f >= 0 {
        if f < i {
          assert r[f].key == key;
        } else {
          assert f > i;
          assert r[f - 1].key == key;
        }
      }
      if g >= 0 {
        if g < i {
          assert es[g].key == key;
        } else {
          assert es[g + 1].key == key;
        }
      }
    }
  }

  lemma RemoveKeepsInvariant(es: seq<Entry>, i: int)
    requires WellKeyed(es) && 0 <= i < |es|
    ensures WellKeyed(RemoveAt(es, i))
    ensures forall j :: 0 <= j < |RemoveAt(es, i)| ==> RemoveAt(es, i)[j] in es
  {
    var r := RemoveAt(es, i);
    assert forall j :: 0 <= j < i ==> r[j] == es[j];
    assert forall j :: i <= j < |r| ==> r[j] == es[j + 1];
  }

  /**
   * Deleting pops exactly the last item of the largest key and leaves every
   * other key as it was; the key disappears when its list empties.
   */
  lemma DeleteLastPopsLargest(s: MapState, k: int)
    requires WellKeyed(s.regions) && s.regions != []
    ensures var top := MaxKey(s.regions);
      var before := ItemsOf(s.regions, top);
      var r := DeleteLast(s);
      && |before| > 0
      && ItemsOf(r.regions, top) == before[..|before| - 1]
      && (|before| == 1 <==> top !in Keys(r.regions))
      && (k != top ==> Lookup(r.regions, k) == Lookup(s.regions, k))
  {
    var es := s.regions;
    var i := MaxIndex(es);
    FindUnique(es, i);
    var items := es[i].items;
    var r := DeleteLast(s);
    if |items| == 1 {
      LookupRemove(es, i, k);
      LookupRemove(es, i, es[i].key);
      FindKeys(r.regions, es[i].key);
    } else {
      var e := es[i].(items := items[..|items| - 1]);
      FindReplace(es, i, e, k);
      FindReplace(es, i, e, es[i].key);
      FindKeys(r.regions, es[i].key);
      assert r.regions[i].key == es[i].key;
    }
  }

  /**
   * After a deletion the counters point past the remaining items: at the
   * largest remaining key when an entry was removed, or at (1, 1) when the
   * store emptied; otherwise the ID stays and the item number follows the
   * shortened list.
   */
  lemma DeleteLastCounters(s: MapState)
    requires WellKeyed(s.regions) && s.regions != []
    ensures var top := MaxKey(s.regions);
      var before := ItemsOf(s.regions, top);
      var r := DeleteLast(s);
      && (|before| == 1 && r.regions == [] ==> r.currentId == 1 && r.currentItem == 1)
      && (|before| == 1 && r.regions != [] ==>
            r.currentId == MaxKey(r.regions) && r.currentItem == |ItemsOf(r.regions, r.currentId)| + 1)
      && (|before| > 1 ==> r.currentId == s.currentId && r.currentItem == |before|)
  {
    var es := s.regions;
    var i := MaxIndex(es);
    FindUnique(es, i);
    var r := DeleteLast(s);
    if |es[i].items| == 1 && r.regions != [] {
      RemoveKeepsInvariant(es, i);
      FindUnique(r.regions, MaxIndex(r.regions));
    }
  }

  /** Deleting keeps the store well keyed and no key above the current ID. */
  lemma DeleteKeepsInvariant(s: MapState)
    requires WellKeyed(s.regions) && KeysBelow(s)
    ensures WellKeyed(DeleteLast(s).regions) && KeysBelow(DeleteLast(s))
  {
    var es := s.regions;
    if es != [] {
      var i := MaxIndex(es);
      var items := es[i].items;
      if |items| == 1 {
        RemoveKeepsInvariant(es, i);
      } else {
        var r := DeleteLast(s).regions;
        assert forall j :: 0 <= j < |r| ==> r[j].key == es[j].key;
      }
    }
  }

  /**
   * Confirming a rectangle and then deleting gives back the store as it
   * was, whether the rectangle opened a new ID or extended the current one.
   */
  lemma ConfirmThenDeleteRestores(s: MapState)
    requires WellKeyed(s.regions) && KeysBelow(s) && s.pending.Some?
    ensures DeleteLast(Confirm(s)).regions == s.regions
  {
    ConfirmKeepsInvariant(s);
    if Find(s.regions, s.currentId) < 0 {
      ConfirmNewThenDelete(s);
    } else {
      ConfirmExistingThenDelete(s);
    }
  }

  /** A rectangle that opened a new ID is the only item of the largest key, so deleting drops that entry. */
  lemma ConfirmNewThenDelete(s: MapState)
    requires WellKeyed(s.regions) && KeysBelow(s) && s.pending.Some?
    requires Find(s.regions, s.currentId) < 0
    requires WellKeyed(Confirm(s).regions)
    ensures DeleteLast(Confirm(s)).regions == s.regions
  {
    var es := s.regions;
    var c := Confirm(s);
    assert c.regions[|es|].key == s.currentId;
    assert MaxIndex(c.regions) == |es|;
    assert RemoveAt(c.regions, |es|) == es;
  }

  /** A rectangle added to an existing ID is the last item of the largest key, so deleting pops it. */
  lemma ConfirmExistingThenDelete(s: MapState)
    requires WellKeyed(s.regions) && KeysBelow(s) && s.pending.Some?
    requires Find(s.regions, s.currentId) >= 0
    requires WellKeyed(Confirm(s).regions)
    ensures DeleteLast(Confirm(s)).regions == s.regions
  {
    var es := s.regions;
    var c := Confirm(s);
    var i := Find(es, s.currentId);
    assert c.regions[i].key == s.currentId;
    assert MaxIndex(c.regions) == i;
    assert c.regions[i].items[..|c.regions[i].items| - 1] == es[i].items;
    assert es[i := es[i].(items := es[i].items)] == es;
  }

  /**
   * Starting a new ID and then deleting pops an item of the previous ID but
   * leaves the current ID on the new, still empty one, with an item number
   * taken from the previous ID's list.
   */
  lemma NewIdThenDeleteMismatch(s: MapState)
    requires WellKeyed(s.regions) && KeysBelow(s) && s.regions != []
    requires |ItemsOf(s.regions, MaxKey(s.regions))| >= 2
    ensures var r := DeleteLast(NextId(s));
      && r.currentId == s.currentId + 1
      && r.currentId !in Keys(r.regions)
      && r.currentItem == |ItemsOf(s.regions, MaxKey(s.regions))|
  {
    var n := NextId(s);
    DeleteLastCounters(n);
    DeleteKeepsInvariant(n);
    var r := DeleteLast(n);
    FindKeys(r.regions, r.currentId);
  }

  /** Entries in nondecreasing key order. */
  predicate Ascending(es: seq<Entry>) {
    forall i, j :: 0 <= i < j < |es| ==> es[i].key <= es[j].key
  }

  function Insert(e: Entry, es: seq<Entry>): (r: seq<Entry>)
    ensures multiset(r) == multiset(es) + multiset{e}
    ensures r != [] && (r[0] == e || (es != [] && r[0] == es[0]))
  {
    if es == [] then [e]
    else if e.key <= es[0].key then [e] + es
    else
      assert es == [es[0]] + es[1..];
      [es[0]] + Insert(e, es[1..])
  }

  /** A bound below every key, the inserted one included, stays below every key after inserting. */
  lemma {:induction false} InsertLowerBound(e: Entry, es: seq<Entry>, b: int)
    requires b <= e.key && forall k :: 0 <= k < |es| ==> b <= es[k].key
    ensures forall k :: 0 <= k < |Insert(e, es)| ==> b <= Insert(e, es)[k].key
    decreases |es|
  {
    if es != [] && e.key > es[0].key {
      InsertLowerBound(e, es[1..], b);
    }
  }

  /** Inserting into an ascending list keeps it ascending. */
  lemma {:induction false} InsertAscending(e: Entry, es: seq<Entry>)
    requires Ascending(es)
    ensures Ascending(Insert(e, es))
    decreases |es|
  {
    if es != [] && e.key > es[0].key {
      InsertAscending(e, es[1..]);
      InsertLowerBound(e, es[1..], es[0].key);
    }
  }

  /** The entries in ascending key order, as `sorted` yields the dictionary's items. */
  function SortByKey(es: seq<Entry>): (r: seq<Entry>)
    ensures multiset(r) == multiset(es) && Ascending(r)
    ensures |r| == |es|
  {
    if es == [] then []
    else
      assert es == [es[0]] + es[1..];
      InsertAscending(es[0], SortByKey(es[1..]));
      Insert(es[0], SortByKey(es[1..]))
  }

  function TotalItems(es: seq<Entry>): nat {
    if es == [] then 0 else TotalItems(es[..|es| - 1]) + |es[|es| - 1].items|
  }

  /** The per-ID records of the saved file: key, item count and items. */
  datatype RegionSummary = RegionSummary(id: int, totalItems: nat, items: seq<Item>)

  /** One line of the coordinates file: `ID:<id> Item:<n> x_min,y_min,x_max,y_max`. */
  datatype CoordLine = CoordLine(id: int, number: int, xMin: int, yMin: int, xMax: int, yMax: int)

  datatype SaveSummary = SaveSummary(totalIds: nat, totalItems: nat, regions: seq<RegionSummary>, lines: seq<CoordLine>)

  function Summaries(es: seq<Entry>): (r: seq<RegionSummary>)
    ensures |r| == |es|
  {
    seq(|es|, i requires 0 <= i < |es| => RegionSummary(es[i].key, |es[i].items|, es[i].items))
  }

  function ItemLines(e: Entry): (r: seq<CoordLine>)
    ensures |r| == |e.items|
  {
    seq(|e.items|, j requires 0 <= j < |e.items| =>
      CoordLine(e.key, e.items[j].number, e.items[j].coords.xMin, e.items[j].coords.yMin,
                e.items[j].coords.xMax, e.items[j].coords.yMax))
  }

  function CoordLines(es: seq<Entry>): seq<CoordLine> {
    if es == [] then [] else CoordLines(es[..|es| - 1]) + ItemLines(es[|es| - 1])
  }

  /**
   * What saving produces: nothing for an empty store; otherwise the number
   * of IDs, the total number of items, and per-ID records and coordinate
   * lines in ascending ID order.
   */
  function SaveOf(es: seq<Entry>): (r: Option<SaveSummary>)
    ensures r.None? <==> es == []
  {
    if es == [] then None
    else
      var sorted := SortByKey(es);
      Some(SaveSummary(|es|, TotalItems(es), Summaries(sorted), CoordLines(sorted)))
  }

  lemma {:induction false} TotalItemsConcat(a: seq<Entry>, b: seq<Entry>)
    ensures TotalItems(a + b) == TotalItems(a) + TotalItems(b)
    decreases |b|
  {
    if b == [] {
      assert a + b == a;
    } else {
      TotalItemsConcat(a, b[..|b| - 1]);
      var ab := a + b;
      assert ab[..|ab| - 1] == a + b[..|b| - 1];
      assert ab[|ab| - 1] == b[|b| - 1];
      assert TotalItems(ab) == TotalItems(a + b[..|b| - 1]) + |b[|b| - 1].items|;
    }
  }

  lemma {:induction false} TotalItemsInsert(e: Entry, es: seq<Entry>)
    ensures TotalItems(Insert(e, es)) == |e.items| + TotalItems(es)
    decreases |es|
  {
    TotalItemsConcat([e], es);
    assert TotalItems([e]) == |e.items| by {
      assert [e][..0] == [];
    }
    if es != [] && e.key > es[0].key {
      TotalItemsInsert(e, es[1..]);
      TotalItemsConcat([es[0]], Insert(e, es[1..]));
      TotalItemsConcat([es[0]], es[1..]);
      assert TotalItems([es[0]]) == |es[0].items| by {
        assert [es[0]][..0] == [];
      }
      assert es == [es[0]] + es[1..];
    }
  }

  /** Sorting neither adds nor loses items. */
  lemma {:induction false} TotalItemsSort(es: seq<Entry>)
    ensures TotalItems(SortByKey(es)) == TotalItems(es)
    decreases |es|
  {
    if es != [] {
      TotalItemsSort(es[1..]);
      TotalItemsInsert(es[0], SortByKey(es[1..]));
      TotalItemsConcat([es[0]], es[1..]);
      assert TotalItems([es[0]]) == |es[0].items| by {
        assert [es[0]][..0] == [];
      }
      assert es == [es[0]] + es[1..];
    }
  }

  /** One coordinate line per item. */
  lemma {:induction false} CoordLinesCount(es: seq<Entry>)
    ensures |CoordLines(es)| == TotalItems(es)
  {
    if es != [] {
      CoordLinesCount(es[..|es| - 1]);
    }
  }

  /** Every coordinate line belongs to one of the entries written out. */
  lemma {:induction false} CoordLinesFrom(es: seq<Entry>, k: int)
    requires 0 <= k < |CoordLines(es)|
    ensures exists i, j :: 0 <= i < |es| && 0 <= j < |es[i].items| && CoordLines(es)[k] == ItemLines(es[i])[j]
  {
    var prev := CoordLines(es[..|es| - 1]);
    if k < |prev| {
      CoordLinesFrom(es[..|es| - 1], k);
      var i, j :| 0 <= i < |es| - 1 && 0 <= j < |es[..|es| - 1][i].items| && prev[k] == ItemLines(es[..|es| - 1][i])[j];
      assert es[..|es| - 1][i] == es[i];
    } else {
      assert CoordLines(es)[k] == ItemLines(es[|es| - 1])[k - |prev|];
    }
  }

  /** Every item of every entry written out has its line among the coordinate lines. */
  lemma {:induction false} CoordLinesHas(es: seq<Entry>, i: int, j: int)
    requires 0 <= i < |es| && 0 <= j < |es[i].items|
    ensures ItemLines(es[i])[j] in CoordLines(es)
    decreases |es|
  {
    var init := es[..|es| - 1];
    if i < |es| - 1 {
      assert init[i] == es[i];
      CoordLinesHas(init, i, j);
    }
    assert CoordLines(es) == CoordLines(init) + ItemLines(es[|es| - 1]);
  }

  /** Saving writes the coordinate line of every stored item, whatever its position in the store. */
  lemma SavedLinesHaveEveryItem(es: seq<Entry>, i: int, j: int)
    requires 0 <= i < |es| && 0 <= j < |es[i].items|
    ensures ItemLines(es[i])[j] in SaveOf(es).value.lines
  {
    var sorted := SortByKey(es);
    assert es[i] in multiset(sorted);
    var p :| 0 <= p < |sorted| && sorted[p] == es[i];
    CoordLinesHas(sorted, p, j);
  }

  /**
   * Saving reports as many coordinate lines as items, as many per-ID
   * records as IDs, and writes the records in ascending ID order.
   */
  lemma SaveCounts(es: seq<Entry>)
    requires es != []
    ensures |SaveOf(es).value.lines| == SaveOf(es).value.totalItems
    ensures |SaveOf(es).value.regions| == SaveOf(es).value.totalIds == |es|
    ensures var rs := SaveOf(es).value.regions;
      forall i, j :: 0 <= i < j < |rs| ==> rs[i].id <= rs[j].id
  {
    CoordLinesCount(SortByKey(es));
    TotalItemsSort(es);
  }

  /** With distinct keys the records come out in strictly ascending ID order. */
  lemma SaveStrictlyAscending(es: seq<Entry>)
    requires DistinctKeys(es) && es != []
    ensures var rs := SaveOf(es).value.regions;
      forall i, j :: 0 <= i < j < |rs| ==> rs[i].id < rs[j].id
  {
    var sorted := SortByKey(es);
    forall i, j | 0 <= i < j < |sorted|
      ensures sorted[i].key < sorted[j].key
    {
      PermutationKeysDistinct(es, sorted, i, j);
    }
  }

  /** Two positions of a permutation of a store with distinct keys hold different keys. */
  lemma PermutationKeysDistinct(es: seq<Entry>, ps: seq<Entry>, i: int, j: int)
    requires DistinctKeys(es) && multiset(ps) == multiset(es)
    requires 0 <= i < j < |ps|
    ensures ps[i].key != ps[j].key
  {
    assert ps[i] in multiset(es) && ps[j] in multiset(es);
    var a :| 0 <= a < |es| && es[a] == ps[i];
    var b :| 0 <= b < |es| && es[b] == ps[j];
    DistinctCount(es, a);
    assert multiset{ps[i], ps[j]} <= multiset(ps) by {
      assert ps == ps[..i] + [ps[i]] + ps[i + 1..j] + [ps[j]] + ps[j + 1..];
    }
  }

  lemma {:induction false} DistinctCount(es: seq<Entry>, a: int)
    requires DistinctKeys(es) && 0 <= a < |es|
    ensures multiset(es)[es[a]] == 1
  {
    var x := es[a];
    assert es == es[..a] + [x] + es[a + 1..];
    assert x !in es[..a];
    assert x !in es[a + 1..];
  }

  /** Linear search for a key, as the dictionary membership test does. */
  method FindIndex(es: seq<Entry>, key: int) returns (i: int)
    ensures i == Find(es, key)
  {
    var k := 0;
    while k < |es| && es[k].key != key
      invariant 0 <= k <= |es|
      invariant forall j :: 0 <= j < k ==> es[j].key != key
    {
      k := k + 1;
    }
    i := if k < |es| then k else -1;
  }

  /** The position of the largest key, scanning left to right. */
  method LargestIndex(es: seq<Entry>) returns (best: nat)
    requires es != []
    ensures best == MaxIndex(es)
  {
    best := 0;
    var k := 1;
    assert es[..1][..0] == [];
    while k < |es|
      invariant 1 <= k <= |es|
      invariant best == MaxIndex(es[..k])
    {
      assert es[..k + 1][..k] == es[..k];
      if es[k].key > es[best].key {
        best := k;
      }
      k := k + 1;
    }
    assert es[..|es|] == es;
  }

  /**
   * The program's outcome of a display refresh AS WRITTEN: it picks a colour
   * for every item of every ID through a helper that uses a module the file
   * never imports, so it raises a NameError as soon as some ID holds an item.
   */
  predicate RefreshRaisesAsWritten(es: seq<Entry>) {
    exists i :: 0 <= i < |es| && es[i].items != []
  }

  datatype ConfirmOutcome = Returned(ok: bool, state: MapState) | NameErrorRaised(state: MapState)

  /** Confirming as written: the refresh after the update is part of the call. */
  function ConfirmAsWritten(s: MapState): (o: ConfirmOutcome)
    ensures o.state == Confirm(s)
  {
    if s.pending.None? then Returned(false, s)
    else
      var r := Confirm(s);
      if RefreshRaisesAsWritten(r.regions) then NameErrorRaised(r) else Returned(true, r)
  }

  /**
   * As written, confirming a pending rectangle never returns True: the store
   * is updated and then the refresh raises.
   */
  lemma ConfirmAsWrittenRaises(s: MapState)
    requires s.pending.Some?
    ensures ConfirmAsWritten(s) == NameErrorRaised(Confirm(s))
  {
    var r := Confirm(s);
    var i := Find(r.regions, s.currentId);
    assert r.regions[i].items != [];
  }

  /** The mapper: the drag in progress and the editing state. */
  class RegionMapper {
    var regions: seq<Entry>
    var currentId: int
    var currentItem: int
    var pending: Option<Rect>
    var drawing: bool
    var start: Option<Point>
    var finish: Option<Point>

    function State(): MapState
      reads this
    {
      MapState(regions, currentId, currentItem, pending)
    }

    predicate Valid()
      reads this
    {
      WellKeyed(regions) && KeysBelow(State())
    }

    /** A fresh mapper: empty store, ID 1, item 1, nothing pending or being drawn. */
    constructor()
      ensures State() == MapState([], 1, 1, None) && Valid()
      ensures !drawing && start == None && finish == None
    {
      regions := [];
      currentId := 1;
      currentItem := 1;
      pending := None;
      drawing := false;
      start := None;
      finish := None;
    }

    /** Button press: a drag starts at p. */
    method ButtonDown(p: Point)
      modifies this
      ensures drawing && start == Some(p) && finish == Some(p)
      ensures State() == old(State())
    {
      drawing := true;
      start := Some(p);
      finish := Some(p);
    }

    /** Mouse movement: follows the pointer only while a drag is in progress. */
    method MouseMove(p: Point)
      modifies this
      ensures finish == if old(drawing) then Some(p) else old(finish)
      ensures drawing == old(drawing) && start == old(start) && State() == old(State())
    {
      if drawing {
        finish := Some(p);
      }
    }

    /**
     * Button release: the drag ends at p; when a drag was ever started the
     * pending rectangle is replaced by the normalised one, or cleared when a
     * side is too short.
     */
    method ButtonUp(p: Point)
      modifies this
      ensures !drawing && finish == Some(p) && start == old(start)
      ensures pending == if old(start).Some? then NormalizeDrag(old(start).value, p) else old(pending)
      ensures regions == old(regions) && currentId == old(currentId) && currentItem == old(currentItem)
    {
      drawing := false;
      finish := Some(p);
      if start.Some? {
        pending := NormalizeDrag(start.value, p);
      }
    }

    /** Confirms the pending rectangle; reports whether there was one. */
    method ConfirmRegion() returns (ok: bool)
      requires Valid()
      modifies this
      ensures ok == old(pending).Some?
      ensures State() == Confirm(old(State())) && Valid()
      ensures drawing == old(drawing) && start == old(start) && finish == old(finish)
    {
      if pending.None? {
        return false;
      }
      ConfirmKeepsInvariant(State());
      var item := Item(currentItem, pending.value);
      var i := FindIndex(regions, currentId);
      if i < 0 {
        regions := regions + [Entry(currentId, currentId, [])];
        i := |regions| - 1;
      }
      regions := regions[i := regions[i].(items := regions[i].items + [item])];
      currentItem := currentItem + 1;
      pending := None;
      return true;
    }

    /** Starts the next ID. */
    method NewId()
      requires Valid()
      modifies this
      ensures State() == NextId(old(State())) && Valid()
      ensures drawing == old(drawing) && start == old(start) && finish == old(finish)
    {
      NextIdKeepsInvariant(State());
      currentId := currentId + 1;
      currentItem := 1;
    }

    /** Deletes the last item of the largest ID. */
    method DeleteLastItem()
      requires Valid()
      modifies this
      ensures State() == DeleteLast(old(State())) && Valid()
      ensures drawing == old(drawing) && start == old(start) && finish == old(finish)
    {
      DeleteKeepsInvariant(State());
      if regions == [] {
        return;
      }
      var last := LargestIndex(regions);
      var items := regions[last].items;
      if items == [] {
        return;
      }
      var rest := items[..|items| - 1];
      if rest == [] {
        regions := regions[..last] + regions[last + 1..];
        if regions == [] {
          currentId := 1;
          currentItem := 1;
        } else {
          var top := LargestIndex(regions);
          currentId := regions[top].key;
          currentItem := |regions[top].items| + 1;
        }
      } else {
        regions := regions[last := regions[last].(items := rest)];
        currentItem := |rest| + 1;
      }
    }

    /**
     * Saving: nothing for an empty store; otherwise the totals, and the
     * per-ID records and coordinate lines walked in ascending ID order.
     */
    method Save() returns (r: Option<SaveSummary>)
      ensures r == SaveOf(regions)
    {
      if regions == [] {
        return None;
      }
      var total := CountItems(regions);
      var sorted := SortByKey(regions);
      var records, lines := WriteOut(sorted);
      return Some(SaveSummary(|regions|, total, records, lines));
    }
  }

  /** The total number of items, summed ID by ID. */
  method CountItems(es: seq<Entry>) returns (total: nat)
    ensures total == TotalItems(es)
  {
    total := 0;
    var k := 0;
    while k < |es|
      invariant 0 <= k <= |es|
      invariant total == TotalItems(es[..k])
    {
      assert es[..k + 1][..k] == es[..k];
      total := total + |es[k].items|;
      k := k + 1;
    }
    assert es[..|es|] == es;
  }

  /** The coordinate lines of one ID, item by item. */
  method EntryLines(e: Entry) returns (lines: seq<CoordLine>)
    ensures lines == ItemLines(e)
  {
    lines := [];
    var j := 0;
    while j < |e.items|
      invariant 0 <= j <= |e.items|
      invariant lines == ItemLines(e)[..j]
    {
      var c := e.items[j].coords;
      lines := lines + [CoordLine(e.key, e.items[j].number, c.xMin, c.yMin, c.xMax, c.yMax)];
      j := j + 1;
    }
  }

  /** The per-ID records and all coordinate lines, in the order of the given entries. */
  method WriteOut(sorted: seq<Entry>) returns (records: seq<RegionSummary>, lines: seq<CoordLine>)
    ensures records == Summaries(sorted) && lines == CoordLines(sorted)
  {
    records := [];
    lines := [];
    var i := 0;
    while i < |sorted|
      invariant 0 <= i <= |sorted|
      invariant records == Summaries(sorted)[..i]
      invariant lines == CoordLines(sorted[..i])
    {
      var e := sorted[i];
      records := records + [RegionSummary(e.key, |e.items|, e.items)];
      var more := EntryLines(e);
      assert sorted[..i + 1][..i] == sorted[..i];
      lines := lines + more;
      i := i + 1;
    }
    assert sorted[..|sorted|] == sorted;
  }
}
