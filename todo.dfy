/**
 * The to-do service: one table of items keyed by an auto-increment id, and
 * the five handlers over it (create, list, get, partial update, delete).
 * The table is a map from id to the stored fields; the id counter is the
 * table's AUTOINCREMENT sequence value.
 */
module Todo {
  import opened Common

  /** The largest rowid the store can assign: ids are signed 64-bit integers. */
  const MAX_ROWID: int := 0x7FFF_FFFF_FFFF_FFFF

  const ITEM_NOT_FOUND: string := "Item not found"

  /** The message of the storage layer when no further rowid can be assigned. */
  const DATABASE_FULL: string := "database or disk is full"

  /** The body of a create request, and the fields stored for one row. */
  datatype TodoItem = TodoItem(title: string, description: Option<string>, completed: bool)

  /** A create request that carries only a title: the other fields take their declared defaults. */
  function FromTitle(title: string): (item: TodoItem)
    ensures item.title == title && item.description == None && !item.completed
  {
    TodoItem(title, None, false)
  }

  /** A stored item as the handlers return it: its fields together with its id. */
  datatype TodoItemResponse = TodoItemResponse(id: int, title: string, description: Option<string>, completed: bool)

  function Respond(id: int, item: TodoItem): TodoItemResponse {
    TodoItemResponse(id, item.title, item.description, item.completed)
  }

  /** The body of an update request: every field may be left out (null). */
  datatype TodoItemUpdate = TodoItemUpdate(title: Option<string>, description: Option<string>, completed: Option<bool>)

  /** The update request that leaves every field out. */
  const NoChange: TodoItemUpdate := TodoItemUpdate(None, None, None)

  /**
   * The partial-update rule: a field present in the patch replaces the stored
   * value, a field left out keeps it.
   */
  function Merge(current: TodoItem, patch: TodoItemUpdate): (merged: TodoItem)
    ensures patch.title.Some? ==> merged.title == patch.title.value
    ensures patch.description.Some? ==> merged.description == patch.description
    ensures patch.completed.Some? ==> merged.completed == patch.completed.value
    ensures patch.title.None? ==> merged.title == current.title
    ensures patch.description.None? ==> merged.description == current.description
    ensures patch.completed.None? ==> merged.completed == current.completed
    ensures merged.title != current.title ==> patch.title == Some(merged.title)
    ensures merged.description != current.description ==> patch.description.Some? && patch.description == merged.description
    ensures merged.completed != current.completed ==> patch.completed == Some(merged.completed)
  {
    TodoItem(
      patch.title.GetOr(current.title),
      if patch.description.Some? then patch.description else current.description,
      patch.completed.GetOr(current.completed))
  }

  /** An update that leaves every field out changes nothing. */
  lemma MergeNoChange(current: TodoItem)
    ensures Merge(current, NoChange) == current
  {
  }

  /** Applying the same update twice is the same as applying it once. */
  lemma MergeIdempotent(current: TodoItem, patch: TodoItemUpdate)
    ensures Merge(Merge(current, patch), patch) == Merge(current, patch)
  {
  }

  /** Since null means "left out", no update can clear a description once it is set. */
  lemma MergeKeepsDescription(current: TodoItem, patch: TodoItemUpdate)
    requires current.description.Some?
    ensures Merge(current, patch).description.Some?
  {
  }

  /** The single update equivalent to `first` followed by `second`: the later value of each field wins. */
  function Then(first: TodoItemUpdate, second: TodoItemUpdate): TodoItemUpdate {
    TodoItemUpdate(
      if second.title.Some? then second.title else first.title,
      if second.description.Some? then second.description else first.description,
      if second.completed.Some? then second.completed else first.completed)
  }

  /** Two successive updates have the effect of their combination. */
  lemma MergeThen(current: TodoItem, first: TodoItemUpdate, second: TodoItemUpdate)
    ensures Merge(Merge(current, first), second) == Merge(current, Then(first, second))
  {
  }

  /** The row under `id` as a listing entry, or nothing when no row has that id. */
  function RowAt(rows: map<int, TodoItem>, id: int): seq<TodoItemResponse> {
    if id in rows then [Respond(id, rows[id])] else []
  }

  /**
   * The rows with ids in [lo, hi), in ascending id order: the order in which
   * the unordered SELECT walks the table's rowid index.
   */
  function Scan(rows: map<int, TodoItem>, lo: int, hi: int): (s: seq<TodoItemResponse>)
    ensures |s| <= if lo < hi then hi - lo else 0
    decreases hi - lo
  {
    if hi <= lo then [] else RowAt(rows, lo) + Scan(rows, lo + 1, hi)
  }

  /** Every entry of `items` has an id in [lo, hi). */
  predicate IdsWithin(items: seq<TodoItemResponse>, lo: int, hi: int) {
    forall i :: 0 <= i < |items| ==> lo <= items[i].id < hi
  }

  /** The ids of `items` strictly ascend, so no id occurs twice. */
  predicate Ascending(items: seq<TodoItemResponse>) {
    forall i, j :: 0 <= i < j < |items| ==> items[i].id < items[j].id
  }

  /** Every entry of `items` is the stored row under its id. */
  predicate AllStored(items: seq<TodoItemResponse>, rows: map<int, TodoItem>) {
    forall i :: 0 <= i < |items| ==> items[i].id in rows && items[i] == Respond(items[i].id, rows[items[i].id])
  }

  /** Some entry of `items` has id `id`. */
  predicate Lists(items: seq<TodoItemResponse>, id: int) {
    exists i :: 0 <= i < |items| && items[i].id == id
  }

  /** A scan yields only ids of its range. */
  lemma {:induction false} ScanBounds(rows: map<int, TodoItem>, lo: int, hi: int)
    ensures IdsWithin(Scan(rows, lo, hi), lo, hi)
    decreases hi - lo
  {
    if lo < hi {
      var head: seq<TodoItemResponse>, tail: seq<TodoItemResponse> := RowAt(rows, lo), Scan(rows, lo + 1, hi);
      ScanBounds(rows, lo + 1, hi);
      forall i | 0 <= i < |head + tail|
        ensures lo <= (head + tail)[i].id < hi
      {
        if i >= |head| {
          assert (head + tail)[i] == tail[i - |head|];
        }
      }
    }
  }

  /** A scan lists ids in strictly ascending order. */
  lemma {:induction false} ScanAscending(rows: map<int, TodoItem>, lo: int, hi: int)
    ensures Ascending(Scan(rows, lo, hi))
    decreases hi - lo
  {
    if lo < hi {
      var head: seq<TodoItemResponse>, tail: seq<TodoItemResponse> := RowAt(rows, lo), Scan(rows, lo + 1, hi);
      ScanAscending(rows, lo + 1, hi);
      ScanBounds(rows, lo + 1, hi);
      forall i, j | 0 <= i < j < |head + tail|
        ensures (head + tail)[i].id < (head + tail)[j].id
      {
        assert (head + tail)[j] == tail[j - |head|];
        if i >= |head| {
          assert (head + tail)[i] == tail[i - |head|];
        }
      }
    }
  }

  /** Every item a scan yields is the stored row under its id. */
  lemma {:induction false} ScanSound(rows: map<int, TodoItem>, lo: int, hi: int)
    ensures AllStored(Scan(rows, lo, hi), rows)
    decreases hi - lo
  {
    if lo < hi {
      var head: seq<TodoItemResponse>, tail: seq<TodoItemResponse> := RowAt(rows, lo), Scan(rows, lo + 1, hi);
      ScanSound(rows, lo + 1, hi);
      forall i | 0 <= i < |head + tail|
        ensures (head + tail)[i].id in rows && (head + tail)[i] == Respond((head + tail)[i].id, rows[(head + tail)[i].id])
      {
        if i >= |head| {
          assert (head + tail)[i] == tail[i - |head|];
        }
      }
    }
  }

  /** Every stored id in the range appears in the scan. */
  lemma {:induction false} ScanComplete(rows: map<int, TodoItem>, lo: int, hi: int, id: int)
    requires lo <= id < hi && id in rows
    ensures Lists(Scan(rows, lo, hi), id)
    decreases hi - lo
  {
    var head: seq<TodoItemResponse>, tail: seq<TodoItemResponse> := RowAt(rows, lo), Scan(rows, lo + 1, hi);
    assert Scan(rows, lo, hi) == head + tail;
    if id == lo {
      assert (head + tail)[0].id == id;
    } else {
      ScanComplete(rows, lo + 1, hi, id);
      var i :| 0 <= i < |tail| && tail[i].id == id;
      assert (head + tail)[|head| + i].id == id;
    }
  }

  /** `items` holds only stored rows, and every stored row. */
  predicate Covers(items: seq<TodoItemResponse>, rows: map<int, TodoItem>) {
    AllStored(items, rows) && forall id :: id in rows ==> Lists(items, id)
  }

  /** A listing is empty exactly when the table is. */
  lemma ListingEmpty(rows: map<int, TodoItem>, a: seq<TodoItemResponse>)
    requires Covers(a, rows)
    ensures a == [] ==> forall id :: id !in rows
    ensures a != [] ==> a[0].id in rows
  {
  }

  /** Two ascending listings of the same rows start at the same id: the least key. */
  lemma SameFirstId(rows: map<int, TodoItem>, a: seq<TodoItemResponse>, b: seq<TodoItemResponse>)
    requires a != [] && b != []
    requires Ascending(a) && Covers(a, rows) && Ascending(b) && Covers(b, rows)
    ensures a[0].id == b[0].id
  {
    assert Lists(b, a[0].id) && Lists(a, b[0].id);
    var k :| 0 <= k < |b| && b[k].id == a[0].id;
    var m :| 0 <= m < |a| && a[m].id == b[0].id;
    assert b[0].id <= b[k].id && a[0].id <= a[m].id;
  }

  /** Dropping the first entry of an ascending listing leaves a listing of the other rows. */
  lemma ListingTail(rows: map<int, TodoItem>, a: seq<TodoItemResponse>)
    requires a != [] && Ascending(a) && Covers(a, rows)
    ensures Ascending(a[1..]) && Covers(a[1..], rows - {a[0].id})
  {
    var rest := rows - {a[0].id};
    forall i | 0 <= i < |a[1..]|
      ensures a[1..][i].id in rest && a[1..][i] == Respond(a[1..][i].id, rest[a[1..][i].id])
    {
      assert a[1..][i] == a[i + 1] && a[0].id < a[i + 1].id;
    }
    forall id | id in rest ensures Lists(a[1..], id) {
      assert Lists(a, id);
      var k :| 0 <= k < |a| && a[k].id == id;
      assert a[1..][k - 1].id == id;
    }
  }

  /**
   * The listing contract fixes the list: two lists that are both ascending
   * and both hold exactly the stored rows are equal.
   */
  lemma {:induction false} ListingDetermined(rows: map<int, TodoItem>, a: seq<TodoItemResponse>, b: seq<TodoItemResponse>)
    requires Ascending(a) && Covers(a, rows)
    requires Ascending(b) && Covers(b, rows)
    ensures a == b
    decreases |a|
  {
    if a == [] || b == [] {
      ListingEmpty(rows, a);
      ListingEmpty(rows, b);
    } else {
      SameFirstId(rows, a, b);
      ListingTail(rows, a);
      ListingTail(rows, b);
      ListingDetermined(rows - {a[0].id}, a[1..], b[1..]);
      assert a[0] == b[0];
      assert a == [a[0]] + a[1..] && b == [b[0]] + b[1..];
    }
  }

  /** The todo_items table. */
  class TodoStore {
    /** The stored fields of each row, keyed by id. */
    var rows: map<int, TodoItem>
    /** The table's AUTOINCREMENT sequence value: the largest id ever assigned, 0 before the first insert. */
    var lastId: int
    /** Every id ever assigned, including those of rows since deleted. */
    ghost var issued: set<int>

    ghost predicate Valid()
      reads this
    {
      && 0 <= lastId <= MAX_ROWID
      && rows.Keys <= issued
      && forall id :: id in issued ==> 1 <= id <= lastId
    }

    /** The table as created on first start: empty, no id assigned yet. */
    constructor ()
      ensures Valid()
      ensures rows == map[] && lastId == 0 && issued == {}
    {
      rows := map[];
      lastId := 0;
      issued := {};
    }

    /** Fetch one item by id. */
    function GetItem(id: int): (r: Result<TodoItemResponse>)
      reads this
      ensures r.Ok? <==> id in rows
      ensures r.Ok? ==> r.value.id == id && r.value == Respond(id, rows[id])
      ensures r.Err? ==> r.error == NotFound(ITEM_NOT_FOUND)
    {
      if id in rows then Ok(Respond(id, rows[id])) else Err(NotFound(ITEM_NOT_FOUND))
    }

    /** List every item: each stored row once, as stored, in ascending id order. */
    function GetAllItems(): (items: seq<TodoItemResponse>)
      reads this
      requires Valid()
      ensures Ascending(items)
      ensures AllStored(items, rows)
      ensures forall id :: id in rows ==> Lists(items, id)
    {
      ScanAscending(rows, 1, lastId + 1);
      ScanSound(rows, 1, lastId + 1);
      AllListed();
      Scan(rows, 1, lastId + 1)
    }

    /** Every stored row lies inside the scanned range [1, lastId]. */
    lemma AllListed()
      requires Valid()
      ensures forall id :: id in rows ==> Lists(Scan(rows, 1, lastId + 1), id)
    {
      forall id | id in rows
        ensures Lists(Scan(rows, 1, lastId + 1), id)
      {
        ScanComplete(rows, 1, lastId + 1, id);
      }
    }

    /**
     * Insert a new row under a fresh id: one more than the largest id ever
     * assigned. Once that reaches MAX_ROWID the insert fails and nothing changes.
     */
    method CreateItem(item: TodoItem) returns (r: Result<TodoItemResponse>)
      requires Valid()
      modifies this
      ensures Valid()
      ensures old(lastId) == MAX_ROWID ==>
        r == Err(ServerError(DATABASE_FULL)) && rows == old(rows) && lastId == old(lastId) && issued == old(issued)
      ensures old(lastId) < MAX_ROWID ==>
        && r.Ok?
        && r.value.id == old(lastId) + 1
        && r.value.id !in old(issued)
        && (forall id :: id in old(issued) ==> id < r.value.id)
        && rows == old(rows)[r.value.id := item]
        && lastId == r.value.id
        && issued == old(issued) + {r.value.id}
      ensures r.Ok? ==> GetItem(r.value.id) == r
    {
      if lastId == MAX_ROWID {
        return Err(ServerError(DATABASE_FULL));
      }
      var itemId := lastId + 1;
      rows := rows[itemId := item];
      lastId := itemId;
      issued := issued + {itemId};
      r := Ok(Respond(itemId, item));
    }

    /**
     * Partial update: NotFound, with nothing written, for an absent id;
     * otherwise the row under `id` becomes the merge of its fields with the patch.
     */
    method UpdateItem(id: int, patch: TodoItemUpdate) returns (r: Result<TodoItemResponse>)
      requires Valid()
      modifies this
      ensures Valid()
      ensures lastId == old(lastId) && issued == old(issued)
      ensures id !in old(rows) ==> r == Err(NotFound(ITEM_NOT_FOUND)) && rows == old(rows)
      ensures id in old(rows) ==>
        && r == Ok(Respond(id, Merge(old(rows)[id], patch)))
        && rows == old(rows)[id := Merge(old(rows)[id], patch)]
      ensures patch == NoChange ==> rows == old(rows)
      ensures r.Ok? ==> GetItem(id) == r
    {
      var current := GetItem(id);
      if current.Err? {
        return Err(NotFound(ITEM_NOT_FOUND));
      }
      var merged := Merge(rows[id], patch);
      if patch == NoChange {
        MergeNoChange(rows[id]);
      }
      rows := rows[id := merged];
      r := Ok(Respond(id, merged));
    }

    /**
     * Delete the row under `id`; NotFound when no row was removed. The id is
     * never assigned again.
     */
    method DeleteItem(id: int) returns (r: Result<()>)
      requires Valid()
      modifies this
      ensures Valid()
      ensures lastId == old(lastId) && issued == old(issued)
      ensures r.Ok? <==> id in old(rows)
      ensures r.Ok? ==> rows == old(rows) - {id}
      ensures r.Err? ==> r.error == NotFound(ITEM_NOT_FOUND) && rows == old(rows)
      ensures GetItem(id).Err?
    {
      var rowCount := if id in rows then 1 else 0;
      rows := rows - {id};
      if rowCount == 0 {
        return Err(NotFound(ITEM_NOT_FOUND));
      }
      r := Ok(());
    }
  }

  /** Worked examples of the service, as a client sees them. */
  method ScenarioCreateUpdateDelete() {
    var store := new TodoStore();
    var first := store.CreateItem(FromTitle("Buy milk"));
    assert first == Ok(TodoItemResponse(1, "Buy milk", None, false));
    var second := store.CreateItem(FromTitle("Walk the dog"));
    assert second.Ok? && second.value.id == 2;
    var updated := store.UpdateItem(1, TodoItemUpdate(None, None, Some(true)));
    assert updated == Ok(TodoItemResponse(1, "Buy milk", None, true));
    var missing := store.DeleteItem(999);
    assert missing == Err(NotFound(ITEM_NOT_FOUND));
  }

  method ScenarioListAfterDelete() {
    var store := new TodoStore();
    var a := store.CreateItem(FromTitle("a"));
    var b := store.CreateItem(FromTitle("b"));
    var c := store.CreateItem(FromTitle("c"));
    var d := store.DeleteItem(2);
    assert store.rows == map[1 := FromTitle("a"), 3 := FromTitle("c")];
    var items := store.GetAllItems();
    ghost var expected := [Respond(1, FromTitle("a")), Respond(3, FromTitle("c"))];
    assert Lists(expected, 1) && Lists(expected, 3) by {
      assert expected[0].id == 1 && expected[1].id == 3;
    }
    ListingDetermined(store.rows, items, expected);
    assert items == expected;
  }
}
