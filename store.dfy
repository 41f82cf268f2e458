/** The single table every endpoint shares: a map from (PK, SK) to items, and
    the order in which a scan returns them. Scans and queries read every
    matching item in one go (no pagination); a query or an index query is a
    filter over that order. */
module Store {
  import opened Values
  import opened Seqs

  /** The item's own `PK` and `SK` attributes name the key it is stored under. */
  predicate KeyedBy(item: Item, k: Key)
  {
    "PK" in item && item["PK"] == Str(k.pk) && "SK" in item && item["SK"] == Str(k.sk)
  }

  /** The key an item names by its `PK` and `SK` attributes, if both are strings. */
  function KeyAttrs(item: Item): (r: Option<Key>)
    ensures r.Some? ==> KeyedBy(item, r.value)
    ensures forall k :: KeyedBy(item, k) ==> r == Some(k)
  {
    if "PK" in item && item["PK"].Str? && "SK" in item && item["SK"].Str?
    then Some(Key(item["PK"].s, item["SK"].s))
    else None
  }

  /** The items stored under `keys`, in that order. */
  function RowsOf(keys: seq<Key>, items: map<Key, Item>): (r: seq<Item>)
    requires forall k :: k in keys ==> k in items
    ensures |r| == |keys|
    ensures forall i :: 0 <= i < |keys| ==> r[i] == items[keys[i]]
  {
    if keys == [] then [] else [items[keys[0]]] + RowsOf(keys[1..], items)
  }

  /** `keys` without `k`. */
  function Erase(keys: seq<Key>, k: Key): (r: seq<Key>)
    ensures forall x :: x in r <==> x in keys && x != k
  {
    if keys == [] then []
    else if keys[0] == k then Erase(keys[1..], k)
    else [keys[0]] + Erase(keys[1..], k)
  }

  /** Erasing keeps a list of distinct keys distinct. */
  lemma {:induction false} EraseDistinct(keys: seq<Key>, k: Key)
    requires Distinct(keys)
    ensures Distinct(Erase(keys, k))
  {
    if keys != [] {
      forall i, j | 0 <= i < j < |keys[1..]| ensures keys[1..][i] != keys[1..][j] {
        assert keys[1..][i] == keys[i + 1] && keys[1..][j] == keys[j + 1];
      }
      EraseDistinct(keys[1..], k);
      if keys[0] != k {
        var rest := Erase(keys[1..], k);
        forall i | 0 <= i < |keys[1..]| ensures keys[1..][i] != keys[0] {
          assert keys[1..][i] == keys[i + 1];
        }
        assert keys[0] !in rest;
        var r := [keys[0]] + rest;
        assert Erase(keys, k) == r;
        forall i, j | 0 <= i < j < |r| ensures r[i] != r[j] {
          if i == 0 {
            assert r[j] == rest[j - 1] && rest[j - 1] in rest;
          } else {
            assert r[i] == rest[i - 1] && r[j] == rest[j - 1];
          }
        }
      }
    }
  }

  /** Every row names its key by its own attributes. */
  predicate AllKeyed(rows: seq<Item>)
  {
    forall i :: 0 <= i < |rows| ==> KeyAttrs(rows[i]).Some?
  }

  /** The stored items after `put_item` of each row in turn. */
  function PutAll(items: map<Key, Item>, rows: seq<Item>): map<Key, Item>
    requires AllKeyed(rows)
  {
    if rows == [] then items
    else
      var last := rows[|rows| - 1];
      PutAll(items, rows[..|rows| - 1])[KeyAttrs(last).value := last]
  }

  /** The scan order after the same puts: a key joins the end when first stored. */
  function PutOrder(order: seq<Key>, items: map<Key, Item>, rows: seq<Item>): seq<Key>
    requires AllKeyed(rows)
  {
    if rows == [] then order
    else
      var init := rows[..|rows| - 1];
      var k := KeyAttrs(rows[|rows| - 1]).value;
      if k in PutAll(items, init) then PutOrder(order, items, init) else PutOrder(order, items, init) + [k]
  }

  /** One more put extends both by that row. */
  lemma PutStep(order: seq<Key>, items: map<Key, Item>, rows: seq<Item>, row: Item)
    requires AllKeyed(rows) && KeyAttrs(row).Some?
    ensures AllKeyed(rows + [row])
    ensures PutAll(items, rows + [row]) == PutAll(items, rows)[KeyAttrs(row).value := row]
    ensures PutOrder(order, items, rows + [row]) ==
      if KeyAttrs(row).value in PutAll(items, rows) then PutOrder(order, items, rows) else PutOrder(order, items, rows) + [KeyAttrs(row).value]
  {
    assert (rows + [row])[..|rows|] == rows;
  }

  /** A key no row names keeps whatever was stored under it, or stays absent. */
  lemma {:induction false} PutAllElsewhere(items: map<Key, Item>, rows: seq<Item>, k: Key)
    requires AllKeyed(rows)
    requires forall i :: 0 <= i < |rows| ==> KeyAttrs(rows[i]).value != k
    ensures k in PutAll(items, rows) <==> k in items
    ensures k in items ==> PutAll(items, rows)[k] == items[k]
  {
    if rows != [] {
      PutAllElsewhere(items, rows[..|rows| - 1], k);
    }
  }

  /** A row that no later row overwrites is stored under its key. */
  lemma {:induction false} PutAllStored(items: map<Key, Item>, rows: seq<Item>, j: nat)
    requires AllKeyed(rows) && j < |rows|
    requires forall i :: j < i < |rows| ==> KeyAttrs(rows[i]) != KeyAttrs(rows[j])
    ensures KeyAttrs(rows[j]).value in PutAll(items, rows)
    ensures PutAll(items, rows)[KeyAttrs(rows[j]).value] == rows[j]
  {
    if j < |rows| - 1 {
      PutAllStored(items, rows[..|rows| - 1], j);
    }
  }

  class Table {
    var items: map<Key, Item>
    /** The order a scan visits the keys in: each stored key exactly once. */
    var order: seq<Key>

    ghost predicate Valid()
      reads this
    {
      && (forall k :: k in items ==> KeyedBy(items[k], k))
      && (forall k :: k in order <==> k in items)
      && Distinct(order)
    }

    constructor ()
      ensures Valid() && items == map[] && order == []
    {
      items := map[];
      order := [];
    }

    /** `table.scan()`: every stored item, once. */
    function Rows(): (r: seq<Item>)
      reads this
      requires Valid()
      ensures |r| == |order|
      ensures forall i :: 0 <= i < |r| ==> order[i] in items && r[i] == items[order[i]]
    {
      RowsOf(order, items)
    }

    /** `table.put_item(Item=item)`: the item replaces whatever was stored
        under the key its attributes name; nothing else changes. */
    method Put(item: Item)
      requires Valid()
      requires KeyAttrs(item).Some?
      modifies this
      ensures Valid()
      ensures items == old(items)[KeyAttrs(item).value := item]
      ensures order == if KeyAttrs(item).value in old(items) then old(order) else old(order) + [KeyAttrs(item).value]
    {
      var k := KeyAttrs(item).value;
      if k !in items {
        order := order + [k];
      }
      items := items[k := item];
    }

    /** One `put_item` per row, in order. */
    method PutEach(rows: seq<Item>)
      requires Valid() && AllKeyed(rows)
      modifies this
      ensures Valid()
      ensures items == PutAll(old(items), rows)
      ensures order == PutOrder(old(order), old(items), rows)
    {
      var i := 0;
      while i < |rows|
        invariant 0 <= i <= |rows| && Valid()
        invariant items == PutAll(old(items), rows[..i])
        invariant order == PutOrder(old(order), old(items), rows[..i])
      {
        PutStep(old(order), old(items), rows[..i], rows[i]);
        assert rows[..i + 1] == rows[..i] + [rows[i]];
        Put(rows[i]);
        i := i + 1;
      }
      assert rows[..i] == rows;
    }

    /** `table.delete_item(Key=k)`: only `k` goes; deleting an absent key is
        not an error. */
    method Delete(k: Key)
      requires Valid()
      modifies this
      ensures Valid()
      ensures items == old(items) - {k}
      ensures order == Erase(old(order), k)
    {
      EraseDistinct(order, k);
      items := items - {k};
      order := Erase(order, k);
    }
  }

  /** An item a scan returns is one stored under some key, with matching key
      attributes, and every stored item is returned. */
  lemma {:induction false} InRows(t: Table, x: Item)
    requires t.Valid()
    ensures x in t.Rows() <==> exists k :: k in t.items && t.items[k] == x
  {
    var r := t.Rows();
    if x in r {
      var i :| 0 <= i < |r| && r[i] == x;
      assert t.order[i] in t.items;
    }
    if exists k :: k in t.items && t.items[k] == x {
      var k :| k in t.items && t.items[k] == x;
      var i :| 0 <= i < |t.order| && t.order[i] == k;
      assert r[i] == x;
    }
  }
}
