/** What the topic, level and exercise endpoints share: the truthy `get_item`,
    the `is_published` filter, attaching a `LANG#` translation, the sort by a
    numeric position attribute, and the stamps an update writes. */
module Catalog {
  import opened Values
  import opened Keys
  import opened Seqs
  import opened Sorting
  import opened Store

  /** `table.get_item(Key=k).get('Item')`, when truthy. */
  function Lookup(items: map<Key, Item>, k: Key): Option<Item>
  {
    if k in items && items[k] != map[] then Some(items[k]) else None
  }

  /** `if language:` */
  predicate LanguageGiven(language: Option<string>)
  {
    language.Some? && language.value != ""
  }

  /** The translation stored under `(owner, LANG#language)`, if a language
      is given and the translation exists. */
  function TranslationOf(items: map<Key, Item>, owner: string, language: Option<string>): Option<Item>
  {
    if LanguageGiven(language) then Lookup(items, Key(owner, LangPrefix + language.value)) else None
  }

  /** `item['translation'] = trans_resp['Item']` when there is one. */
  function WithTranslation(items: map<Key, Item>, item: Item, owner: string, language: Option<string>): (r: Item)
    ensures forall a :: a != "translation" ==> (a in r <==> a in item) && (a in item ==> r[a] == item[a])
    ensures TranslationOf(items, owner, language).Some? ==>
      "translation" in r && r["translation"] == Dict(TranslationOf(items, owner, language).value)
    ensures TranslationOf(items, owner, language).None? ==> r == item
  {
    match TranslationOf(items, owner, language)
    case Some(t) => item["translation" := Dict(t)]
    case None => item
  }

  /** The list endpoints' lookup, keyed by the item's own id attribute and
      skipped when that attribute is missing or empty. */
  function ListedTranslation(items: map<Key, Item>, x: Item, idAttr: string, prefix: string, language: Option<string>): Item
  {
    match Get(x, idAttr, Null)
    case Str(id) => if id != "" then WithTranslation(items, x, prefix + id, language) else x
    case _ => x
  }

  /** The list after the translation loop. */
  function AttachAll(items: map<Key, Item>, xs: seq<Item>, idAttr: string, prefix: string, language: Option<string>): (r: seq<Item>)
    ensures |r| == |xs|
    ensures forall i :: 0 <= i < |xs| ==> r[i] == ListedTranslation(items, xs[i], idAttr, prefix, language)
  {
    if xs == [] then []
    else AttachAll(items, xs[..|xs| - 1], idAttr, prefix, language) + [ListedTranslation(items, xs[|xs| - 1], idAttr, prefix, language)]
  }

  /** The list endpoints' translation loop: for each item with a non-empty
      id, one `get_item` of its `LANG#` row, attached when found. */
  method AttachTranslations(items: map<Key, Item>, xs: seq<Item>, idAttr: string, prefix: string, language: Option<string>)
    returns (r: seq<Item>)
    ensures r == AttachAll(items, xs, idAttr, prefix, language)
  {
    if !LanguageGiven(language) {
      AttachAllWithoutLanguage(items, xs, idAttr, prefix, language);
      return xs;
    }
    r := [];
    var i := 0;
    while i < |xs|
      invariant 0 <= i <= |xs|
      invariant r == AttachAll(items, xs[..i], idAttr, prefix, language)
    {
      var x := xs[i];
      var id := Get(x, idAttr, Null);
      if id.Str? && id.s != "" {
        var trans := Lookup(items, Key(prefix + id.s, LangPrefix + language.value));
        if trans.Some? {
          x := x["translation" := Dict(trans.value)];
        }
      }
      assert xs[..i + 1][..i] == xs[..i];
      r := r + [x];
      i := i + 1;
    }
    assert xs[..i] == xs;
  }

  /** Without a language the translation loop changes nothing. */
  lemma AttachAllWithoutLanguage(items: map<Key, Item>, xs: seq<Item>, idAttr: string, prefix: string, language: Option<string>)
    requires !LanguageGiven(language)
    ensures AttachAll(items, xs, idAttr, prefix, language) == xs
  {
  }

  /** `t.get('is_published', False)` */
  predicate IsPublished(x: Item)
  {
    Truthy(Get(x, "is_published", Bool(false)))
  }

  /** `[t for t in xs if t.get('is_published', False)]` */
  function Published(xs: seq<Item>): seq<Item>
  {
    Filter(xs, IsPublished)
  }

  /** `int(x.get(attr, 999))`; `None` where `int()` raises. */
  function Position(x: Item, attr: string): Option<int>
  {
    IntOf(Get(x, attr, Int(999)))
  }

  /** The sort key, for items whose position converts. */
  function ByPosition(attr: string): Item -> real
  {
    x => match Position(x, attr) case Some(n) => n as real case None => 0.0
  }

  predicate AllPositioned(xs: seq<Item>, attr: string)
  {
    forall i :: 0 <= i < |xs| ==> Position(xs[i], attr).Some?
  }

  /** `xs.sort(key=lambda x: int(x.get(attr, 999)))`: `int()` is applied to
      every element before anything moves, so one bad position is a 500. */
  function SortByPosition(xs: seq<Item>, attr: string): (r: Result<seq<Item>>)
    ensures r.Failure? <==> !AllPositioned(xs, attr)
    ensures r.Failure? ==> r.status == ServerError
    ensures r.Ok? ==> |r.value| == |xs|
  {
    if AllPositioned(xs, attr) then
      SortIsPermutation(xs, ByPosition(attr));
      Ok(SortBy(xs, ByPosition(attr)))
    else Failure(ServerError)
  }

  /** The sorted list holds the same items, in non-decreasing position, and
      items with equal positions keep their order. */
  lemma SortByPositionFacts(xs: seq<Item>, attr: string)
    requires SortByPosition(xs, attr).Ok?
    ensures var r := SortByPosition(xs, attr).value;
      && multiset(r) == multiset(xs)
      && AllPositioned(r, attr)
      && (forall i, j :: 0 <= i < j < |r| ==> Position(r[i], attr).value <= Position(r[j], attr).value)
      && (forall v :: WithKey(r, ByPosition(attr), v) == WithKey(xs, ByPosition(attr), v))
  {
    var key := ByPosition(attr);
    var r := SortBy(xs, key);
    SortIsPermutation(xs, key);
    SortIsSorted(xs, key);
    forall v ensures WithKey(r, key, v) == WithKey(xs, key, v) {
      SortIsStable(xs, key, v);
    }
    forall i | 0 <= i < |r| ensures Position(r[i], attr).Some? {
      assert r[i] in multiset(xs);
    }
    forall i, j | 0 <= i < j < |r| ensures Position(r[i], attr).value <= Position(r[j], attr).value {
      assert key(r[i]) <= key(r[j]);
    }
  }

  /** A list response: the items and `len(items)`. */
  datatype Listing = Listing(entries: seq<Item>, total: nat)

  /** Translations attached, then sorted by position, then counted. */
  function Listed(items: map<Key, Item>, xs: seq<Item>, idAttr: string, prefix: string, language: Option<string>, attr: string): (r: Result<Listing>)
    ensures r.Failure? ==> r.status == ServerError
    ensures r.Ok? ==> r.value.total == |r.value.entries| == |xs|
  {
    match SortByPosition(AttachAll(items, xs, idAttr, prefix, language), attr)
    case Ok(s) => Ok(Listing(s, |s|))
    case Failure(st) => Failure(st)
  }

  /** Attaching a translation leaves every position as it was, so the list
      is sorted the way the query result's positions say. */
  lemma ListedPositions(items: map<Key, Item>, xs: seq<Item>, idAttr: string, prefix: string, language: Option<string>, attr: string)
    requires attr != "translation"
    ensures Listed(items, xs, idAttr, prefix, language, attr).Ok? <==> AllPositioned(xs, attr)
    ensures Listed(items, xs, idAttr, prefix, language, attr).Ok? ==>
      var r := Listed(items, xs, idAttr, prefix, language, attr).value.entries;
      && AllPositioned(r, attr)
      && (forall i, j :: 0 <= i < j < |r| ==> Position(r[i], attr).value <= Position(r[j], attr).value)
      && multiset(r) == multiset(AttachAll(items, xs, idAttr, prefix, language))
  {
    var ys := AttachAll(items, xs, idAttr, prefix, language);
    forall i | 0 <= i < |xs| ensures Position(ys[i], attr) == Position(xs[i], attr) {
      assert Get(ys[i], attr, Int(999)) == Get(xs[i], attr, Int(999));
    }
    if AllPositioned(ys, attr) {
      SortByPositionFacts(ys, attr);
    }
  }

  /** The get endpoints: the item under `k` (404 when absent), with the
      translation stored under `(owner, LANG#language)` attached. */
  function Fetched(items: map<Key, Item>, k: Key, owner: string, language: Option<string>): (r: Result<Item>)
    ensures r.Failure? <==> k !in items || items[k] == map[]
    ensures r.Failure? ==> r.status == NotFound
    ensures r.Ok? ==> forall a :: a != "translation" ==> (a in r.value <==> a in items[k]) && (a in r.value ==> r.value[a] == items[k][a])
  {
    match Lookup(items, k)
    case None => Failure(NotFound)
    case Some(item) => Ok(WithTranslation(items, item, owner, language))
  }

  /** The get endpoints' body: 404 without the item, then the optional
      translation lookup. */
  method FetchItem(items: map<Key, Item>, k: Key, owner: string, language: Option<string>) returns (r: Result<Item>)
    ensures r == Fetched(items, k, owner, language)
  {
    if k !in items || items[k] == map[] {
      return Failure(NotFound);
    }
    var item := items[k];
    if LanguageGiven(language) {
      var trans := Lookup(items, Key(owner, LangPrefix + language.value));
      if trans.Some? {
        item := item["translation" := Dict(trans.value)];
      }
    }
    r := Ok(item);
  }

  /** Reading back an item written under `k`, after rows none of which is
      stored under `k`: the item itself, and, when row `j` is the translation
      for `lang` and no later row replaces it, with that row attached. */
  lemma FetchedAfterPuts(items: map<Key, Item>, k: Key, item: Item, rows: seq<Item>, owner: string, lang: string, j: nat)
    requires AllKeyed(rows) && item != map[]
    requires forall i :: 0 <= i < |rows| ==> KeyAttrs(rows[i]).value != k
    requires lang != "" && j < |rows| && KeyAttrs(rows[j]) == Some(Key(owner, LangPrefix + lang)) && rows[j] != map[]
    requires forall i :: j < i < |rows| ==> KeyAttrs(rows[i]) != KeyAttrs(rows[j])
    ensures Fetched(PutAll(items[k := item], rows), k, owner, None) == Ok(item)
    ensures Fetched(PutAll(items[k := item], rows), k, owner, Some(lang)) == Ok(item["translation" := Dict(rows[j])])
  {
    PutAllElsewhere(items[k := item], rows, k);
    PutAllStored(items[k := item], rows, j);
  }

  /** `current_user['user_id']`; `None` where the lookup raises. */
  function ActingUser(currentUser: Item): Option<Value>
  {
    if "user_id" in currentUser then Some(currentUser["user_id"]) else None
  }

  /** Assigning every attribute of `patch` on `item`, one after another. */
  function Patched(item: Item, patch: Item): (r: Item)
    ensures forall a :: a in r <==> a in item || a in patch
    ensures forall a :: a in patch ==> r[a] == patch[a]
    ensures forall a :: a in item && a !in patch ==> r[a] == item[a]
  {
    item + patch
  }

  /** Applying the same patch again changes nothing more. */
  lemma PatchedTwice(item: Item, patch: Item)
    ensures Patched(Patched(item, patch), patch) == Patched(item, patch)
  {
    assert Patched(Patched(item, patch), patch).Keys == Patched(item, patch).Keys;
  }

  /** One more assignment is one more attribute in the patch. */
  lemma PatchedAssign(item: Item, patch: Item, a: string, v: Value)
    ensures Patched(item, patch)[a := v] == Patched(item, patch[a := v])
  {
    assert Patched(item, patch)[a := v].Keys == Patched(item, patch[a := v]).Keys;
  }

  /** Stamping after the field assignments is one patch holding both. */
  lemma PatchedThenStamped(item: Item, fields: Item, now: string, userId: Value)
    ensures Stamped(Patched(item, fields), now, userId) == Patched(item, Stamped(fields, now, userId))
  {
    assert Stamped(Patched(item, fields), now, userId).Keys == Patched(item, Stamped(fields, now, userId)).Keys;
  }

  /** A patch that leaves `PK` and `SK` alone keeps the item under its key. */
  lemma PatchedKeepsKey(item: Item, patch: Item, k: Key)
    requires KeyedBy(item, k) && "PK" !in patch && "SK" !in patch
    ensures KeyedBy(Patched(item, patch), k) && KeyAttrs(Patched(item, patch)) == Some(k)
  {
  }

  /** The end of every update: the patched item gets its two stamps and is
      put back under its key. */
  method PutStamped(table: Table, key: Key, stored: Item, fields: Item, item: Item, now: string, userId: Value) returns (r: Item)
    requires table.Valid() && key in table.items && table.items[key] == stored
    requires "PK" !in fields && "SK" !in fields && item == Patched(stored, fields)
    modifies table
    ensures r == Stamped(Patched(stored, fields), now, userId)
    ensures table.Valid() && table.items == old(table.items)[key := r] && table.order == old(table.order)
  {
    r := Stamped(item, now, userId);
    PatchedThenStamped(stored, fields, now, userId);
    PatchedKeepsKey(stored, Stamped(fields, now, userId), key);
    table.Put(r);
  }

  /** The two stamps every update writes last. */
  function Stamped(item: Item, now: string, userId: Value): (r: Item)
    ensures "updated_at" in r && r["updated_at"] == Str(now)
    ensures "updated_by" in r && r["updated_by"] == userId
    ensures r.Keys == item.Keys + {"updated_at", "updated_by"}
    ensures forall a :: a in item && a != "updated_at" && a != "updated_by" ==> r[a] == item[a]
  {
    item["updated_at" := Str(now)]["updated_by" := userId]
  }
}
