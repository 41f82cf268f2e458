/** The topic endpoints: list (index query on `entity_type`), get, create
    with translations, partial update and delete of a topic's `METADATA`
    row. */
module Topics {
  import opened Values
  import opened Keys
  import opened Seqs
  import opened Store
  import opened Catalog

  datatype TopicTranslationInput = TopicTranslationInput(title: string, description: Option<string>)

  /** The request body `TopicCreate`; `translations` is the dict's items in order. */
  datatype TopicCreate = TopicCreate(
    slug: string,
    defaultTitle: string,
    order: Option<int>,
    isPublished: bool,
    translations: Option<seq<(string, TopicTranslationInput)>>)

  /** The request body `TopicUpdate`: only supplied fields change. */
  datatype TopicUpdate = TopicUpdate(
    slug: Option<string>,
    defaultTitle: Option<string>,
    order: Option<int>,
    isPublished: Option<bool>)

  const TopicEntity := "topic"
  const TopicTranslationEntity := "topic_translation"

  // ----- Reads -----

  /** An item of the index `entity_type-created_at-index` under `topic`: only
      items that carry both index attributes are in the index. */
  predicate InTopicIndex(x: Item)
  {
    Get(x, "entity_type", Null) == Str(TopicEntity) && Get(x, "created_at", Null).Str?
  }

  /** The topics the list endpoint goes on to translate and sort. */
  function Candidates(rows: seq<Item>, publishedOnly: bool): seq<Item>
  {
    var topics := Filter(rows, InTopicIndex);
    if publishedOnly then Published(topics) else topics
  }

  function TopicList(rows: seq<Item>, items: map<Key, Item>, language: Option<string>, publishedOnly: bool): Result<Listing>
  {
    Listed(items, Candidates(rows, publishedOnly), "topic_id", TopicPrefix, language, "order")
  }

  /** The listed topics are exactly the indexed topics (published ones when
      asked), each with its translation, sorted by `order`, counted in
      `total`; a non-numeric `order` anywhere is a 500. */
  lemma TopicListFacts(rows: seq<Item>, items: map<Key, Item>, language: Option<string>, publishedOnly: bool)
    ensures forall y :: y in Candidates(rows, publishedOnly) <==>
      y in rows && InTopicIndex(y) && (publishedOnly ==> IsPublished(y))
    ensures TopicList(rows, items, language, publishedOnly).Ok? <==> AllPositioned(Candidates(rows, publishedOnly), "order")
    ensures TopicList(rows, items, language, publishedOnly).Ok? ==>
      var l := TopicList(rows, items, language, publishedOnly).value;
      && l.total == |l.entries| == |Candidates(rows, publishedOnly)|
      && multiset(l.entries) == multiset(AttachAll(items, Candidates(rows, publishedOnly), "topic_id", TopicPrefix, language))
      && AllPositioned(l.entries, "order")
      && (forall i, j :: 0 <= i < j < |l.entries| ==> Position(l.entries[i], "order").value <= Position(l.entries[j], "order").value)
  {
    ListedPositions(items, Candidates(rows, publishedOnly), "topic_id", TopicPrefix, language, "order");
  }

  /** `list_topics` */
  method ListTopics(table: Table, language: Option<string>, publishedOnly: bool) returns (r: Result<Listing>)
    requires table.Valid()
    ensures r == TopicList(table.Rows(), table.items, language, publishedOnly)
  {
    var topics := Filter(table.Rows(), InTopicIndex);
    if publishedOnly {
      topics := Published(topics);
    }
    var attached := AttachTranslations(table.items, topics, "topic_id", TopicPrefix, language);
    var sorted := SortByPosition(attached, "order");
    if sorted.Failure? {
      return Failure(ServerError);
    }
    r := Ok(Listing(sorted.value, |sorted.value|));
  }

  /** `get_topic`: 404 without a `METADATA` row. */
  method GetTopic(table: Table, topicId: string, language: Option<string>) returns (r: Result<Item>)
    ensures r == Fetched(table.items, KeyOf(TopicRow(topicId)), TopicPrefix + topicId, language)
  {
    r := FetchItem(table.items, KeyOf(TopicRow(topicId)), TopicPrefix + topicId, language);
  }

  // ----- Writes -----

  /** The `METADATA` row `create_topic` writes; `order` only when given. */
  function TopicItem(topicId: string, data: TopicCreate, now: string, userId: Value): (r: Item)
    ensures KeyedBy(r, KeyOf(TopicRow(topicId)))
  {
    var item := map[
      "PK" := Str(TopicPrefix + topicId),
      "SK" := Str(Metadata),
      "entity_type" := Str(TopicEntity),
      "topic_id" := Str(topicId),
      "slug" := Str(data.slug),
      "default_title" := Str(data.defaultTitle),
      "is_published" := Bool(data.isPublished),
      "created_at" := Str(now),
      "updated_at" := Str(now),
      "created_by" := userId];
    if data.order.Some? then item["order" := Int(data.order.value)] else item
  }

  /** A created topic is an indexed `topic` row, published as asked, stamped
      with its creation and creator, with `order` only when one was given. */
  lemma TopicItemFields(topicId: string, data: TopicCreate, now: string, userId: Value)
    ensures var r := TopicItem(topicId, data, now, userId);
      && InTopicIndex(r)
      && "is_published" in r && r["is_published"] == Bool(data.isPublished)
      && ("order" in r <==> data.order.Some?)
      && (data.order.Some? ==> Position(r, "order") == data.order)
      && "created_by" in r && r["created_by"] == userId
      && "topic_id" in r && r["topic_id"] == Str(topicId)
  {
  }

  /** The `LANG#` row of one translation; `description` only when non-empty. */
  function TopicTranslationItem(topicId: string, lang: string, t: TopicTranslationInput): (r: Item)
    ensures KeyedBy(r, KeyOf(TopicTranslationRow(topicId, lang)))
  {
    var item := map[
      "PK" := Str(TopicPrefix + topicId),
      "SK" := Str(LangPrefix + lang),
      "entity_type" := Str(TopicTranslationEntity),
      "topic_id" := Str(topicId),
      "language_code" := Str(lang),
      "title" := Str(t.title)];
    if t.description.Some? && t.description.value != "" then item["description" := Str(t.description.value)] else item
  }

  /** A translation row records its language and title, and a description
      only when a non-empty one was sent. */
  lemma TopicTranslationItemFields(topicId: string, lang: string, t: TopicTranslationInput)
    ensures var r := TopicTranslationItem(topicId, lang, t);
      && "language_code" in r && r["language_code"] == Str(lang)
      && "title" in r && r["title"] == Str(t.title)
      && ("description" in r <==> t.description.Some? && t.description.value != "")
  {
  }

  function TranslationItems(topicId: string, trs: seq<(string, TopicTranslationInput)>): (r: seq<Item>)
    ensures |r| == |trs| && AllKeyed(r)
    ensures forall i :: 0 <= i < |trs| ==> r[i] == TopicTranslationItem(topicId, trs[i].0, trs[i].1)
  {
    if trs == [] then []
    else TranslationItems(topicId, trs[..|trs| - 1]) + [TopicTranslationItem(topicId, trs[|trs| - 1].0, trs[|trs| - 1].1)]
  }

  /** `if topic_data.translations:` */
  function GivenTranslations(data: TopicCreate): seq<(string, TopicTranslationInput)>
  {
    if data.translations.Some? then data.translations.value else []
  }

  /** The stored items after `create_topic`: the topic, then one row per
      translation. */
  function AfterCreate(items: map<Key, Item>, topicId: string, data: TopicCreate, now: string, userId: Value): map<Key, Item>
  {
    PutAll(items[KeyOf(TopicRow(topicId)) := TopicItem(topicId, data, now, userId)], TranslationItems(topicId, GivenTranslations(data)))
  }

  /** `create_topic`, with the generated id `topicId` and the clock `now`:
      500 before anything is written when the admin record has no
      `user_id`; otherwise the topic and its translations are written and the
      topic is returned. */
  method CreateTopic(table: Table, data: TopicCreate, topicId: string, now: string, currentUser: Item) returns (r: Result<Item>)
    requires table.Valid()
    modifies table
    ensures table.Valid()
    ensures ActingUser(currentUser).None? ==> r == Failure(ServerError) && unchanged(table)
    ensures ActingUser(currentUser).Some? ==>
      var key := KeyOf(TopicRow(topicId));
      var item := TopicItem(topicId, data, now, ActingUser(currentUser).value);
      && r == Ok(item)
      && table.items == AfterCreate(old(table.items), topicId, data, now, ActingUser(currentUser).value)
      && table.order == PutOrder(if key in old(table.items) then old(table.order) else old(table.order) + [key],
                                 old(table.items)[key := item], TranslationItems(topicId, GivenTranslations(data)))
  {
    if "user_id" !in currentUser {
      return Failure(ServerError);
    }
    var item := TopicItem(topicId, data, now, currentUser["user_id"]);
    table.Put(item);
    if data.translations.Some? && data.translations.value != [] {
      table.PutEach(TranslationItems(topicId, data.translations.value));
    }
    r := Ok(item);
  }

  /** After a create, reading the topic back gives the created item. */
  lemma CreateThenGet(items: map<Key, Item>, topicId: string, data: TopicCreate, now: string, userId: Value)
    ensures Fetched(AfterCreate(items, topicId, data, now, userId), KeyOf(TopicRow(topicId)), TopicPrefix + topicId, None)
      == Ok(TopicItem(topicId, data, now, userId))
  {
    var key := KeyOf(TopicRow(topicId));
    var trs := GivenTranslations(data);
    var rows := TranslationItems(topicId, trs);
    forall i | 0 <= i < |rows| ensures KeyAttrs(rows[i]).value != key {
      assert KeyAttrs(rows[i]) == Some(KeyOf(TopicTranslationRow(topicId, trs[i].0)));
      TopicPartitionDisjoint(topicId, trs[i].0, "");
    }
    PutAllElsewhere(items[key := TopicItem(topicId, data, now, userId)], rows, key);
  }

  /** With distinct language codes, reading the topic back in one of them
      attaches the translation row that was created for it. */
  lemma CreateThenGetTranslated(items: map<Key, Item>, topicId: string, data: TopicCreate, now: string, userId: Value, j: nat)
    requires j < |GivenTranslations(data)| && GivenTranslations(data)[j].0 != ""
    requires forall a, b :: 0 <= a < b < |GivenTranslations(data)| ==> GivenTranslations(data)[a].0 != GivenTranslations(data)[b].0
    ensures var trs := GivenTranslations(data);
      var got := Fetched(AfterCreate(items, topicId, data, now, userId), KeyOf(TopicRow(topicId)), TopicPrefix + topicId, Some(trs[j].0));
      && got.Ok?
      && "translation" in got.value
      && got.value["translation"] == Dict(TopicTranslationItem(topicId, trs[j].0, trs[j].1))
  {
    var trs := GivenTranslations(data);
    var rows := TranslationItems(topicId, trs);
    forall i | j < i < |rows| ensures KeyAttrs(rows[i]) != KeyAttrs(rows[j]) {
      if KeyAttrs(rows[i]) == KeyAttrs(rows[j]) {
        KeyOfInjective(TopicTranslationRow(topicId, trs[i].0), TopicTranslationRow(topicId, trs[j].0));
      }
    }
    PutAllStored(items[KeyOf(TopicRow(topicId)) := TopicItem(topicId, data, now, userId)], rows, j);
    CreateThenGet(items, topicId, data, now, userId);
  }

  /** The supplied fields of a `TopicUpdate`, as the attributes they set. */
  function TopicFields(u: TopicUpdate): (p: Item)
    ensures "PK" !in p && "SK" !in p
    ensures "slug" in p <==> u.slug.Some?
    ensures "default_title" in p <==> u.defaultTitle.Some?
    ensures "order" in p <==> u.order.Some?
    ensures "is_published" in p <==> u.isPublished.Some?
  {
    var a := if u.slug.Some? then map["slug" := Str(u.slug.value)] else map[];
    var b := if u.defaultTitle.Some? then a["default_title" := Str(u.defaultTitle.value)] else a;
    var c := if u.order.Some? then b["order" := Int(u.order.value)] else b;
    if u.isPublished.Some? then c["is_published" := Bool(u.isPublished.value)] else c
  }

  /** Each supplied field takes the sent value. */
  lemma TopicFieldsValues(u: TopicUpdate)
    ensures var p := TopicFields(u);
      && (u.slug.Some? ==> p["slug"] == Str(u.slug.value))
      && (u.defaultTitle.Some? ==> p["default_title"] == Str(u.defaultTitle.value))
      && (u.order.Some? ==> p["order"] == Int(u.order.value))
      && (u.isPublished.Some? ==> p["is_published"] == Bool(u.isPublished.value))
  {
  }

  /** The field assignments of `update_topic`, one supplied field at a time. */
  method ApplyTopicFields(stored: Item, u: TopicUpdate) returns (item: Item)
    ensures item == Patched(stored, TopicFields(u))
  {
    item := stored;
    if u.slug.Some? {
      item := item["slug" := Str(u.slug.value)];
    }
    if u.defaultTitle.Some? {
      item := item["default_title" := Str(u.defaultTitle.value)];
    }
    if u.order.Some? {
      item := item["order" := Int(u.order.value)];
    }
    if u.isPublished.Some? {
      item := item["is_published" := Bool(u.isPublished.value)];
    }
  }

  /** `update_topic`: 404 without the row, 500 when the admin record has no
      `user_id`; nothing is written then. */
  function UpdatedTopic(items: map<Key, Item>, topicId: string, u: TopicUpdate, now: string, currentUser: Item): (r: Result<Item>)
    ensures r.Failure? <==> Lookup(items, KeyOf(TopicRow(topicId))).None? || ActingUser(currentUser).None?
    ensures r.Failure? ==> r.status == (if Lookup(items, KeyOf(TopicRow(topicId))).None? then NotFound else ServerError)
  {
    match Lookup(items, KeyOf(TopicRow(topicId)))
    case None => Failure(NotFound)
    case Some(item) =>
      match ActingUser(currentUser)
      case None => Failure(ServerError)
      case Some(userId) => Ok(Stamped(Patched(item, TopicFields(u)), now, userId))
  }

  /** An update sets the supplied fields, stamps the time and the admin,
      keeps every other attribute and leaves the item under its key. */
  lemma UpdateTopicFacts(items: map<Key, Item>, topicId: string, u: TopicUpdate, now: string, currentUser: Item)
    requires UpdatedTopic(items, topicId, u, now, currentUser).Ok?
    ensures var r := UpdatedTopic(items, topicId, u, now, currentUser).value;
      var stored := items[KeyOf(TopicRow(topicId))];
      && (forall a :: a in TopicFields(u) ==> a in r && r[a] == TopicFields(u)[a])
      && (forall a :: a in stored && a !in TopicFields(u) && a != "updated_at" && a != "updated_by" ==> a in r && r[a] == stored[a])
      && "updated_at" in r && r["updated_at"] == Str(now)
      && "updated_by" in r && r["updated_by"] == ActingUser(currentUser).value
  {
    TopicFieldsValues(u);
  }

  /** Sending the same update again (same time, same admin) stores the same
      item: the endpoint is idempotent. */
  lemma UpdateTopicIdempotent(items: map<Key, Item>, topicId: string, u: TopicUpdate, now: string, currentUser: Item)
    requires UpdatedTopic(items, topicId, u, now, currentUser).Ok?
    ensures var once := UpdatedTopic(items, topicId, u, now, currentUser).value;
      UpdatedTopic(items[KeyOf(TopicRow(topicId)) := once], topicId, u, now, currentUser) == Ok(once)
  {
    var stored := items[KeyOf(TopicRow(topicId))];
    var p := Stamped(TopicFields(u), now, ActingUser(currentUser).value);
    PatchedThenStamped(stored, TopicFields(u), now, ActingUser(currentUser).value);
    assert "updated_at" in Patched(stored, p);
    PatchedTwice(stored, p);
    PatchedThenStamped(Patched(stored, p), TopicFields(u), now, ActingUser(currentUser).value);
  }

  method UpdateTopic(table: Table, topicId: string, u: TopicUpdate, now: string, currentUser: Item) returns (r: Result<Item>)
    requires table.Valid()
    modifies table
    ensures table.Valid()
    ensures r == UpdatedTopic(old(table.items), topicId, u, now, currentUser)
    ensures r.Ok? ==> table.items == old(table.items)[KeyOf(TopicRow(topicId)) := r.value] && table.order == old(table.order)
    ensures r.Failure? ==> unchanged(table)
  {
    var key := KeyOf(TopicRow(topicId));
    if key !in table.items || table.items[key] == map[] {
      return Failure(NotFound);
    }
    var stored := table.items[key];
    var item := ApplyTopicFields(stored, u);
    if "user_id" !in currentUser {
      return Failure(ServerError);
    }
    item := PutStamped(table, key, stored, TopicFields(u), item, now, currentUser["user_id"]);
    r := Ok(item);
  }

  /** `delete_topic`: only the `METADATA` row goes; translations, levels and
      exercises under the topic stay. */
  method DeleteTopic(table: Table, topicId: string)
    requires table.Valid()
    modifies table
    ensures table.Valid()
    ensures table.items == old(table.items) - {KeyOf(TopicRow(topicId))}
    ensures table.order == Erase(old(table.order), KeyOf(TopicRow(topicId)))
  {
    table.Delete(KeyOf(TopicRow(topicId)));
  }

  /** After a delete the topic is not found, and its translations are still
      stored. */
  lemma DeleteLeavesTranslations(items: map<Key, Item>, topicId: string, lang: string)
    ensures Fetched(items - {KeyOf(TopicRow(topicId))}, KeyOf(TopicRow(topicId)), TopicPrefix + topicId, Some(lang)) == Failure(NotFound)
    ensures Lookup(items - {KeyOf(TopicRow(topicId))}, KeyOf(TopicTranslationRow(topicId, lang))) == Lookup(items, KeyOf(TopicTranslationRow(topicId, lang)))
  {
    TopicPartitionDisjoint(topicId, lang, "");
  }
}
