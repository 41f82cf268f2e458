/** The level endpoints: list a topic's levels (index query on `topic_id`
    and the `LEVEL#` sort keys), get, create with translations, partial
    update and delete of a `(TOPIC#t, LEVEL#l)` row. */
module Levels {
  import opened Values
  import opened Keys
  import opened Seqs
  import opened Store
  import opened Catalog

  /** `LevelMetadata`; `.dict()` keeps the unset fields as `None`. */
  datatype LevelMetadata = LevelMetadata(
    estimatedTimeMinutes: Option<int>,
    minScoreToPass: Option<int>,
    maxAttempts: Option<int>)

  datatype LevelTranslationInput = LevelTranslationInput(title: string, description: Option<string>, hint: Option<string>)

  /** The request body `LevelCreate`; `translations` is the dict's items in order. */
  datatype LevelCreate = LevelCreate(
    topicId: string,
    slug: string,
    position: int,
    difficulty: int,
    metadata: Option<LevelMetadata>,
    isPublished: bool,
    translations: Option<seq<(string, LevelTranslationInput)>>)

  /** The request body `LevelUpdate`: only supplied fields change. */
  datatype LevelUpdate = LevelUpdate(
    slug: Option<string>,
    position: Option<int>,
    difficulty: Option<int>,
    metadata: Option<LevelMetadata>,
    isPublished: Option<bool>)

  const LevelEntity := "level"
  const LevelTranslationEntity := "level_translation"

  function OptionalInt(v: Option<int>): Value
  {
    if v.Some? then Int(v.value) else Null
  }

  /** `metadata.dict()` */
  function MetadataValue(m: LevelMetadata): Value
  {
    Dict(map[
      "estimated_time_minutes" := OptionalInt(m.estimatedTimeMinutes),
      "min_score_to_pass" := OptionalInt(m.minScoreToPass),
      "max_attempts" := OptionalInt(m.maxAttempts)])
  }

  // ----- Reads -----

  /** An item of the index `topic_id-SK-index` matching `topic_id = t AND
      begins_with(SK, 'LEVEL#')`. */
  predicate InLevelIndex(x: Item, topicId: string)
  {
    Get(x, "topic_id", Null) == Str(topicId) && Get(x, "SK", Null).Str? && StartsWith(Get(x, "SK", Null).s, LevelPrefix)
  }

  function Candidates(rows: seq<Item>, topicId: string, publishedOnly: bool): seq<Item>
  {
    var levels := Filter(rows, x => InLevelIndex(x, topicId));
    if publishedOnly then Published(levels) else levels
  }

  function LevelList(rows: seq<Item>, items: map<Key, Item>, topicId: string, language: Option<string>, publishedOnly: bool): Result<Listing>
  {
    Listed(items, Candidates(rows, topicId, publishedOnly), "level_id", LevelPrefix, language, "position")
  }

  /** The listed levels are exactly the topic's indexed levels (published
      ones when asked), each with its translation, sorted by `position`,
      counted in `total`; a non-numeric `position` anywhere is a 500. */
  lemma LevelListFacts(rows: seq<Item>, items: map<Key, Item>, topicId: string, language: Option<string>, publishedOnly: bool)
    ensures forall y :: y in Candidates(rows, topicId, publishedOnly) <==>
      y in rows && InLevelIndex(y, topicId) && (publishedOnly ==> IsPublished(y))
    ensures LevelList(rows, items, topicId, language, publishedOnly).Ok? <==> AllPositioned(Candidates(rows, topicId, publishedOnly), "position")
    ensures LevelList(rows, items, topicId, language, publishedOnly).Ok? ==>
      var l := LevelList(rows, items, topicId, language, publishedOnly).value;
      && l.total == |l.entries| == |Candidates(rows, topicId, publishedOnly)|
      && multiset(l.entries) == multiset(AttachAll(items, Candidates(rows, topicId, publishedOnly), "level_id", LevelPrefix, language))
      && AllPositioned(l.entries, "position")
      && (forall i, j :: 0 <= i < j < |l.entries| ==> Position(l.entries[i], "position").value <= Position(l.entries[j], "position").value)
  {
    ListedPositions(items, Candidates(rows, topicId, publishedOnly), "level_id", LevelPrefix, language, "position");
  }

  /** `list_levels_by_topic` */
  method ListLevels(table: Table, topicId: string, language: Option<string>, publishedOnly: bool) returns (r: Result<Listing>)
    requires table.Valid()
    ensures r == LevelList(table.Rows(), table.items, topicId, language, publishedOnly)
  {
    var levels := Filter(table.Rows(), x => InLevelIndex(x, topicId));
    if publishedOnly {
      levels := Published(levels);
    }
    var attached := AttachTranslations(table.items, levels, "level_id", LevelPrefix, language);
    var sorted := SortByPosition(attached, "position");
    if sorted.Failure? {
      return Failure(ServerError);
    }
    r := Ok(Listing(sorted.value, |sorted.value|));
  }

  /** `get_level`: 404 without the `(TOPIC#t, LEVEL#l)` row. */
  method GetLevel(table: Table, levelId: string, topicId: string, language: Option<string>) returns (r: Result<Item>)
    ensures r == Fetched(table.items, KeyOf(LevelRow(topicId, levelId)), LevelPrefix + levelId, language)
  {
    r := FetchItem(table.items, KeyOf(LevelRow(topicId, levelId)), LevelPrefix + levelId, language);
  }

  // ----- Writes -----

  /** The row `create_level` writes under the parent topic; `metadata` only
      when given. */
  function LevelItem(levelId: string, data: LevelCreate, now: string, userId: Value): (r: Item)
    ensures KeyedBy(r, KeyOf(LevelRow(data.topicId, levelId)))
  {
    var item := map[
      "PK" := Str(TopicPrefix + data.topicId),
      "SK" := Str(LevelPrefix + levelId),
      "entity_type" := Str(LevelEntity),
      "level_id" := Str(levelId),
      "topic_id" := Str(data.topicId),
      "slug" := Str(data.slug),
      "position" := Int(data.position),
      "difficulty" := Int(data.difficulty),
      "is_published" := Bool(data.isPublished),
      "created_at" := Str(now),
      "updated_at" := Str(now),
      "created_by" := userId];
    if data.metadata.Some? then item["metadata" := MetadataValue(data.metadata.value)] else item
  }

  /** A created level is in its topic's level index, at its position,
      published as asked, with `metadata` only when some was sent. */
  lemma LevelItemFields(levelId: string, data: LevelCreate, now: string, userId: Value)
    ensures var r := LevelItem(levelId, data, now, userId);
      && InLevelIndex(r, data.topicId)
      && Position(r, "position") == Some(data.position)
      && "difficulty" in r && r["difficulty"] == Int(data.difficulty)
      && "is_published" in r && r["is_published"] == Bool(data.isPublished)
      && ("metadata" in r <==> data.metadata.Some?)
      && "level_id" in r && r["level_id"] == Str(levelId)
      && "created_by" in r && r["created_by"] == userId
  {
    PrefixFacts(LevelPrefix, levelId);
  }

  /** The `LANG#` row of one translation; `description` and `hint` only when
      non-empty. */
  function LevelTranslationItem(levelId: string, lang: string, t: LevelTranslationInput): (r: Item)
    ensures KeyedBy(r, KeyOf(LevelTranslationRow(levelId, lang)))
  {
    var item := map[
      "PK" := Str(LevelPrefix + levelId),
      "SK" := Str(LangPrefix + lang),
      "entity_type" := Str(LevelTranslationEntity),
      "level_id" := Str(levelId),
      "language_code" := Str(lang),
      "title" := Str(t.title)];
    var described := if t.description.Some? && t.description.value != "" then item["description" := Str(t.description.value)] else item;
    if t.hint.Some? && t.hint.value != "" then described["hint" := Str(t.hint.value)] else described
  }

  /** A translation row records its language and title, and a description
      and a hint only when non-empty ones were sent. */
  lemma LevelTranslationItemFields(levelId: string, lang: string, t: LevelTranslationInput)
    ensures var r := LevelTranslationItem(levelId, lang, t);
      && "language_code" in r && r["language_code"] == Str(lang)
      && "title" in r && r["title"] == Str(t.title)
      && ("description" in r <==> t.description.Some? && t.description.value != "")
      && ("hint" in r <==> t.hint.Some? && t.hint.value != "")
  {
  }

  function TranslationItems(levelId: string, trs: seq<(string, LevelTranslationInput)>): (r: seq<Item>)
    ensures |r| == |trs| && AllKeyed(r)
    ensures forall i :: 0 <= i < |trs| ==> r[i] == LevelTranslationItem(levelId, trs[i].0, trs[i].1)
  {
    if trs == [] then []
    else TranslationItems(levelId, trs[..|trs| - 1]) + [LevelTranslationItem(levelId, trs[|trs| - 1].0, trs[|trs| - 1].1)]
  }

  /** `if level_data.translations:` */
  function GivenTranslations(data: LevelCreate): seq<(string, LevelTranslationInput)>
  {
    if data.translations.Some? then data.translations.value else []
  }

  /** The stored items after `create_level`: the level, then one row per
      translation. */
  function AfterCreate(items: map<Key, Item>, levelId: string, data: LevelCreate, now: string, userId: Value): map<Key, Item>
  {
    PutAll(items[KeyOf(LevelRow(data.topicId, levelId)) := LevelItem(levelId, data, now, userId)], TranslationItems(levelId, GivenTranslations(data)))
  }

  /** `create_level`, with the generated id `levelId` and the clock `now`:
      500 before anything is written when the admin record has no
      `user_id`; otherwise the level and its translations are written and
      the level is returned. The parent topic is not checked. */
  method CreateLevel(table: Table, data: LevelCreate, levelId: string, now: string, currentUser: Item) returns (r: Result<Item>)
    requires table.Valid()
    modifies table
    ensures table.Valid()
    ensures ActingUser(currentUser).None? ==> r == Failure(ServerError) && unchanged(table)
    ensures ActingUser(currentUser).Some? ==>
      var key := KeyOf(LevelRow(data.topicId, levelId));
      var item := LevelItem(levelId, data, now, ActingUser(currentUser).value);
      && r == Ok(item)
      && table.items == AfterCreate(old(table.items), levelId, data, now, ActingUser(currentUser).value)
      && table.order == PutOrder(if key in old(table.items) then old(table.order) else old(table.order) + [key],
                                 old(table.items)[key := item], TranslationItems(levelId, GivenTranslations(data)))
  {
    if "user_id" !in currentUser {
      return Failure(ServerError);
    }
    var item := LevelItem(levelId, data, now, currentUser["user_id"]);
    table.Put(item);
    if data.translations.Some? && data.translations.value != [] {
      table.PutEach(TranslationItems(levelId, data.translations.value));
    }
    r := Ok(item);
  }

  /** After a create, reading the level back gives the created item, and,
      when the language codes are distinct, reading it in one of them
      attaches the translation row created for it. */
  lemma CreateThenGet(items: map<Key, Item>, levelId: string, data: LevelCreate, now: string, userId: Value, j: nat)
    requires j < |GivenTranslations(data)| && GivenTranslations(data)[j].0 != ""
    requires forall a, b :: 0 <= a < b < |GivenTranslations(data)| ==> GivenTranslations(data)[a].0 != GivenTranslations(data)[b].0
    ensures var trs := GivenTranslations(data);
      var after := AfterCreate(items, levelId, data, now, userId);
      var key := KeyOf(LevelRow(data.topicId, levelId));
      && Fetched(after, key, LevelPrefix + levelId, None) == Ok(LevelItem(levelId, data, now, userId))
      && Fetched(after, key, LevelPrefix + levelId, Some(trs[j].0))
         == Ok(LevelItem(levelId, data, now, userId)["translation" := Dict(LevelTranslationItem(levelId, trs[j].0, trs[j].1))])
  {
    var trs := GivenTranslations(data);
    TranslationKeysApart(data.topicId, levelId, trs);
    LaterTranslationKeys(levelId, trs, j);
    FetchedAfterPuts(items, KeyOf(LevelRow(data.topicId, levelId)), LevelItem(levelId, data, now, userId),
                     TranslationItems(levelId, trs), LevelPrefix + levelId, trs[j].0, j);
  }

  /** No translation row is keyed like the level itself. */
  lemma TranslationKeysApart(topicId: string, levelId: string, trs: seq<(string, LevelTranslationInput)>)
    ensures var rows := TranslationItems(levelId, trs);
      forall i :: 0 <= i < |rows| ==> KeyAttrs(rows[i]).value != KeyOf(LevelRow(topicId, levelId))
  {
    var key := KeyOf(LevelRow(topicId, levelId));
    var rows := TranslationItems(levelId, trs);
    forall i | 0 <= i < |rows| ensures KeyAttrs(rows[i]).value != key {
      if KeyAttrs(rows[i]).value == key {
        KeyOfInjective(LevelTranslationRow(levelId, trs[i].0), LevelRow(topicId, levelId));
      }
    }
  }

  /** With distinct language codes, no later translation row overwrites the
      one for `trs[j]`. */
  lemma LaterTranslationKeys(levelId: string, trs: seq<(string, LevelTranslationInput)>, j: nat)
    requires j < |trs|
    requires forall a, b :: 0 <= a < b < |trs| ==> trs[a].0 != trs[b].0
    ensures var rows := TranslationItems(levelId, trs);
      && (forall i :: j < i < |rows| ==> KeyAttrs(rows[i]) != KeyAttrs(rows[j]))
      && KeyAttrs(rows[j]) == Some(Key(LevelPrefix + levelId, LangPrefix + trs[j].0))
  {
    var rows := TranslationItems(levelId, trs);
    forall i | j < i < |rows| ensures KeyAttrs(rows[i]) != KeyAttrs(rows[j]) {
      if KeyAttrs(rows[i]) == KeyAttrs(rows[j]) {
        KeyOfInjective(LevelTranslationRow(levelId, trs[i].0), LevelTranslationRow(levelId, trs[j].0));
      }
    }
  }

  /** The supplied fields of a `LevelUpdate`, as the attributes they set. */
  function LevelFields(u: LevelUpdate): (p: Item)
    ensures "PK" !in p && "SK" !in p
    ensures "slug" in p <==> u.slug.Some?
    ensures "position" in p <==> u.position.Some?
    ensures "difficulty" in p <==> u.difficulty.Some?
    ensures "metadata" in p <==> u.metadata.Some?
    ensures "is_published" in p <==> u.isPublished.Some?
  {
    var a := if u.slug.Some? then map["slug" := Str(u.slug.value)] else map[];
    var b := if u.position.Some? then a["position" := Int(u.position.value)] else a;
    var c := if u.difficulty.Some? then b["difficulty" := Int(u.difficulty.value)] else b;
    var d := if u.metadata.Some? then c["metadata" := MetadataValue(u.metadata.value)] else c;
    if u.isPublished.Some? then d["is_published" := Bool(u.isPublished.value)] else d
  }

  /** Each supplied field takes the sent value. */
  lemma LevelFieldsValues(u: LevelUpdate)
    ensures var p := LevelFields(u);
      && (u.slug.Some? ==> p["slug"] == Str(u.slug.value))
      && (u.position.Some? ==> p["position"] == Int(u.position.value))
      && (u.difficulty.Some? ==> p["difficulty"] == Int(u.difficulty.value))
      && (u.metadata.Some? ==> p["metadata"] == MetadataValue(u.metadata.value))
      && (u.isPublished.Some? ==> p["is_published"] == Bool(u.isPublished.value))
  {
  }

  /** The field assignments of `update_level`, one supplied field at a time. */
  method ApplyLevelFields(stored: Item, u: LevelUpdate) returns (item: Item)
    ensures item == Patched(stored, LevelFields(u))
  {
    item := stored;
    ghost var patch: Item := map[];
    assert item == Patched(stored, patch);
    if u.slug.Some? {
      PatchedAssign(stored, patch, "slug", Str(u.slug.value));
      item, patch := item["slug" := Str(u.slug.value)], patch["slug" := Str(u.slug.value)];
    }
    if u.position.Some? {
      PatchedAssign(stored, patch, "position", Int(u.position.value));
      item, patch := item["position" := Int(u.position.value)], patch["position" := Int(u.position.value)];
    }
    if u.difficulty.Some? {
      PatchedAssign(stored, patch, "difficulty", Int(u.difficulty.value));
      item, patch := item["difficulty" := Int(u.difficulty.value)], patch["difficulty" := Int(u.difficulty.value)];
    }
    if u.metadata.Some? {
      PatchedAssign(stored, patch, "metadata", MetadataValue(u.metadata.value));
      item, patch := item["metadata" := MetadataValue(u.metadata.value)], patch["metadata" := MetadataValue(u.metadata.value)];
    }
    if u.isPublished.Some? {
      PatchedAssign(stored, patch, "is_published", Bool(u.isPublished.value));
      item, patch := item["is_published" := Bool(u.isPublished.value)], patch["is_published" := Bool(u.isPublished.value)];
    }
  }

  /** `update_level`: 404 without the row, 500 when the admin record has no
      `user_id`; nothing is written then. */
  function UpdatedLevel(items: map<Key, Item>, levelId: string, topicId: string, u: LevelUpdate, now: string, currentUser: Item): (r: Result<Item>)
    ensures r.Failure? <==> Lookup(items, KeyOf(LevelRow(topicId, levelId))).None? || ActingUser(currentUser).None?
    ensures r.Failure? ==> r.status == (if Lookup(items, KeyOf(LevelRow(topicId, levelId))).None? then NotFound else ServerError)
  {
    match Lookup(items, KeyOf(LevelRow(topicId, levelId)))
    case None => Failure(NotFound)
    case Some(item) =>
      match ActingUser(currentUser)
      case None => Failure(ServerError)
      case Some(userId) => Ok(Stamped(Patched(item, LevelFields(u)), now, userId))
  }

  /** An update sets the supplied fields, stamps the time and the admin and
      keeps every other attribute. */
  lemma UpdateLevelFacts(items: map<Key, Item>, levelId: string, topicId: string, u: LevelUpdate, now: string, currentUser: Item)
    requires UpdatedLevel(items, levelId, topicId, u, now, currentUser).Ok?
    ensures var r := UpdatedLevel(items, levelId, topicId, u, now, currentUser).value;
      var stored := items[KeyOf(LevelRow(topicId, levelId))];
      && (forall a :: a in LevelFields(u) ==> a in r && r[a] == LevelFields(u)[a])
      && (forall a :: a in stored && a !in LevelFields(u) && a != "updated_at" && a != "updated_by" ==> a in r && r[a] == stored[a])
      && "updated_at" in r && r["updated_at"] == Str(now)
      && "updated_by" in r && r["updated_by"] == ActingUser(currentUser).value
  {
    LevelFieldsValues(u);
  }

  /** Sending the same update again (same time, same admin) stores the same
      item. */
  lemma UpdateLevelIdempotent(items: map<Key, Item>, levelId: string, topicId: string, u: LevelUpdate, now: string, currentUser: Item)
    requires UpdatedLevel(items, levelId, topicId, u, now, currentUser).Ok?
    ensures var once := UpdatedLevel(items, levelId, topicId, u, now, currentUser).value;
      UpdatedLevel(items[KeyOf(LevelRow(topicId, levelId)) := once], levelId, topicId, u, now, currentUser) == Ok(once)
  {
    var stored := items[KeyOf(LevelRow(topicId, levelId))];
    var userId := ActingUser(currentUser).value;
    var p := Stamped(LevelFields(u), now, userId);
    PatchedThenStamped(stored, LevelFields(u), now, userId);
    assert "updated_at" in Patched(stored, p);
    PatchedTwice(stored, p);
    PatchedThenStamped(Patched(stored, p), LevelFields(u), now, userId);
  }

  method UpdateLevel(table: Table, levelId: string, topicId: string, u: LevelUpdate, now: string, currentUser: Item) returns (r: Result<Item>)
    requires table.Valid()
    modifies table
    ensures table.Valid()
    ensures r == UpdatedLevel(old(table.items), levelId, topicId, u, now, currentUser)
    ensures r.Ok? ==> table.items == old(table.items)[KeyOf(LevelRow(topicId, levelId)) := r.value] && table.order == old(table.order)
    ensures r.Failure? ==> unchanged(table)
  {
    var key := KeyOf(LevelRow(topicId, levelId));
    if key !in table.items || table.items[key] == map[] {
      return Failure(NotFound);
    }
    var stored := table.items[key];
    var item := ApplyLevelFields(stored, u);
    if "user_id" !in currentUser {
      return Failure(ServerError);
    }
    item := PutStamped(table, key, stored, LevelFields(u), item, now, currentUser["user_id"]);
    r := Ok(item);
  }

  /** `delete_level`: only the level row goes; its translations and
      exercises stay. */
  method DeleteLevel(table: Table, levelId: string, topicId: string)
    requires table.Valid()
    modifies table
    ensures table.Valid()
    ensures table.items == old(table.items) - {KeyOf(LevelRow(topicId, levelId))}
    ensures table.order == Erase(old(table.order), KeyOf(LevelRow(topicId, levelId)))
  {
    table.Delete(KeyOf(LevelRow(topicId, levelId)));
  }

  /** After a delete the level is not found, and its translations are still
      stored. */
  lemma DeleteLeavesTranslations(items: map<Key, Item>, levelId: string, topicId: string, lang: string)
    ensures Fetched(items - {KeyOf(LevelRow(topicId, levelId))}, KeyOf(LevelRow(topicId, levelId)), LevelPrefix + levelId, Some(lang)) == Failure(NotFound)
    ensures Lookup(items - {KeyOf(LevelRow(topicId, levelId))}, KeyOf(LevelTranslationRow(levelId, lang))) == Lookup(items, KeyOf(LevelTranslationRow(levelId, lang)))
  {
    if KeyOf(LevelRow(topicId, levelId)) == KeyOf(LevelTranslationRow(levelId, lang)) {
      KeyOfInjective(LevelRow(topicId, levelId), LevelTranslationRow(levelId, lang));
    }
  }
}
