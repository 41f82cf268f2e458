/** The exercise endpoints: list a level's exercises (query on `LEVEL#l`
    and the `EXERCISE#` sort keys), get, create with translations, partial
    update and delete of a `(LEVEL#l, EXERCISE#e)` row. `config` and
    `answer_schema` are stored with every float turned into a `Decimal`. */
module Exercises {
  import opened Values
  import opened Keys
  import opened Seqs
  import opened Store
  import opened Catalog
  import opened Decimals

  datatype ExerciseType = MCQ | CameraProduce | CopyPractice

  function ExerciseTypeText(t: ExerciseType): string
  {
    match t
    case MCQ => "MCQ"
    case CameraProduce => "CAMERA_PRODUCE"
    case CopyPractice => "COPY_PRACTICE"
  }

  /** `ExerciseConfig` */
  datatype ExerciseConfig = ExerciseConfig(
    timeLimit: Option<int>,
    scoringRules: Option<map<string, Value>>,
    choicesCount: Option<int>,
    modelVersion: Option<string>,
    requiredConfidence: Option<real>)

  datatype ExerciseTranslationInput = ExerciseTranslationInput(
    promptText: string,
    choiceTexts: Option<seq<string>>,
    feedbackText: Option<map<string, string>>)

  /** The request body `ExerciseCreate`; `translations` is the dict's items in order. */
  datatype ExerciseCreate = ExerciseCreate(
    levelId: string,
    exerciseType: ExerciseType,
    position: int,
    config: Option<ExerciseConfig>,
    answerSchema: Option<map<string, Value>>,
    translations: Option<seq<(string, ExerciseTranslationInput)>>)

  /** The request body `ExerciseUpdate`: only supplied fields change. */
  datatype ExerciseUpdate = ExerciseUpdate(
    position: Option<int>,
    config: Option<ExerciseConfig>,
    answerSchema: Option<map<string, Value>>)

  const ExerciseEntity := "exercise"
  const ExerciseTranslationEntity := "exercise_translation"

  /** `config.dict(exclude_none=True)`: only the fields that are set. */
  function ConfigDict(c: ExerciseConfig): (r: map<string, Value>)
    ensures "time_limit" in r <==> c.timeLimit.Some?
    ensures "scoring_rules" in r <==> c.scoringRules.Some?
    ensures "choices_count" in r <==> c.choicesCount.Some?
    ensures "model_version" in r <==> c.modelVersion.Some?
    ensures "required_confidence" in r <==> c.requiredConfidence.Some?
    ensures c.requiredConfidence.Some? ==> r["required_confidence"] == Float(c.requiredConfidence.value)
  {
    var a := if c.timeLimit.Some? then map["time_limit" := Int(c.timeLimit.value)] else map[];
    var b := if c.scoringRules.Some? then a["scoring_rules" := Dict(c.scoringRules.value)] else a;
    var d := if c.choicesCount.Some? then b["choices_count" := Int(c.choicesCount.value)] else b;
    var e := if c.modelVersion.Some? then d["model_version" := Str(c.modelVersion.value)] else d;
    if c.requiredConfidence.Some? then e["required_confidence" := Float(c.requiredConfidence.value)] else e
  }

  /** The stored `config`: the set fields, floats as decimals. */
  function ConfigValue(c: ExerciseConfig): Value
  {
    ToDecimal(Dict(ConfigDict(c)))
  }

  /** The stored `answer_schema`, floats as decimals. */
  function SchemaValue(m: map<string, Value>): Value
  {
    ToDecimal(Dict(m))
  }

  /** What is stored holds no float, and the config keeps exactly the fields
      that were set. */
  lemma StoredDocumentsFloatFree(c: ExerciseConfig, m: map<string, Value>)
    ensures FloatFree(ConfigValue(c)) && FloatFree(SchemaValue(m))
    ensures ConfigValue(c).Dict? && ConfigValue(c).fields.Keys == ConfigDict(c).Keys
    ensures "required_confidence" in ConfigValue(c).fields <==> c.requiredConfidence.Some?
    ensures c.requiredConfidence.Some? ==> ConfigValue(c).fields["required_confidence"] == Dec(c.requiredConfidence.value)
  {
    var d := ConfigDict(c);
    ToDecimalFloatFree(Dict(d));
    ToDecimalFloatFree(Dict(m));
    if c.requiredConfidence.Some? {
      assert ConfigValue(c).fields["required_confidence"] == ToDecimal(d["required_confidence"]);
    }
  }

  // ----- Reads -----

  /** The key condition `PK = LEVEL#l AND begins_with(SK, 'EXERCISE#')`. */
  predicate IsExerciseOf(x: Item, levelId: string)
  {
    Get(x, "PK", Null) == Str(LevelPrefix + levelId) && Get(x, "SK", Null).Str? && StartsWith(Get(x, "SK", Null).s, ExercisePrefix)
  }

  function LevelExercises(rows: seq<Item>, levelId: string): seq<Item>
  {
    Filter(rows, x => IsExerciseOf(x, levelId))
  }

  function ExerciseList(rows: seq<Item>, items: map<Key, Item>, levelId: string, language: Option<string>): Result<Listing>
  {
    Listed(items, LevelExercises(rows, levelId), "exercise_id", ExercisePrefix, language, "position")
  }

  /** The level's exercises are exactly the stored rows under `LEVEL#l`
      whose sort key starts with `EXERCISE#`, published or not. */
  lemma LevelExercisesStored(table: Table, levelId: string, y: Item)
    requires table.Valid()
    ensures y in LevelExercises(table.Rows(), levelId) <==>
      exists k :: k in table.items && table.items[k] == y && k.pk == LevelPrefix + levelId && StartsWith(k.sk, ExercisePrefix)
  {
    InRows(table, y);
  }

  /** The listing holds each of the level's exercises with its translation,
      sorted by `position`, counted in `total`; a non-numeric `position`
      anywhere is a 500. */
  lemma ExerciseListFacts(rows: seq<Item>, items: map<Key, Item>, levelId: string, language: Option<string>)
    ensures ExerciseList(rows, items, levelId, language).Ok? <==> AllPositioned(LevelExercises(rows, levelId), "position")
    ensures ExerciseList(rows, items, levelId, language).Ok? ==>
      var l := ExerciseList(rows, items, levelId, language).value;
      && l.total == |l.entries| == |LevelExercises(rows, levelId)|
      && multiset(l.entries) == multiset(AttachAll(items, LevelExercises(rows, levelId), "exercise_id", ExercisePrefix, language))
      && AllPositioned(l.entries, "position")
      && (forall i, j :: 0 <= i < j < |l.entries| ==> Position(l.entries[i], "position").value <= Position(l.entries[j], "position").value)
  {
    ListedPositions(items, LevelExercises(rows, levelId), "exercise_id", ExercisePrefix, language, "position");
  }

  /** `list_exercises_by_level` */
  method ListExercises(table: Table, levelId: string, language: Option<string>) returns (r: Result<Listing>)
    requires table.Valid()
    ensures r == ExerciseList(table.Rows(), table.items, levelId, language)
  {
    var exercises := Filter(table.Rows(), x => IsExerciseOf(x, levelId));
    var attached := AttachTranslations(table.items, exercises, "exercise_id", ExercisePrefix, language);
    var sorted := SortByPosition(attached, "position");
    if sorted.Failure? {
      return Failure(ServerError);
    }
    r := Ok(Listing(sorted.value, |sorted.value|));
  }

  /** `get_exercise`: 404 without the `(LEVEL#l, EXERCISE#e)` row. */
  method GetExercise(table: Table, exerciseId: string, levelId: string, language: Option<string>) returns (r: Result<Item>)
    ensures r == Fetched(table.items, KeyOf(ExerciseRow(levelId, exerciseId)), ExercisePrefix + exerciseId, language)
  {
    r := FetchItem(table.items, KeyOf(ExerciseRow(levelId, exerciseId)), ExercisePrefix + exerciseId, language);
  }

  // ----- Writes -----

  /** The attributes `create_exercise` always writes. */
  function ExerciseBase(exerciseId: string, data: ExerciseCreate, now: string, userId: Value): (r: Item)
    ensures KeyedBy(r, KeyOf(ExerciseRow(data.levelId, exerciseId)))
    ensures "position" in r && r["position"] == Int(data.position)
    ensures "exercise_type" in r && r["exercise_type"] == Str(ExerciseTypeText(data.exerciseType))
    ensures "config" !in r && "answer_schema" !in r
  {
    map[
      "PK" := Str(LevelPrefix + data.levelId),
      "SK" := Str(ExercisePrefix + exerciseId),
      "entity_type" := Str(ExerciseEntity),
      "exercise_id" := Str(exerciseId),
      "level_id" := Str(data.levelId),
      "exercise_type" := Str(ExerciseTypeText(data.exerciseType)),
      "position" := Int(data.position),
      "created_at" := Str(now),
      "updated_at" := Str(now),
      "created_by" := userId]
  }

  /** `if exercise_data.config:` and `if exercise_data.answer_schema:` — a
      config whenever one was sent, a schema only when it is non-empty. */
  function WithDocuments(item: Item, config: Option<ExerciseConfig>, schema: Option<map<string, Value>>): (r: Item)
    ensures forall a :: a in item && a != "config" && a != "answer_schema" ==> a in r && r[a] == item[a]
  {
    var configured := if config.Some? then item["config" := ConfigValue(config.value)] else item;
    if schema.Some? && schema.value != map[] then configured["answer_schema" := SchemaValue(schema.value)] else configured
  }

  /** A sent config is stored, a schema only when non-empty, and neither
      holds a float. */
  lemma WithDocumentsFacts(item: Item, config: Option<ExerciseConfig>, schema: Option<map<string, Value>>)
    requires "config" !in item && "answer_schema" !in item
    ensures var r := WithDocuments(item, config, schema);
      && ("config" in r <==> config.Some?)
      && ("answer_schema" in r <==> schema.Some? && schema.value != map[])
      && ("config" in r ==> FloatFree(r["config"]))
      && ("answer_schema" in r ==> FloatFree(r["answer_schema"]))
  {
    if config.Some? {
      ToDecimalFloatFree(Dict(ConfigDict(config.value)));
    }
    if schema.Some? {
      ToDecimalFloatFree(Dict(schema.value));
    }
  }

  /** The row `create_exercise` writes under the parent level. */
  function ExerciseItem(exerciseId: string, data: ExerciseCreate, now: string, userId: Value): (r: Item)
    ensures KeyedBy(r, KeyOf(ExerciseRow(data.levelId, exerciseId)))
  {
    WithDocuments(ExerciseBase(exerciseId, data, now, userId), data.config, data.answerSchema)
  }

  /** A created exercise is one of its level's exercises, at its position;
      `config` is stored when sent, `answer_schema` only when non-empty, and
      neither holds a float. */
  lemma ExerciseItemFields(exerciseId: string, data: ExerciseCreate, now: string, userId: Value)
    ensures var r := ExerciseItem(exerciseId, data, now, userId);
      && IsExerciseOf(r, data.levelId)
      && Position(r, "position") == Some(data.position)
      && "exercise_type" in r && r["exercise_type"] == Str(ExerciseTypeText(data.exerciseType))
      && ("config" in r <==> data.config.Some?)
      && ("answer_schema" in r <==> data.answerSchema.Some? && data.answerSchema.value != map[])
      && ("config" in r ==> FloatFree(r["config"]))
      && ("answer_schema" in r ==> FloatFree(r["answer_schema"]))
  {
    PrefixFacts(ExercisePrefix, exerciseId);
    WithDocumentsFacts(ExerciseBase(exerciseId, data, now, userId), data.config, data.answerSchema);
  }

  /** The `LANG#` row of one translation; `choice_texts` and `feedback_text`
      only when non-empty. */
  function ExerciseTranslationItem(exerciseId: string, lang: string, t: ExerciseTranslationInput): (r: Item)
    ensures KeyedBy(r, KeyOf(ExerciseTranslationRow(exerciseId, lang)))
  {
    var item := map[
      "PK" := Str(ExercisePrefix + exerciseId),
      "SK" := Str(LangPrefix + lang),
      "entity_type" := Str(ExerciseTranslationEntity),
      "exercise_id" := Str(exerciseId),
      "language_code" := Str(lang),
      "prompt_text" := Str(t.promptText)];
    var choices := t.choiceTexts;
    var withChoices :=
      if choices.Some? && choices.value != []
      then item["choice_texts" := List(seq(|choices.value|, i requires 0 <= i < |choices.value| => Str(choices.value[i])))]
      else item;
    var feedback := t.feedbackText;
    if feedback.Some? && feedback.value != map[]
    then withChoices["feedback_text" := Dict(map k | k in feedback.value :: Str(feedback.value[k]))]
    else withChoices
  }

  /** A translation row records its language and prompt, and the choices
      and the feedback only when non-empty ones were sent. */
  lemma ExerciseTranslationItemFields(exerciseId: string, lang: string, t: ExerciseTranslationInput)
    ensures var r := ExerciseTranslationItem(exerciseId, lang, t);
      && "language_code" in r && r["language_code"] == Str(lang)
      && "prompt_text" in r && r["prompt_text"] == Str(t.promptText)
      && ("choice_texts" in r <==> t.choiceTexts.Some? && t.choiceTexts.value != [])
      && ("feedback_text" in r <==> t.feedbackText.Some? && t.feedbackText.value != map[])
  {
  }

  function TranslationItems(exerciseId: string, trs: seq<(string, ExerciseTranslationInput)>): (r: seq<Item>)
    ensures |r| == |trs| && AllKeyed(r)
    ensures forall i :: 0 <= i < |trs| ==> r[i] == ExerciseTranslationItem(exerciseId, trs[i].0, trs[i].1)
  {
    if trs == [] then []
    else TranslationItems(exerciseId, trs[..|trs| - 1]) + [ExerciseTranslationItem(exerciseId, trs[|trs| - 1].0, trs[|trs| - 1].1)]
  }

  /** `if exercise_data.translations:` */
  function GivenTranslations(data: ExerciseCreate): seq<(string, ExerciseTranslationInput)>
  {
    if data.translations.Some? then data.translations.value else []
  }

  /** The stored items after `create_exercise`: the exercise, then one row
      per translation. */
  function AfterCreate(items: map<Key, Item>, exerciseId: string, data: ExerciseCreate, now: string, userId: Value): map<Key, Item>
  {
    PutAll(items[KeyOf(ExerciseRow(data.levelId, exerciseId)) := ExerciseItem(exerciseId, data, now, userId)],
           TranslationItems(exerciseId, GivenTranslations(data)))
  }

  /** `create_exercise`, with the generated id `exerciseId` and the clock
      `now`: 500 before anything is written when the admin record has no
      `user_id`; otherwise the exercise and its translations are written and
      the exercise is returned. The parent level is not checked. */
  method CreateExercise(table: Table, data: ExerciseCreate, exerciseId: string, now: string, currentUser: Item) returns (r: Result<Item>)
    requires table.Valid()
    modifies table
    ensures table.Valid()
    ensures ActingUser(currentUser).None? ==> r == Failure(ServerError) && unchanged(table)
    ensures ActingUser(currentUser).Some? ==>
      var key := KeyOf(ExerciseRow(data.levelId, exerciseId));
      var item := ExerciseItem(exerciseId, data, now, ActingUser(currentUser).value);
      && r == Ok(item)
      && table.items == AfterCreate(old(table.items), exerciseId, data, now, ActingUser(currentUser).value)
      && table.order == PutOrder(if key in old(table.items) then old(table.order) else old(table.order) + [key],
                                 old(table.items)[key := item], TranslationItems(exerciseId, GivenTranslations(data)))
  {
    if "user_id" !in currentUser {
      return Failure(ServerError);
    }
    var item := ExerciseItem(exerciseId, data, now, currentUser["user_id"]);
    table.Put(item);
    if data.translations.Some? && data.translations.value != [] {
      table.PutEach(TranslationItems(exerciseId, data.translations.value));
    }
    r := Ok(item);
  }

  /** No translation row is keyed like the exercise itself. */
  lemma TranslationKeysApart(levelId: string, exerciseId: string, trs: seq<(string, ExerciseTranslationInput)>)
    ensures var rows := TranslationItems(exerciseId, trs);
      forall i :: 0 <= i < |rows| ==> KeyAttrs(rows[i]).value != KeyOf(ExerciseRow(levelId, exerciseId))
  {
    var key := KeyOf(ExerciseRow(levelId, exerciseId));
    var rows := TranslationItems(exerciseId, trs);
    forall i | 0 <= i < |rows| ensures KeyAttrs(rows[i]).value != key {
      if KeyAttrs(rows[i]).value == key {
        KeyOfInjective(ExerciseTranslationRow(exerciseId, trs[i].0), ExerciseRow(levelId, exerciseId));
      }
    }
  }

  /** With distinct language codes, no later translation row overwrites the
      one for `trs[j]`. */
  lemma LaterTranslationKeys(exerciseId: string, trs: seq<(string, ExerciseTranslationInput)>, j: nat)
    requires j < |trs|
    requires forall a, b :: 0 <= a < b < |trs| ==> trs[a].0 != trs[b].0
    ensures var rows := TranslationItems(exerciseId, trs);
      && (forall i :: j < i < |rows| ==> KeyAttrs(rows[i]) != KeyAttrs(rows[j]))
      && KeyAttrs(rows[j]) == Some(Key(ExercisePrefix + exerciseId, LangPrefix + trs[j].0))
  {
    var rows := TranslationItems(exerciseId, trs);
    forall i | j < i < |rows| ensures KeyAttrs(rows[i]) != KeyAttrs(rows[j]) {
      if KeyAttrs(rows[i]) == KeyAttrs(rows[j]) {
        KeyOfInjective(ExerciseTranslationRow(exerciseId, trs[i].0), ExerciseTranslationRow(exerciseId, trs[j].0));
      }
    }
  }

  /** After a create, reading the exercise back gives the created item, and,
      when the language codes are distinct, reading it in one of them
      attaches the translation row created for it. */
  lemma CreateThenGet(items: map<Key, Item>, exerciseId: string, data: ExerciseCreate, now: string, userId: Value, j: nat)
    requires j < |GivenTranslations(data)| && GivenTranslations(data)[j].0 != ""
    requires forall a, b :: 0 <= a < b < |GivenTranslations(data)| ==> GivenTranslations(data)[a].0 != GivenTranslations(data)[b].0
    ensures var trs := GivenTranslations(data);
      var after := AfterCreate(items, exerciseId, data, now, userId);
      var key := KeyOf(ExerciseRow(data.levelId, exerciseId));
      && Fetched(after, key, ExercisePrefix + exerciseId, None) == Ok(ExerciseItem(exerciseId, data, now, userId))
      && Fetched(after, key, ExercisePrefix + exerciseId, Some(trs[j].0))
         == Ok(ExerciseItem(exerciseId, data, now, userId)["translation" := Dict(ExerciseTranslationItem(exerciseId, trs[j].0, trs[j].1))])
  {
    var trs := GivenTranslations(data);
    TranslationKeysApart(data.levelId, exerciseId, trs);
    LaterTranslationKeys(exerciseId, trs, j);
    FetchedAfterPuts(items, KeyOf(ExerciseRow(data.levelId, exerciseId)), ExerciseItem(exerciseId, data, now, userId),
                     TranslationItems(exerciseId, trs), ExercisePrefix + exerciseId, trs[j].0, j);
  }

  /** The supplied fields of an `ExerciseUpdate`, as the attributes they set;
      unlike on create, an empty `answer_schema` is written. */
  function ExerciseFields(u: ExerciseUpdate): (p: Item)
    ensures "PK" !in p && "SK" !in p
    ensures "position" in p <==> u.position.Some?
    ensures "config" in p <==> u.config.Some?
    ensures "answer_schema" in p <==> u.answerSchema.Some?
  {
    var a := if u.position.Some? then map["position" := Int(u.position.value)] else map[];
    var b := if u.config.Some? then a["config" := ConfigValue(u.config.value)] else a;
    if u.answerSchema.Some? then b["answer_schema" := SchemaValue(u.answerSchema.value)] else b
  }

  /** Each supplied field takes the sent value, floats as decimals. */
  lemma ExerciseFieldsValues(u: ExerciseUpdate)
    ensures var p := ExerciseFields(u);
      && (u.position.Some? ==> p["position"] == Int(u.position.value))
      && (u.config.Some? ==> p["config"] == ConfigValue(u.config.value) && FloatFree(p["config"]))
      && (u.answerSchema.Some? ==> p["answer_schema"] == SchemaValue(u.answerSchema.value) && FloatFree(p["answer_schema"]))
  {
    if u.config.Some? {
      StoredDocumentsFloatFree(u.config.value, map[]);
    }
    if u.answerSchema.Some? {
      ToDecimalFloatFree(Dict(u.answerSchema.value));
    }
  }

  /** The field assignments of `update_exercise`, one supplied field at a time. */
  method ApplyExerciseFields(stored: Item, u: ExerciseUpdate) returns (item: Item)
    ensures item == Patched(stored, ExerciseFields(u))
  {
    item := stored;
    ghost var patch: Item := map[];
    assert item == Patched(stored, patch);
    if u.position.Some? {
      PatchedAssign(stored, patch, "position", Int(u.position.value));
      item, patch := item["position" := Int(u.position.value)], patch["position" := Int(u.position.value)];
    }
    if u.config.Some? {
      PatchedAssign(stored, patch, "config", ConfigValue(u.config.value));
      item, patch := item["config" := ConfigValue(u.config.value)], patch["config" := ConfigValue(u.config.value)];
    }
    if u.answerSchema.Some? {
      PatchedAssign(stored, patch, "answer_schema", SchemaValue(u.answerSchema.value));
      item, patch := item["answer_schema" := SchemaValue(u.answerSchema.value)], patch["answer_schema" := SchemaValue(u.answerSchema.value)];
    }
  }

  /** `update_exercise`: 404 without the row, 500 when the admin record has
      no `user_id`; nothing is written then. */
  function UpdatedExercise(items: map<Key, Item>, exerciseId: string, levelId: string, u: ExerciseUpdate, now: string, currentUser: Item): (r: Result<Item>)
    ensures r.Failure? <==> Lookup(items, KeyOf(ExerciseRow(levelId, exerciseId))).None? || ActingUser(currentUser).None?
    ensures r.Failure? ==> r.status == (if Lookup(items, KeyOf(ExerciseRow(levelId, exerciseId))).None? then NotFound else ServerError)
  {
    match Lookup(items, KeyOf(ExerciseRow(levelId, exerciseId)))
    case None => Failure(NotFound)
    case Some(item) =>
      match ActingUser(currentUser)
      case None => Failure(ServerError)
      case Some(userId) => Ok(Stamped(Patched(item, ExerciseFields(u)), now, userId))
  }

  /** An update sets the supplied fields, stamps the time and the admin and
      keeps every other attribute. */
  lemma UpdateExerciseFacts(items: map<Key, Item>, exerciseId: string, levelId: string, u: ExerciseUpdate, now: string, currentUser: Item)
    requires UpdatedExercise(items, exerciseId, levelId, u, now, currentUser).Ok?
    ensures var r := UpdatedExercise(items, exerciseId, levelId, u, now, currentUser).value;
      var stored := items[KeyOf(ExerciseRow(levelId, exerciseId))];
      && (forall a :: a in ExerciseFields(u) ==> a in r && r[a] == ExerciseFields(u)[a])
      && (forall a :: a in stored && a !in ExerciseFields(u) && a != "updated_at" && a != "updated_by" ==> a in r && r[a] == stored[a])
      && "updated_at" in r && r["updated_at"] == Str(now)
      && "updated_by" in r && r["updated_by"] == ActingUser(currentUser).value
  {
    ExerciseFieldsValues(u);
  }

  /** Sending the same update again (same time, same admin) stores the same
      item. */
  lemma UpdateExerciseIdempotent(items: map<Key, Item>, exerciseId: string, levelId: string, u: ExerciseUpdate, now: string, currentUser: Item)
    requires UpdatedExercise(items, exerciseId, levelId, u, now, currentUser).Ok?
    ensures var once := UpdatedExercise(items, exerciseId, levelId, u, now, currentUser).value;
      UpdatedExercise(items[KeyOf(ExerciseRow(levelId, exerciseId)) := once], exerciseId, levelId, u, now, currentUser) == Ok(once)
  {
    var stored := items[KeyOf(ExerciseRow(levelId, exerciseId))];
    var userId := ActingUser(currentUser).value;
    var p := Stamped(ExerciseFields(u), now, userId);
    PatchedThenStamped(stored, ExerciseFields(u), now, userId);
    assert "updated_at" in Patched(stored, p);
    PatchedTwice(stored, p);
    PatchedThenStamped(Patched(stored, p), ExerciseFields(u), now, userId);
  }

  method UpdateExercise(table: Table, exerciseId: string, levelId: string, u: ExerciseUpdate, now: string, currentUser: Item) returns (r: Result<Item>)
    requires table.Valid()
    modifies table
    ensures table.Valid()
    ensures r == UpdatedExercise(old(table.items), exerciseId, levelId, u, now, currentUser)
    ensures r.Ok? ==> table.items == old(table.items)[KeyOf(ExerciseRow(levelId, exerciseId)) := r.value] && table.order == old(table.order)
    ensures r.Failure? ==> unchanged(table)
  {
    var key := KeyOf(ExerciseRow(levelId, exerciseId));
    if key !in table.items || table.items[key] == map[] {
      return Failure(NotFound);
    }
    var stored := table.items[key];
    var item := ApplyExerciseFields(stored, u);
    if "user_id" !in currentUser {
      return Failure(ServerError);
    }
    item := PutStamped(table, key, stored, ExerciseFields(u), item, now, currentUser["user_id"]);
    r := Ok(item);
  }

  /** `delete_exercise`: only the exercise row goes; its translations stay. */
  method DeleteExercise(table: Table, exerciseId: string, levelId: string)
    requires table.Valid()
    modifies table
    ensures table.Valid()
    ensures table.items == old(table.items) - {KeyOf(ExerciseRow(levelId, exerciseId))}
    ensures table.order == Erase(old(table.order), KeyOf(ExerciseRow(levelId, exerciseId)))
  {
    table.Delete(KeyOf(ExerciseRow(levelId, exerciseId)));
  }

  /** After a delete the exercise is not found, and its translations are
      still stored. */
  lemma DeleteLeavesTranslations(items: map<Key, Item>, exerciseId: string, levelId: string, lang: string)
    ensures Fetched(items - {KeyOf(ExerciseRow(levelId, exerciseId))}, KeyOf(ExerciseRow(levelId, exerciseId)), ExercisePrefix + exerciseId, Some(lang)) == Failure(NotFound)
    ensures Lookup(items - {KeyOf(ExerciseRow(levelId, exerciseId))}, KeyOf(ExerciseTranslationRow(exerciseId, lang)))
      == Lookup(items, KeyOf(ExerciseTranslationRow(exerciseId, lang)))
  {
    if KeyOf(ExerciseRow(levelId, exerciseId)) == KeyOf(ExerciseTranslationRow(exerciseId, lang)) {
      KeyOfInjective(ExerciseRow(levelId, exerciseId), ExerciseTranslationRow(exerciseId, lang));
    }
  }
}
