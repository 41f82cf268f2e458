/** The key scheme of the single table: how every kind of row is addressed by
    its (PK, SK) pair, the inverse parse, and the level-id extraction the
    topic leaderboard applies to level sort keys. */
module Keys {
  import opened Values

  const UserPrefix := "USER#"
  const TopicPrefix := "TOPIC#"
  const LevelPrefix := "LEVEL#"
  const ExercisePrefix := "EXERCISE#"
  const LangPrefix := "LANG#"
  const ProgressPrefix := "PROGRESS#"
  const Metadata := "METADATA"

  /** Every kind of row the API writes or reads by key, with the ids that name it. */
  datatype Row =
    | UserRow(userId: string)
    | ProgressRow(userId: string, exerciseId: string)
    | TopicRow(topicId: string)
    | TopicTranslationRow(topicId: string, lang: string)
    | LevelRow(topicId: string, levelId: string)
    | LevelTranslationRow(levelId: string, lang: string)
    | ExerciseRow(levelId: string, exerciseId: string)
    | ExerciseTranslationRow(exerciseId: string, lang: string)

  function KeyOf(r: Row): Key
  {
    match r
    case UserRow(u) => Key(UserPrefix + u, Metadata)
    case ProgressRow(u, e) => Key(UserPrefix + u, ProgressPrefix + e)
    case TopicRow(t) => Key(TopicPrefix + t, Metadata)
    case TopicTranslationRow(t, c) => Key(TopicPrefix + t, LangPrefix + c)
    case LevelRow(t, l) => Key(TopicPrefix + t, LevelPrefix + l)
    case LevelTranslationRow(l, c) => Key(LevelPrefix + l, LangPrefix + c)
    case ExerciseRow(l, e) => Key(LevelPrefix + l, ExercisePrefix + e)
    case ExerciseTranslationRow(e, c) => Key(ExercisePrefix + e, LangPrefix + c)
  }

  /** The row a key addresses, if it is one of the API's key shapes. */
  function Parse(k: Key): Option<Row>
  {
    if StartsWith(k.pk, UserPrefix) then
      var u := k.pk[|UserPrefix|..];
      if k.sk == Metadata then Some(UserRow(u))
      else if StartsWith(k.sk, ProgressPrefix) then Some(ProgressRow(u, k.sk[|ProgressPrefix|..]))
      else None
    else if StartsWith(k.pk, TopicPrefix) then
      var t := k.pk[|TopicPrefix|..];
      if k.sk == Metadata then Some(TopicRow(t))
      else if StartsWith(k.sk, LangPrefix) then Some(TopicTranslationRow(t, k.sk[|LangPrefix|..]))
      else if StartsWith(k.sk, LevelPrefix) then Some(LevelRow(t, k.sk[|LevelPrefix|..]))
      else None
    else if StartsWith(k.pk, LevelPrefix) then
      var l := k.pk[|LevelPrefix|..];
      if StartsWith(k.sk, LangPrefix) then Some(LevelTranslationRow(l, k.sk[|LangPrefix|..]))
      else if StartsWith(k.sk, ExercisePrefix) then Some(ExerciseRow(l, k.sk[|ExercisePrefix|..]))
      else None
    else if StartsWith(k.pk, ExercisePrefix) then
      var e := k.pk[|ExercisePrefix|..];
      if StartsWith(k.sk, LangPrefix) then Some(ExerciseTranslationRow(e, k.sk[|LangPrefix|..]))
      else None
    else None
  }

  lemma PrefixFacts(p: string, s: string)
    ensures StartsWith(p + s, p) && (p + s)[|p|..] == s
  {
    assert (p + s)[..|p|] == p;
  }

  /** A string that starts with `p` does not start with `q` when the two
      prefixes differ at some position both have. */
  lemma DifferentPrefix(p: string, q: string, s: string, i: nat)
    requires i < |p| && i < |q| && p[i] != q[i]
    ensures !StartsWith(p + s, q)
  {
  }

  lemma DifferentFromMetadata(p: string, s: string)
    requires 0 < |p| && p[0] != 'M'
    ensures p + s != Metadata
  {
    assert (p + s)[0] == p[0];
  }

  /** Decoding an encoded key gives back the row: the key scheme is a
      bijection between rows and the keys of the API's shapes. */
  lemma {:induction false} ParseKeyOf(r: Row)
    ensures Parse(KeyOf(r)) == Some(r)
  {
    match r
    case UserRow(u) =>
      PrefixFacts(UserPrefix, u);
    case ProgressRow(u, e) =>
      PrefixFacts(UserPrefix, u);
      PrefixFacts(ProgressPrefix, e);
      DifferentFromMetadata(ProgressPrefix, e);
    case TopicRow(t) =>
      PrefixFacts(TopicPrefix, t);
      DifferentPrefix(TopicPrefix, UserPrefix, t, 0);
    case TopicTranslationRow(t, c) =>
      PrefixFacts(TopicPrefix, t);
      PrefixFacts(LangPrefix, c);
      DifferentPrefix(TopicPrefix, UserPrefix, t, 0);
      DifferentFromMetadata(LangPrefix, c);
    case LevelRow(t, l) =>
      PrefixFacts(TopicPrefix, t);
      PrefixFacts(LevelPrefix, l);
      DifferentPrefix(TopicPrefix, UserPrefix, t, 0);
      DifferentFromMetadata(LevelPrefix, l);
      DifferentPrefix(LevelPrefix, LangPrefix, l, 1);
    case LevelTranslationRow(l, c) =>
      PrefixFacts(LevelPrefix, l);
      PrefixFacts(LangPrefix, c);
      DifferentPrefix(LevelPrefix, UserPrefix, l, 0);
      DifferentPrefix(LevelPrefix, TopicPrefix, l, 0);
    case ExerciseRow(l, e) =>
      PrefixFacts(LevelPrefix, l);
      PrefixFacts(ExercisePrefix, e);
      DifferentPrefix(LevelPrefix, UserPrefix, l, 0);
      DifferentPrefix(LevelPrefix, TopicPrefix, l, 0);
      DifferentPrefix(ExercisePrefix, LangPrefix, e, 0);
    case ExerciseTranslationRow(e, c) =>
      PrefixFacts(ExercisePrefix, e);
      PrefixFacts(LangPrefix, c);
      DifferentPrefix(ExercisePrefix, UserPrefix, e, 0);
      DifferentPrefix(ExercisePrefix, TopicPrefix, e, 0);
      DifferentPrefix(ExercisePrefix, LevelPrefix, e, 0);
  }

  /** Whatever key parses is the encoding of the row it parses to. */
  lemma {:induction false} KeyOfParse(k: Key)
    ensures Parse(k).Some? ==> KeyOf(Parse(k).value) == k
  {
    if Parse(k).Some? {
      var r := Parse(k).value;
      forall p: string, s: string | StartsWith(s, p) ensures p + s[|p|..] == s {
        assert s == s[..|p|] + s[|p|..];
      }
    }
  }

  /** Distinct rows never share a key: no writer can overwrite another kind's row. */
  lemma KeyOfInjective(r1: Row, r2: Row)
    requires KeyOf(r1) == KeyOf(r2)
    ensures r1 == r2
  {
    ParseKeyOf(r1);
    ParseKeyOf(r2);
  }

  /** Under one topic's partition, the topic's own row, its translations and
      its levels have pairwise distinct sort keys. */
  lemma TopicPartitionDisjoint(t: string, c: string, l: string)
    ensures KeyOf(TopicRow(t)).pk == KeyOf(TopicTranslationRow(t, c)).pk == KeyOf(LevelRow(t, l)).pk
    ensures KeyOf(TopicRow(t)).sk != KeyOf(TopicTranslationRow(t, c)).sk
    ensures KeyOf(TopicRow(t)).sk != KeyOf(LevelRow(t, l)).sk
    ensures KeyOf(TopicTranslationRow(t, c)).sk != KeyOf(LevelRow(t, l)).sk
  {
    if KeyOf(TopicRow(t)) == KeyOf(TopicTranslationRow(t, c)) { KeyOfInjective(TopicRow(t), TopicTranslationRow(t, c)); }
    if KeyOf(TopicRow(t)) == KeyOf(LevelRow(t, l)) { KeyOfInjective(TopicRow(t), LevelRow(t, l)); }
    if KeyOf(TopicTranslationRow(t, c)) == KeyOf(LevelRow(t, l)) { KeyOfInjective(TopicTranslationRow(t, c), LevelRow(t, l)); }
  }

  /** Under one level's partition, its translations and its exercises have
      distinct sort keys. */
  lemma LevelPartitionDisjoint(l: string, c: string, e: string)
    ensures KeyOf(LevelTranslationRow(l, c)).pk == KeyOf(ExerciseRow(l, e)).pk
    ensures KeyOf(LevelTranslationRow(l, c)).sk != KeyOf(ExerciseRow(l, e)).sk
  {
    if KeyOf(LevelTranslationRow(l, c)) == KeyOf(ExerciseRow(l, e)) {
      KeyOfInjective(LevelTranslationRow(l, c), ExerciseRow(l, e));
    }
  }

  /** `item['SK'].replace('LEVEL#', '')`, the level id the topic leaderboard
      reads from a level's sort key. */
  function LevelIdOfSortKey(sk: string): string
  {
    RemoveAll(sk, LevelPrefix)
  }

  /** The id read back from a level's sort key is the level id with every
      `LEVEL#` in it removed: the key's own prefix goes, and so does any
      occurrence inside the id. */
  lemma LevelIdOfAnyLevelKey(t: string, l: string)
    ensures LevelIdOfSortKey(KeyOf(LevelRow(t, l)).sk) == RemoveAll(l, LevelPrefix)
  {
    assert (LevelPrefix + l)[..|LevelPrefix|] == LevelPrefix;
    assert (LevelPrefix + l)[|LevelPrefix|..] == l;
  }

  /** For a level id that does not itself contain `LEVEL#` (every generated
      id), the replace gives back exactly the id the level was written with. */
  lemma LevelIdOfLevelKey(t: string, l: string)
    requires !Contains(l, LevelPrefix)
    ensures LevelIdOfSortKey(KeyOf(LevelRow(t, l)).sk) == l
  {
    LevelIdOfAnyLevelKey(t, l);
    RemoveAllAbsent(l, LevelPrefix);
  }

  /** `replace` removes every occurrence, not only the leading one: a level
      whose id is `LEVEL#x` is read back as level `x`. */
  lemma ReplaceRemovesInnerOccurrences()
    ensures LevelIdOfSortKey(KeyOf(LevelRow("t", "LEVEL#x")).sk) == "x"
  {
    LevelIdOfAnyLevelKey("t", "LEVEL#x");
    assert "LEVEL#x"[..|LevelPrefix|] == LevelPrefix;
    assert "LEVEL#x"[|LevelPrefix|..] == "x";
  }
}
