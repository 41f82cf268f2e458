/** User progress: the read-modify-write upsert of one `(USER#u,
    PROGRESS#e)` record per submission, the lookup of one record, and the
    per-level and per-user counters over a user's `PROGRESS#` records. */
module Progress {
  import opened Values
  import opened Keys
  import opened Seqs
  import opened Store

  /** `ProgressStatus` */
  datatype Status = NotStarted | InProgress | Completed | Failed

  function StatusText(s: Status): string
  {
    match s
    case NotStarted => "not_started"
    case InProgress => "in_progress"
    case Completed => "completed"
    case Failed => "failed"
  }

  /** The request body `ProgressSubmit`. */
  datatype ProgressSubmit = ProgressSubmit(
    exerciseId: string,
    levelId: string,
    status: Status,
    score: Option<real>,
    data: Option<map<string, Value>>)

  const ProgressEntity := "user_progress"

  function Max(a: real, b: real): real
  {
    if a < b then b else a
  }

  /** The attributes a progress record can hold. */
  const RecordFields: set<string> := {
    "PK", "SK", "entity_type", "user_id", "exercise_id", "level_id", "status", "attempts",
    "last_attempt_at", "score", "best_score", "data", "created_at", "updated_at"}

  /** `response.get('Item', {})` */
  function Existing(m: map<Key, Item>, k: Key): Item
  {
    if k in m then m[k] else map[]
  }

  /** The attributes every submission writes. */
  const BaseFields: set<string> := {
    "PK", "SK", "entity_type", "user_id", "exercise_id", "level_id", "status", "attempts", "last_attempt_at"}

  /** The record's attributes that do not depend on a score, data or the
      previous record, with `attempts` already counted. */
  function ProgressBase(userId: string, p: ProgressSubmit, attempts: int, now: string): (r: Item)
    ensures KeyedBy(r, KeyOf(ProgressRow(userId, p.exerciseId)))
    ensures "attempts" in r && r["attempts"] == Int(attempts)
    ensures "status" in r && r["status"] == Str(StatusText(p.status))
    ensures "level_id" in r && r["level_id"] == Str(p.levelId)
    ensures "last_attempt_at" in r && r["last_attempt_at"] == Str(now)
  {
    map[
      "PK" := Str(UserPrefix + userId),
      "SK" := Str(ProgressPrefix + p.exerciseId),
      "entity_type" := Str(ProgressEntity),
      "user_id" := Str(userId),
      "exercise_id" := Str(p.exerciseId),
      "level_id" := Str(p.levelId),
      "status" := Str(StatusText(p.status)),
      "attempts" := Int(attempts),
      "last_attempt_at" := Str(now)]
  }

  /** The new `best_score` for a submitted score `s`: the score itself when
      nothing was stored or it is strictly higher, the stored value otherwise.
      Either way it is the larger of the two. */
  function BestScore(existing: Item, s: real): (v: Value)
    requires "best_score" in existing ==> FloatOf(existing["best_score"]).Some?
    ensures FloatOf(v) == Some(if "best_score" in existing then Max(FloatOf(existing["best_score"]).value, s) else s)
    ensures "best_score" in existing && s <= FloatOf(existing["best_score"]).value ==> v == existing["best_score"]
  {
    if "best_score" !in existing || s > FloatOf(existing["best_score"]).value then Float(s) else existing["best_score"]
  }

  /** The record a submission writes over `existing` (the empty item when
      there was none), or 500 when `int()` of the stored attempts or
      `float()` of the stored best score raises. */
  function Merge(existing: Item, userId: string, p: ProgressSubmit, now: string): (r: Result<Item>)
    ensures r.Failure? <==>
      || IntOf(Get(existing, "attempts", Int(0))).None?
      || (p.score.Some? && "best_score" in existing && FloatOf(existing["best_score"]).None?)
    ensures r.Failure? ==> r.status == ServerError
    ensures r.Ok? ==> KeyedBy(r.value, KeyOf(ProgressRow(userId, p.exerciseId)))
  {
    var attempts := IntOf(Get(existing, "attempts", Int(0)));
    if attempts.None? then Failure(ServerError)
    else if p.score.Some? && "best_score" in existing && FloatOf(existing["best_score"]).None? then Failure(ServerError)
    else
      var base := ProgressBase(userId, p, attempts.value + 1, now);
      var scored :=
        if p.score.None? then base
        else base["score" := Float(p.score.value)]["best_score" := BestScore(existing, p.score.value)];
      var withData := if p.data.Some? && p.data.value != map[] then scored["data" := Dict(p.data.value)] else scored;
      var created := if "created_at" in existing then existing["created_at"] else Str(now);
      Ok(withData["created_at" := created]["updated_at" := Str(now)])
  }

  /** Every submission counts one more attempt and overwrites `status`,
      `level_id` and `last_attempt_at`. */
  lemma MergeCounts(existing: Item, userId: string, p: ProgressSubmit, now: string)
    requires Merge(existing, userId, p, now).Ok?
    ensures var rec := Merge(existing, userId, p, now).value;
      && "attempts" in rec && rec["attempts"] == Int(IntOf(Get(existing, "attempts", Int(0))).value + 1)
      && "status" in rec && rec["status"] == Str(StatusText(p.status))
      && "level_id" in rec && rec["level_id"] == Str(p.levelId)
      && "last_attempt_at" in rec && rec["last_attempt_at"] == Str(now)
  {
  }

  /** With a score, `score` is the new score and `best_score` the larger of
      the stored best and the new score, replaced only by a strictly higher
      score; without one, the overwrite drops both. */
  lemma MergeScores(existing: Item, userId: string, p: ProgressSubmit, now: string)
    requires Merge(existing, userId, p, now).Ok?
    ensures var rec := Merge(existing, userId, p, now).value;
      && ("score" in rec <==> p.score.Some?) && ("best_score" in rec <==> p.score.Some?)
      && (p.score.Some? ==> rec["score"] == Float(p.score.value))
      && (p.score.Some? ==>
            FloatOf(rec["best_score"]) ==
              Some(if "best_score" in existing then Max(FloatOf(existing["best_score"]).value, p.score.value) else p.score.value))
      && (p.score.Some? && "best_score" in existing && p.score.value <= FloatOf(existing["best_score"]).value ==>
            rec["best_score"] == existing["best_score"])
  {
  }

  /** `created_at` is copied from the stored record when it has one and is
      the current time otherwise; `updated_at` is the current time; `data`
      is written only when non-empty data was sent. */
  lemma MergeStamps(existing: Item, userId: string, p: ProgressSubmit, now: string)
    requires Merge(existing, userId, p, now).Ok?
    ensures var rec := Merge(existing, userId, p, now).value;
      && "created_at" in rec && rec["created_at"] == (if "created_at" in existing then existing["created_at"] else Str(now))
      && "updated_at" in rec && rec["updated_at"] == Str(now)
      && ("data" in rec <==> p.data.Some? && p.data.value != map[])
  {
  }

  /** A record holds every attribute a submission always writes and only
      attributes of a progress record. */
  lemma MergeFields(existing: Item, userId: string, p: ProgressSubmit, now: string)
    requires Merge(existing, userId, p, now).Ok?
    ensures BaseFields <= Merge(existing, userId, p, now).value.Keys <= RecordFields
  {
  }

  /** The dict `submit_progress` builds, field by field, from the stored
      record `existing`. */
  method BuildRecord(existing: Item, userId: string, p: ProgressSubmit, now: string) returns (r: Result<Item>)
    ensures r == Merge(existing, userId, p, now)
  {
    var attempts := IntOf(Get(existing, "attempts", Int(0)));
    if attempts.None? {
      return Failure(ServerError);
    }
    var base := ProgressBase(userId, p, attempts.value + 1, now);
    var scored := base;
    if p.score.Some? {
      var s := p.score.value;
      var best;
      if "best_score" !in existing {
        best := Float(s);
      } else {
        var prior := FloatOf(existing["best_score"]);
        if prior.None? {
          return Failure(ServerError);
        }
        if s > prior.value {
          best := Float(s);
        } else {
          best := existing["best_score"];
        }
      }
      assert best == BestScore(existing, s);
      scored := base["score" := Float(s)]["best_score" := best];
    }
    var withData := scored;
    if p.data.Some? && p.data.value != map[] {
      withData := scored["data" := Dict(p.data.value)];
    }
    var created;
    if "created_at" !in existing {
      created := Str(now);
    } else {
      created := existing["created_at"];
    }
    r := Ok(withData["created_at" := created]["updated_at" := Str(now)]);
  }

  /** `submit_progress`: reads the record, writes the merged record over it,
      and returns it; on 500 nothing is written. */
  method SubmitProgress(table: Table, userId: string, p: ProgressSubmit, now: string) returns (r: Result<Item>)
    requires table.Valid()
    modifies table
    ensures table.Valid()
    ensures r == Merge(Existing(old(table.items), KeyOf(ProgressRow(userId, p.exerciseId))), userId, p, now)
    ensures r.Ok? ==> table.items == old(table.items)[KeyOf(ProgressRow(userId, p.exerciseId)) := r.value]
    ensures r.Ok? ==>
      table.order == (if KeyOf(ProgressRow(userId, p.exerciseId)) in old(table.items) then old(table.order)
                      else old(table.order) + [KeyOf(ProgressRow(userId, p.exerciseId))])
    ensures r.Failure? ==> unchanged(table)
  {
    var key := KeyOf(ProgressRow(userId, p.exerciseId));
    var existing := if key in table.items then table.items[key] else map[];
    r := BuildRecord(existing, userId, p, now);
    if r.Ok? {
      assert KeyAttrs(r.value) == Some(key);
      table.Put(r.value);
    }
  }

  /** One submission and the time it was made. */
  datatype Submission = Submission(p: ProgressSubmit, now: string)

  /** The record after a sequence of submissions, starting from `existing`. */
  function Replay(existing: Item, userId: string, subs: seq<Submission>): Result<Item>
  {
    if subs == [] then Ok(existing)
    else
      match Replay(existing, userId, subs[..|subs| - 1])
      case Failure(status) => Failure(status)
      case Ok(prev) => Merge(prev, userId, subs[|subs| - 1].p, subs[|subs| - 1].now)
  }

  predicate AllScored(subs: seq<Submission>)
  {
    forall i :: 0 <= i < |subs| ==> subs[i].p.score.Some?
  }

  /** The largest score of a non-empty sequence of scored submissions. */
  function MaxScore(subs: seq<Submission>): real
    requires |subs| > 0 && AllScored(subs)
  {
    if |subs| == 1 then subs[0].p.score.value
    else Max(MaxScore(subs[..|subs| - 1]), subs[|subs| - 1].p.score.value)
  }

  /** From no record, N submissions leave `attempts` at N and `created_at` at
      the time of the first; when every submission carries a score,
      `best_score` is the largest of them and `score` the latest. */
  lemma {:induction false} ReplayFromNothing(userId: string, subs: seq<Submission>)
    requires |subs| > 0
    ensures Replay(map[], userId, subs).Ok?
    ensures var rec := Replay(map[], userId, subs).value;
      && "attempts" in rec && rec["attempts"] == Int(|subs|)
      && "created_at" in rec && rec["created_at"] == Str(subs[0].now)
      && ("best_score" in rec ==> FloatOf(rec["best_score"]).Some?)
      && (AllScored(subs) ==>
            && "best_score" in rec && FloatOf(rec["best_score"]) == Some(MaxScore(subs))
            && "score" in rec && rec["score"] == Float(subs[|subs| - 1].p.score.value))
  {
    var init := subs[..|subs| - 1];
    var last := subs[|subs| - 1];
    var prev: Item := map[];
    if |subs| > 1 {
      ReplayFromNothing(userId, init);
      prev := Replay(map[], userId, init).value;
      assert init[0] == subs[0];
      if AllScored(subs) {
        assert AllScored(init) by {
          forall i | 0 <= i < |init| ensures init[i].p.score.Some? {
            assert init[i] == subs[i];
          }
        }
      }
    }
    assert Replay(map[], userId, subs) == Merge(prev, userId, last.p, last.now);
    MergeCounts(prev, userId, last.p, last.now);
    MergeScores(prev, userId, last.p, last.now);
    MergeStamps(prev, userId, last.p, last.now);
  }

  /** A submission never lowers a stored best score, but one without a score
      drops it: the record is overwritten, not patched. */
  lemma BestScoreAcrossOneSubmission(existing: Item, userId: string, p: ProgressSubmit, now: string)
    requires Merge(existing, userId, p, now).Ok?
    requires "best_score" in existing
    ensures var rec := Merge(existing, userId, p, now).value;
      && (p.score.Some? ==> FloatOf(rec["best_score"]).value >= FloatOf(existing["best_score"]).value)
      && (p.score.None? ==> "best_score" !in rec)
  {
  }

  /** A record-changing submission does not move `created_at`: once written,
      each later submission copies it. */
  lemma {:induction false} CreatedAtStable(existing: Item, userId: string, subs: seq<Submission>)
    requires "created_at" in existing
    requires Replay(existing, userId, subs).Ok?
    ensures Replay(existing, userId, subs).value["created_at"] == existing["created_at"]
  {
    if subs != [] {
      var init := subs[..|subs| - 1];
      CreatedAtStable(existing, userId, init);
    }
  }

  // ----- Reads -----

  /** The key condition `PK = USER#u AND begins_with(SK, 'PROGRESS#')`. */
  predicate IsProgressOf(item: Item, userId: string)
  {
    && Get(item, "PK", Null) == Str(UserPrefix + userId)
    && Get(item, "SK", Null).Str? && StartsWith(Get(item, "SK", Null).s, ProgressPrefix)
  }

  function UserProgress(rows: seq<Item>, userId: string): seq<Item>
  {
    Filter(rows, x => IsProgressOf(x, userId))
  }

  /** The same query with the filter `level_id = :level_id`. */
  function LevelItems(rows: seq<Item>, userId: string, levelId: string): seq<Item>
  {
    Filter(rows, x => IsProgressOf(x, userId) && Get(x, "level_id", Null) == Str(levelId))
  }

  /** `sum(1 for p in items if p.get('status') == 'completed')` */
  function CountCompleted(items: seq<Item>): (r: nat)
    ensures r <= |items|
    ensures r == 0 <== forall i :: 0 <= i < |items| ==> Get(items[i], "status", Null) != Str("completed")
  {
    if items == [] then 0
    else CountCompleted(items[1..]) + (if Get(items[0], "status", Null) == Str("completed") then 1 else 0)
  }

  /** `sum(float(p.get('best_score', 0)) for p in items)`; `None` where `float()` raises. */
  function SumBest(items: seq<Item>): (r: Option<real>)
    ensures r.Some? <==> forall i :: 0 <= i < |items| ==> FloatOf(Get(items[i], "best_score", Int(0))).Some?
  {
    if items == [] then Some(0.0)
    else
      match (FloatOf(Get(items[0], "best_score", Int(0))), SumBest(items[1..]))
      case (Some(x), Some(rest)) => Some(x + rest)
      case _ => None
  }

  /** `sum(int(p.get('attempts', 0)) for p in items)`; `None` where `int()` raises. */
  function SumAttempts(items: seq<Item>): (r: Option<int>)
    ensures r.Some? <==> forall i :: 0 <= i < |items| ==> IntOf(Get(items[i], "attempts", Int(0))).Some?
  {
    if items == [] then Some(0)
    else
      match (IntOf(Get(items[0], "attempts", Int(0))), SumAttempts(items[1..]))
      case (Some(x), Some(rest)) => Some(x + rest)
      case _ => None
  }

  /** `completed / total * 100`, or 0 with no items. */
  function Percentage(completed: nat, total: nat): (r: real)
    ensures total == 0 ==> r == 0.0
    ensures completed <= total ==> 0.0 <= r <= 100.0
  {
    if total > 0 then completed as real / total as real * 100.0 else 0.0
  }

  datatype LevelReport = LevelReport(
    levelId: string,
    progress: seq<Item>,
    totalExercises: nat,
    completedExercises: nat,
    completionPercentage: real,
    averageScore: real)

  datatype Summary = Summary(
    userId: string,
    totalExercisesAttempted: nat,
    totalCompleted: nat,
    totalScore: real,
    totalAttempts: int,
    completionRate: real)

  /** `get_level_progress` over the query result `items`: the best-score sum
      is only taken, and can only fail, when there are items. */
  function LevelReportOf(levelId: string, items: seq<Item>): Result<LevelReport>
  {
    var total := |items|;
    var completed := CountCompleted(items);
    if total == 0 then Ok(LevelReport(levelId, items, 0, completed, 0.0, 0.0))
    else match SumBest(items)
      case None => Failure(ServerError)
      case Some(sum) => Ok(LevelReport(levelId, items, total, completed, Percentage(completed, total), sum / total as real))
  }

  /** `get_user_summary` over the query result `items`. */
  function SummaryOf(userId: string, items: seq<Item>): Result<Summary>
  {
    var total := |items|;
    var completed := CountCompleted(items);
    match (SumBest(items), SumAttempts(items))
    case (Some(score), Some(attempts)) => Ok(Summary(userId, total, completed, score, attempts, Percentage(completed, total)))
    case _ => Failure(ServerError)
  }

  method GetLevelProgress(table: Table, userId: string, levelId: string) returns (r: Result<LevelReport>)
    requires table.Valid()
    ensures r == LevelReportOf(levelId, LevelItems(table.Rows(), userId, levelId))
  {
    r := LevelReportOf(levelId, LevelItems(table.Rows(), userId, levelId));
  }

  method GetUserSummary(table: Table, userId: string) returns (r: Result<Summary>)
    requires table.Valid()
    ensures r == SummaryOf(userId, UserProgress(table.Rows(), userId))
  {
    r := SummaryOf(userId, UserProgress(table.Rows(), userId));
  }

  /** The answer for an exercise without a record. */
  function NotStartedRecord(exerciseId: string): Item
  {
    map["exercise_id" := Str(exerciseId), "status" := Str(StatusText(NotStarted)), "attempts" := Int(0)]
  }

  /** `get_exercise_progress`: the stored record, or `not_started` with no
      attempts when there is none; never an error. */
  method GetExerciseProgress(table: Table, userId: string, exerciseId: string) returns (r: Item)
    ensures KeyOf(ProgressRow(userId, exerciseId)) !in table.items ==>
      r.Keys == {"exercise_id", "status", "attempts"} &&
      r["status"] == Str("not_started") && r["attempts"] == Int(0) && r["exercise_id"] == Str(exerciseId)
    ensures KeyOf(ProgressRow(userId, exerciseId)) in table.items && table.items[KeyOf(ProgressRow(userId, exerciseId))] != map[] ==>
      r == table.items[KeyOf(ProgressRow(userId, exerciseId))]
  {
    var key := KeyOf(ProgressRow(userId, exerciseId));
    if key !in table.items || table.items[key] == map[] {
      return NotStartedRecord(exerciseId);
    }
    r := table.items[key];
  }

  // ----- Properties of the reads -----

  /** The level query returns exactly the user's `PROGRESS#` records whose
      `level_id` is the level. */
  lemma LevelItemsExactly(table: Table, userId: string, levelId: string, x: Item)
    requires table.Valid()
    ensures x in LevelItems(table.Rows(), userId, levelId) <==>
      exists k :: k in table.items && table.items[k] == x && k.pk == UserPrefix + userId
        && StartsWith(k.sk, ProgressPrefix) && Get(x, "level_id", Null) == Str(levelId)
  {
    InRows(table, x);
  }

  /** Completed records never outnumber records, and rates are 0 with none. */
  lemma CountersBounded(levelId: string, userId: string, items: seq<Item>)
    ensures LevelReportOf(levelId, items).Ok? ==>
      var rep := LevelReportOf(levelId, items).value;
      && rep.completedExercises <= rep.totalExercises
      && 0.0 <= rep.completionPercentage <= 100.0
      && (rep.totalExercises == 0 ==> rep.completionPercentage == 0.0 && rep.averageScore == 0.0)
    ensures SummaryOf(userId, items).Ok? ==>
      var s := SummaryOf(userId, items).value;
      && s.totalCompleted <= s.totalExercisesAttempted
      && 0.0 <= s.completionRate <= 100.0
      && (s.totalExercisesAttempted == 0 ==> s.completionRate == 0.0 && s.totalScore == 0.0 && s.totalAttempts == 0)
  {
  }

  /** The level's average is the mean best score, so it lies between the
      smallest and the largest best score of the level's records. */
  lemma {:induction false} SumBestBounds(items: seq<Item>, lo: real, hi: real)
    requires SumBest(items).Some?
    requires forall i :: 0 <= i < |items| ==> lo <= FloatOf(Get(items[i], "best_score", Int(0))).value <= hi
    ensures |items| as real * lo <= SumBest(items).value <= |items| as real * hi
  {
    if items != [] {
      SumBestBounds(items[1..], lo, hi);
    }
  }
}
