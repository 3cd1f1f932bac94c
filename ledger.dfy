/**
 * The achievement ledger: the aggregate `yd_scores` that every task folds its
 * result into, at most once per task, guarded by a `<task>_counted` marker.
 *
 * Both task screens run the same read-modify-write (they differ only in when
 * the `<task>_done` flag is written); `Commit` is the store that results, and the
 * task modules prove their step-by-step writes against it.
 */
module Ledger {
  import opened Storage

  /** Skill tiers, ordered. */
  datatype Tier = Beginner | Advanced | Expert

  function Rank(t: Tier): nat
  {
    match t
    case Beginner => 0
    case Advanced => 1
    case Expert => 2
  }

  function TierId(t: Tier): string
  {
    match t
    case Beginner => "beginner"
    case Advanced => "advanced"
    case Expert => "expert"
  }

  /** The build-time `process.env.PUBLIC_URL` prefix of every asset path. */
  const PublicUrl: string := ""

  /** A badge as the screens store it: `{ id, src }`. */
  datatype Badge = Badge(id: string, src: string)

  /** The badge of a tier for a task whose images live under `/world1/<folder>/`. */
  function TierBadge(t: Tier, folder: string): Badge
  {
    Badge(TierId(t), PublicUrl + "/world1/" + folder + "/" + TierId(t) + ".png")
  }

  function BadgeJson(b: Badge): Json
  {
    JObj(map["id" := JStr(b.id), "src" := JStr(b.src)])
  }

  /** `badges.map((b) => ({ id: b.id, src: b.src }))` */
  function BadgesJson(bs: seq<Badge>): seq<Json>
  {
    seq(|bs|, k requires 0 <= k < |bs| => BadgeJson(bs[k]))
  }

  const ScoresKey: string := "yd_scores"

  /** The three keys a task owns: its record, its counted marker, its done flag. */
  datatype TaskKeys = TaskKeys(record: string, counted: string, done: string)

  predicate KeysDistinct(k: TaskKeys)
  {
    && k.record != k.counted && k.record != k.done && k.counted != k.done
    && k.record != ScoresKey && k.counted != ScoresKey && k.done != ScoresKey
  }

  const Task2Keys: TaskKeys := TaskKeys("yd_world1_task2", "yd_world1_task2_counted", "yd_world1_task2_done")
  const Task4Keys: TaskKeys := TaskKeys("yd_world1_task4", "yd_world1_task4_counted", "yd_world1_task4_done")

  /** What a finished task hands to the ledger. */
  datatype TaskResult = TaskResult(points: real, curiosity: real, badges: seq<Badge>, record: Json)

  /** `{ totalPoints: 0, totalCuriosityPoints: 0, badges: [] }` */
  const EmptyScores: Json := JObj(map["totalPoints" := JNum(0.0), "totalCuriosityPoints" := JNum(0.0), "badges" := JArr([])])

  /**
   * The number `(x || 0)` contributes to a numeric `+`: a falsy or missing total
   * is 0 and `true` is 1.  A truthy text, array or object would make JavaScript
   * concatenate strings; the model counts it as 0.
   */
  function NumOrZero(x: Option<Json>): real
  {
    match x
    case Some(JNum(n)) => n
    case Some(JBool(true)) => 1.0
    case _ => 0.0
  }

  /** `Array.isArray(prev.badges) ? prev.badges : []` */
  function StoredBadges(prev: Json): seq<Json>
  {
    match Field(prev, "badges")
    case Some(JArr(items)) => items
    case _ => []
  }

  /** The aggregate written back: totals raised by the task's result, its badges appended. */
  function Merged(prev: Json, r: TaskResult): Json
  {
    JObj(map[
      "totalPoints" := JNum(NumOrZero(Field(prev, "totalPoints")) + r.points),
      "totalCuriosityPoints" := JNum(NumOrZero(Field(prev, "totalCuriosityPoints")) + r.curiosity),
      "badges" := JArr(StoredBadges(prev) + BadgesJson(r.badges))
    ])
  }

  /** `safeRead("yd_scores") || { totalPoints: 0, ... }` */
  function PrevScores(cells: map<string, Cell>, enabled: bool): Json
  {
    var v := SafeRead(cells, enabled, ScoresKey);
    if Truthy(v) then v else EmptyScores
  }

  predicate Counted(cells: map<string, Cell>, enabled: bool, k: TaskKeys)
  {
    Truthy(SafeRead(cells, enabled, k.counted))
  }

  /**
   * The store after one commit: the record and the done flag always written;
   * the aggregate merged and the marker set only when the marker read falsy.
   */
  function Commit(cells: map<string, Cell>, enabled: bool, k: TaskKeys, r: TaskResult): map<string, Cell>
  {
    if !enabled then cells
    else
      var c1 := cells[k.record := Parsed(r.record)];
      var c2 := if Counted(c1, enabled, k) then c1
                else c1[ScoresKey := Parsed(Merged(PrevScores(c1, enabled), r))][k.counted := Parsed(JBool(true))];
      c2[k.done := Parsed(JBool(true))]
  }

  /** Commits of a sequence of runs of one task, in order. */
  function CommitAll(cells: map<string, Cell>, enabled: bool, k: TaskKeys, rs: seq<TaskResult>): map<string, Cell>
    decreases |rs|
  {
    if rs == [] then cells else CommitAll(Commit(cells, enabled, k, rs[0]), enabled, k, rs[1..])
  }

  /** The record and the done flag are written on every commit; other tasks' keys never move. */
  lemma CommitAlwaysWrites(cells: map<string, Cell>, enabled: bool, k: TaskKeys, r: TaskResult, other: string)
    requires enabled && KeysDistinct(k)
    ensures Commit(cells, enabled, k, r)[k.record] == Parsed(r.record)
    ensures Commit(cells, enabled, k, r)[k.done] == Parsed(JBool(true))
    ensures Counted(Commit(cells, enabled, k, r), enabled, k)
    ensures other !in {k.record, k.counted, k.done, ScoresKey} && other in cells ==>
              other in Commit(cells, enabled, k, r) && Commit(cells, enabled, k, r)[other] == cells[other]
    ensures other !in {k.record, k.counted, k.done, ScoresKey} && other !in cells ==>
              other !in Commit(cells, enabled, k, r)
  {
  }

  /** The first commit of a task folds its result into the aggregate; a counted task leaves it alone. */
  lemma CommitMergesUnlessCounted(cells: map<string, Cell>, enabled: bool, k: TaskKeys, r: TaskResult)
    requires enabled && KeysDistinct(k)
    ensures !Counted(cells, enabled, k) ==>
              Commit(cells, enabled, k, r)[ScoresKey] == Parsed(Merged(PrevScores(cells, enabled), r))
    ensures Counted(cells, enabled, k) ==>
              (ScoresKey in Commit(cells, enabled, k, r) <==> ScoresKey in cells) &&
              (ScoresKey in cells ==> Commit(cells, enabled, k, r)[ScoresKey] == cells[ScoresKey])
  {
    var c1 := cells[k.record := Parsed(r.record)];
    assert SafeRead(c1, enabled, k.counted) == SafeRead(cells, enabled, k.counted);
    assert SafeRead(c1, enabled, ScoresKey) == SafeRead(cells, enabled, ScoresKey);
  }

  /**
   * A second commit of the same task changes nothing but the task's own record:
   * the aggregate, the marker and the done flag stay as the first commit left them.
   */
  lemma CommitTwice(cells: map<string, Cell>, enabled: bool, k: TaskKeys, r1: TaskResult, r2: TaskResult)
    requires KeysDistinct(k)
    ensures Commit(Commit(cells, enabled, k, r1), enabled, k, r2) ==
            (if enabled then Commit(cells, enabled, k, r1)[k.record := Parsed(r2.record)] else cells)
  {
    if enabled {
      var once := Commit(cells, enabled, k, r1);
      CommitAlwaysWrites(cells, enabled, k, r1, k.record);
      var c1 := once[k.record := Parsed(r2.record)];
      assert SafeRead(c1, enabled, k.counted) == SafeRead(once, enabled, k.counted);
      assert Counted(c1, enabled, k);
      assert c1[k.done := Parsed(JBool(true))] == c1;
    }
  }

  /** However many times a task commits, the aggregate holds exactly its first result. */
  lemma {:induction false} CommitAllOnce(cells: map<string, Cell>, enabled: bool, k: TaskKeys, rs: seq<TaskResult>)
    requires KeysDistinct(k) && |rs| > 0
    ensures (ScoresKey in CommitAll(cells, enabled, k, rs) <==> ScoresKey in Commit(cells, enabled, k, rs[0]))
    ensures ScoresKey in Commit(cells, enabled, k, rs[0]) ==>
              CommitAll(cells, enabled, k, rs)[ScoresKey] == Commit(cells, enabled, k, rs[0])[ScoresKey]
    ensures enabled ==> Counted(CommitAll(cells, enabled, k, rs), enabled, k)
    decreases |rs|
  {
    var once := Commit(cells, enabled, k, rs[0]);
    if |rs| == 1 {
      assert CommitAll(once, enabled, k, rs[1..]) == once;
      if enabled {
        CommitAlwaysWrites(cells, enabled, k, rs[0], k.record);
      }
    } else {
      CommitTwice(cells, enabled, k, rs[0], rs[1]);
      CommitAllOnce(once, enabled, k, rs[1..]);
      assert rs[1..][0] == rs[1];
    }
  }

  /** With a numeric aggregate, a first commit raises each total by the task's amount. */
  lemma CommitAddsTotals(cells: map<string, Cell>, enabled: bool, k: TaskKeys, r: TaskResult, total: real, curiosity: real, badges: seq<Json>)
    requires enabled && KeysDistinct(k) && !Counted(cells, enabled, k)
    requires SafeRead(cells, enabled, ScoresKey) ==
             JObj(map["totalPoints" := JNum(total), "totalCuriosityPoints" := JNum(curiosity), "badges" := JArr(badges)])
    ensures Commit(cells, enabled, k, r)[ScoresKey] ==
            Parsed(JObj(map["totalPoints" := JNum(total + r.points),
                            "totalCuriosityPoints" := JNum(curiosity + r.curiosity),
                            "badges" := JArr(badges + BadgesJson(r.badges))]))
  {
    CommitMergesUnlessCounted(cells, enabled, k, r);
  }

  /** A store that throws on every access is left exactly as it was. */
  lemma {:induction false} CommitDisabled(cells: map<string, Cell>, k: TaskKeys, rs: seq<TaskResult>)
    ensures CommitAll(cells, false, k, rs) == cells
    decreases |rs|
  {
    if rs != [] {
      CommitDisabled(Commit(cells, false, k, rs[0]), k, rs[1..]);
    }
  }
}
