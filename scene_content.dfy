/**
 * Task 4 content: the four scenes, the pool of value labels, how a scene's four
 * value options are drawn (one correct label and three distinct wrong ones,
 * shuffled) and the skill badge earned from the number of correct actions.
 *
 * `Math.random` is a parameter: `rand(n)` is the n-th draw of `sampleUnique`
 * (taken modulo the pool size, so every index the source can draw is
 * reachable), and the shuffle by `sort(() => Math.random() - 0.5)` is a
 * permutation `order` of the four positions.
 */
module SceneContent {
  import Ledger

  const ValuePool: seq<string> := [
    "TRANSPARENCY", "PARTICIPATION", "TRANSPARENCY/PARTICIPATION", "FAIRNESS", "EQUALITY",
    "FAIRNESS/EQUALITY", "DIGNITY", "RESPECT", "DIGNITY/RESPECT", "ACCOUNTABILITY",
    "RULE OF LAW", "INCLUSION", "SOLIDARITY", "NONDISCRIMINATION", "PRIVACY",
    "FREE SPEECH", "SAFETY", "TRUST", "OPENNESS", "DUE PROCESS"
  ]

  datatype ActionOption = ActionOption(key: string, text: string, correct: bool)

  /** A scene: its action options (part one) and the label of its correct value (part two). */
  datatype Scene = Scene(id: nat, actionOptions: seq<ActionOption>, correctValue: string)

  const SceneCount: nat := 4

  const Scene1Actions: seq<ActionOption> := [
      ActionOption("A", "GIVE UP", false),
      ActionOption("B", "ASK FOR PARTICIPATION: MEETING, TRANSPARENT BUDGET INFO, STUDENT REPS", true),
      ActionOption("C", "START RUMORS", false),
      ActionOption("D", "VANDALIZE THE OFFICE", false)]

  const Scene2Actions: seq<ActionOption> := [
      ActionOption("A", "JOIN IN SO YOU'RE NOT NEXT", false),
      ActionOption("B", "CHECK IN WITH THE TARGET + REPORT + SET GROUP RULES", true),
      ActionOption("C", "POST MORE MEMES", false),
      ActionOption("D", "DOX THE TARGET", false)]

  const Scene3Actions: seq<ActionOption> := [
      ActionOption("A", "SPREAD RUMORS", false),
      ActionOption("B", "DOCUMENT, USE HR/WHISTLEBLOWING CHANNELS, ASK FOR CLEAR CRITERIA", true),
      ActionOption("C", "QUIT WITHOUT SAYING ANYTHING", false),
      ActionOption("D", "SABOTAGE PROJECTS", false)]

  const Scene4Actions: seq<ActionOption> := [
      ActionOption("A", "SHOUT AT PEOPLE ONLINE", false),
      ActionOption("B", "REQUEST DOCUMENTS, ATTEND MEETINGS, ASK FOR PUBLIC CONSULTATION", true),
      ActionOption("C", "GIVE UP", false),
      ActionOption("D", "THREATEN COUNCIL MEMBERS", false)]

  /** The action options of `SCENES[i]`; option B is the correct one in every scene. */
  function ActionOptionsAt(i: nat): seq<ActionOption>
    requires i < SceneCount
  {
    match i
    case 0 => Scene1Actions
    case 1 => Scene2Actions
    case 2 => Scene3Actions
    case _ => Scene4Actions
  }

  const Scene1Value: string := "TRANSPARENCY/PARTICIPATION"
  const Scene2Value: string := "DIGNITY/RESPECT"
  const Scene3Value: string := "FAIRNESS/EQUALITY"
  const Scene4Value: string := "TRANSPARENCY"

  /** The correct value of `SCENES[i]`. */
  function CorrectValueAt(i: nat): string
    requires i < SceneCount
  {
    match i
    case 0 => Scene1Value
    case 1 => Scene2Value
    case 2 => Scene3Value
    case _ => Scene4Value
  }

  /** `SCENES[i]`, with ids 1 to 4. */
  function SceneAt(i: nat): Scene
    requires i < SceneCount
  {
    Scene(i + 1, ActionOptionsAt(i), CorrectValueAt(i))
  }

  /** `scene.actionOptions.find((x) => x.correct)`, its label, or "—" when there is none. */
  function CorrectActionLabel(opts: seq<ActionOption>): (text: string)
    ensures (forall k :: 0 <= k < |opts| ==> !opts[k].correct) ==> text == "—"
    ensures (exists k :: 0 <= k < |opts| && opts[k].correct) ==>
              exists k :: 0 <= k < |opts| && opts[k].correct && text == opts[k].text &&
                          forall j :: 0 <= j < k ==> !opts[j].correct
  {
    if opts == [] then "—"
    else if opts[0].correct then opts[0].text
    else
      var rest := CorrectActionLabel(opts[1..]);
      assert forall k :: 1 <= k < |opts| ==> opts[k] == opts[1..][k - 1];
      rest
  }

  /** With option B the only correct one, the popup label is B's. */
  lemma LabelOfOnlyB(opts: seq<ActionOption>)
    requires |opts| == 4 && forall k :: 0 <= k < 4 ==> (opts[k].correct <==> k == 1)
    ensures CorrectActionLabel(opts) == opts[1].text
  {
    assert opts[1..][0] == opts[1];
  }

  /**
   * Every scene has four actions, exactly one of them correct (option B), so
   * the wrong-action popup shows that option's label.
   */
  lemma ScenesHaveOneCorrectAction(i: nat)
    requires i < SceneCount
    ensures |SceneAt(i).actionOptions| == 4 && SceneAt(i).id == i + 1
    ensures forall k :: 0 <= k < 4 ==> (SceneAt(i).actionOptions[k].correct <==> k == 1)
    ensures CorrectActionLabel(SceneAt(i).actionOptions) == SceneAt(i).actionOptions[1].text
  {
    var opts := ActionOptionsAt(i);
    match i {
      case 0 => assert !opts[0].correct && opts[1].correct && !opts[2].correct && !opts[3].correct;
      case 1 => assert !opts[0].correct && opts[1].correct && !opts[2].correct && !opts[3].correct;
      case 2 => assert !opts[0].correct && opts[1].correct && !opts[2].correct && !opts[3].correct;
      case 3 => assert !opts[0].correct && opts[1].correct && !opts[2].correct && !opts[3].correct;
    }
    LabelOfOnlyB(opts);
  }

  /** Every scene's correct value is a label of the pool. */
  lemma CorrectValuesInPool(i: nat)
    requires i < SceneCount
    ensures SceneAt(i).correctValue in ValuePool
  {
    match i
    case 0 => assert ValuePool[2] == CorrectValueAt(i);
    case 1 => assert ValuePool[8] == CorrectValueAt(i);
    case 2 => assert ValuePool[5] == CorrectValueAt(i);
    case 3 => assert ValuePool[0] == CorrectValueAt(i);
  }

  predicate Distinct<T(==)>(s: seq<T>)
  {
    forall i, j :: 0 <= i < j < |s| ==> s[i] != s[j]
  }

  function Min(a: int, b: int): int { if a <= b then a else b }

  /** The elements `sampleUnique` may return: those of `arr` not excluded. */
  function Candidates(arr: seq<string>, exclude: set<string>): set<string>
  {
    set x | x in arr && x !in exclude
  }

  /** `arr.filter((x) => !excludeSet.has(x))` */
  function Filter(arr: seq<string>, exclude: set<string>): (pool: seq<string>)
    ensures forall x :: x in pool <==> x in arr && x !in exclude
    ensures |pool| <= |arr|
  {
    if arr == [] then []
    else if arr[0] in exclude then Filter(arr[1..], exclude)
    else [arr[0]] + Filter(arr[1..], exclude)
  }

  lemma {:induction false} DistinctCard(s: seq<string>)
    requires Distinct(s)
    ensures |Elems(s)| == |s|
  {
    if s != [] {
      DistinctCard(s[1..]);
      assert Elems(s) == Elems(s[1..]) + {s[0]};
      assert s[0] !in s[1..];
    }
  }

  lemma {:induction false} SubsetCard(a: set<string>, b: set<string>)
    requires a <= b
    ensures |a| <= |b|
    decreases |b|
  {
    if b != {} {
      var x :| x in b;
      SubsetCard(a - {x}, b - {x});
    }
  }

  /** The elements of a sequence, as a set. */
  function Elems(s: seq<string>): set<string>
  {
    set x | x in s
  }

  /** Taking position `idx` out of the pool loses no other element. */
  lemma RemoveAt(pool: seq<string>, idx: nat)
    requires idx < |pool|
    ensures Elems(pool[..idx] + pool[idx + 1..]) <= Elems(pool)
    ensures Elems(pool) <= Elems(pool[..idx] + pool[idx + 1..]) + {pool[idx]}
  {
    var rest := pool[..idx] + pool[idx + 1..];
    forall j | 0 <= j < |pool| && j != idx
      ensures pool[j] in rest
    {
      if j < idx { assert rest[j] == pool[j]; }
      else { assert rest[j - 1] == pool[j]; }
    }
  }

  /** One draw keeps the sampling invariant: the drawn value ends up in `out` either way. */
  lemma DrawStep(pool: seq<string>, out: seq<string>, exclude: set<string>, idx: nat)
    requires idx < |pool|
    requires forall k :: 0 <= k < |pool| ==> pool[k] !in exclude
    requires Distinct(out)
    ensures var out' := if pool[idx] in exclude + Elems(out) then out else out + [pool[idx]];
            && Elems(pool[..idx] + pool[idx + 1..]) + Elems(out') == Elems(pool) + Elems(out)
            && Distinct(out')
            && exclude + Elems(out') == exclude + Elems(out) + {pool[idx]}
  {
    RemoveAt(pool, idx);
    assert Elems(out + [pool[idx]]) == Elems(out) + {pool[idx]};
  }

  /** The filtered pool holds exactly the candidates, and a sample of candidates holds only them. */
  lemma PoolIsCandidates(arr: seq<string>, exclude: set<string>, out: seq<string>)
    ensures Elems(Filter(arr, exclude)) == Candidates(arr, exclude)
    ensures forall k :: 0 <= k < |Filter(arr, exclude)| ==> Filter(arr, exclude)[k] !in exclude
    ensures Elems(out) <= Candidates(arr, exclude) ==> forall k :: 0 <= k < |out| ==> out[k] in arr && out[k] !in exclude
  {
    if Elems(out) <= Candidates(arr, exclude) {
      forall k | 0 <= k < |out| ensures out[k] in arr && out[k] !in exclude {
        assert out[k] in Elems(out);
      }
    }
  }

  /**
   * When the draws stop, the sample is as long as it can be: `count` values, or
   * every candidate once the pool is empty.
   */
  lemma SampleLength(out: seq<string>, pool: seq<string>, cand: set<string>, count: nat)
    requires Distinct(out) && Elems(pool) + Elems(out) == cand
    requires |out| <= count && (|out| == count || pool == [])
    ensures |out| == Min(count, |cand|)
  {
    DistinctCard(out);
    SubsetCard(Elems(out), cand);
    if pool == [] {
      assert Elems(pool) == {};
    }
  }

  /**
   * `sampleUnique(arr, count, excludeSet)`: draws from a shrinking pool until it
   * has `count` values or the pool is empty.  The result is as long as it can
   * be, its values are pairwise distinct, drawn from `arr`, and none excluded.
   */
  method SampleUnique(arr: seq<string>, count: nat, exclude: set<string>, rand: nat -> nat) returns (out: seq<string>)
    ensures |out| == Min(count, |Candidates(arr, exclude)|)
    ensures Distinct(out)
    ensures forall k :: 0 <= k < |out| ==> out[k] in arr && out[k] !in exclude
  {
    ghost var cand := Candidates(arr, exclude);
    var pool := Filter(arr, exclude);
    out := [];
    var used := exclude;
    var draws := 0;
    PoolIsCandidates(arr, exclude, out);
    while |out| < count && |pool| > 0
      invariant used == exclude + Elems(out)
      invariant Elems(pool) + Elems(out) == cand
      invariant forall k :: 0 <= k < |pool| ==> pool[k] !in exclude
      invariant Distinct(out)
      invariant |out| <= count
      decreases |pool|
    {
      var idx := rand(draws) % |pool|;
      draws := draws + 1;
      var val := pool[idx];
      DrawStep(pool, out, exclude, idx);
      RemoveAt(pool, idx);
      pool := pool[..idx] + pool[idx + 1..];
      if val !in used {
        used := used + {val};
        out := out + [val];
      }
    }
    SampleLength(out, pool, cand, count);
    PoolIsCandidates(arr, exclude, out);
  }

  /** Part two's options for a scene, as the screen shows them. */
  datatype ValueOption = ValueOption(key: string, text: string, correct: bool)

  const OptionKeys: seq<string> := ["A", "B", "C", "D"]

  /** `order` is a permutation of `0 .. n-1`, as `Array.prototype.sort` returns one. */
  predicate IsPermutation(order: seq<nat>, n: nat)
  {
    && |order| == n
    && Distinct(order)
    && (forall k :: 0 <= k < n ==> order[k] < n)
    && (forall v :: 0 <= v < n ==> v in order)
  }

  /**
   * Four options keyed A to D with pairwise distinct labels, each correct
   * exactly when its label is the scene's correct value, which exactly one has.
   */
  predicate ValidValueOptions(opts: seq<ValueOption>, correctValue: string)
  {
    && |opts| == 4
    && (forall k :: 0 <= k < 4 ==> opts[k].key == OptionKeys[k])
    && (forall k :: 0 <= k < 4 ==> (opts[k].correct <==> opts[k].text == correctValue))
    && (exists p :: 0 <= p < 4 && opts[p].correct && forall k :: 0 <= k < 4 && opts[k].correct ==> k == p)
    && (forall i, j :: 0 <= i < j < 4 ==> opts[i].text != opts[j].text)
  }

  /** Every wrong option's label comes from the pool. */
  predicate DrawnFromPool(opts: seq<ValueOption>, correctValue: string)
  {
    forall k :: 0 <= k < |opts| ==> opts[k].text == correctValue || opts[k].text in ValuePool
  }

  /** Whatever the correct value, the pool holds at least three other labels. */
  lemma PoolHasThreeOthers(correctValue: string)
    ensures |Candidates(ValuePool, {correctValue})| >= 3
  {
    var a, b, c, d := ValuePool[0], ValuePool[1], ValuePool[2], ValuePool[3];
    assert |a| == 12 && |b| == 13 && |c| == 26 && |d| == 8;
    var three := if correctValue in {a, b, c} then {a, b, c, d} - {correctValue} else {a, b, c};
    assert |{a, b, c}| == 3;
    assert |{a, b, c, d}| == 4;
    assert three <= Candidates(ValuePool, {correctValue});
    SubsetCard(three, Candidates(ValuePool, {correctValue}));
  }

  /** The labels in the shuffled order, keyed A to D, each marked correct when it is `correctValue`. */
  function Arrange(texts: seq<string>, order: seq<nat>, correctValue: string): (opts: seq<ValueOption>)
    requires IsPermutation(order, 4) && |texts| == 4
  {
    seq(4, k requires 0 <= k < 4 => ValueOption(OptionKeys[k], texts[order[k]], texts[order[k]] == correctValue))
  }

  /** Shuffling the correct label and three distinct pool labels gives valid options. */
  lemma ArrangeValid(texts: seq<string>, order: seq<nat>, correctValue: string)
    requires IsPermutation(order, 4) && |texts| == 4 && Distinct(texts) && texts[0] == correctValue
    requires forall k :: 1 <= k < 4 ==> texts[k] in ValuePool
    ensures ValidValueOptions(Arrange(texts, order, correctValue), correctValue)
    ensures DrawnFromPool(Arrange(texts, order, correctValue), correctValue)
  {
    var opts := Arrange(texts, order, correctValue);
    assert forall k :: 0 <= k < 4 ==> (opts[k].correct <==> order[k] == 0);
    assert 0 in order;
    var p :| 0 <= p < 4 && order[p] == 0;
    assert opts[p].correct;
  }

  /**
   * `buildValueOptions(correctValue)`: the correct label and three wrong labels
   * sampled from the pool without replacement, shuffled, keyed A to D.
   */
  method BuildValueOptions(correctValue: string, rand: nat -> nat, order: seq<nat>) returns (opts: seq<ValueOption>)
    requires IsPermutation(order, 4)
    ensures ValidValueOptions(opts, correctValue)
    ensures DrawnFromPool(opts, correctValue)
  {
    var wrong := SampleUnique(ValuePool, 3, {correctValue}, rand);
    PoolHasThreeOthers(correctValue);
    var texts := [correctValue] + wrong;
    assert forall k :: 1 <= k < 4 ==> texts[k] == wrong[k - 1];
    ArrangeValid(texts, order, correctValue);
    opts := Arrange(texts, order, correctValue);
  }

  /** `resolveSkillBadge(correctActions)`: beginner up to 1, advanced up to 3, expert from 4. */
  function SceneTier(correctActions: int): Ledger.Tier
  {
    if correctActions <= 1 then Ledger.Beginner
    else if correctActions <= 3 then Ledger.Advanced
    else Ledger.Expert
  }

  function SceneBadge(correctActions: int): Ledger.Badge
  {
    Ledger.TierBadge(SceneTier(correctActions), "task4")
  }

  /** The tier never falls as more actions are answered correctly, and each tier is reached. */
  lemma SceneTierMonotone(a: int, b: int)
    requires a <= b
    ensures Ledger.Rank(SceneTier(a)) <= Ledger.Rank(SceneTier(b))
    ensures SceneTier(0) == Ledger.Beginner && SceneTier(2) == Ledger.Advanced && SceneTier(SceneCount) == Ledger.Expert
  {
  }
}
