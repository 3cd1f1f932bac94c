/**
 * Task 2 content: twelve decision cards, each decided mainly at one level of
 * government, and two scenarios whose best first action earns 2 points; the
 * clamp that caps the total, and the skill badge earned from the capped total.
 */
module MatchContent {
  import Ledger

  /** The four buttons of the matching phase. */
  datatype Level = Local | National | European | Mixed

  function LevelName(l: Level): string
  {
    match l
    case Local => "LOCAL"
    case National => "NATIONAL"
    case European => "EUROPEAN"
    case Mixed => "MIXED"
  }

  datatype Card = Card(id: nat, text: string, correct: Level)

  const CardCount: nat := 12

  /** `CARDS` */
  const Cards: seq<Card> := [
    Card(1, "FIXING STREETLIGHTS AND\nLOCAL ROADS", Local),
    Card(2, "SCHOOL CURRICULUM RULES", Mixed),
    Card(3, "FUNDING A LOCAL YOUTH CENTER", Local),
    Card(4, "MINIMUM WAGE LAW", National),
    Card(5, "TRADE RULES BETWEEN COUNTRIES", European),
    Card(6, "MUNICIPAL PUBLIC TRANSPORT ROUTES", Local),
    Card(7, "RULES FOR NATIONAL ELECTIONS", National),
    Card(8, "ENVIRONMENTAL PRODUCT STANDARDS\nACROSS COUNTRIES", European),
    Card(9, "POLICE OPERATIONAL FUNDING\nIN A CITY", Mixed),
    Card(10, "TAX POLICY", National),
    Card(11, "REGIONAL DEVELOPMENT FUNDS", European),
    Card(12, "LOCAL BUILDING PERMITS", Local)
  ]

  /** The correct level of card `i` (0-based); the screen reads only these. */
  function CardLevel(i: nat): Level
  {
    match i
    case 0 => Local
    case 1 => Mixed
    case 2 => Local
    case 3 => National
    case 4 => European
    case 5 => Local
    case 6 => National
    case 7 => European
    case 8 => Mixed
    case 9 => National
    case 10 => European
    case _ => Local
  }

  /** The levels the screen checks against are those of `CARDS`, and the ids run 1 to 12. */
  lemma CardLevelsOfCards()
    ensures |Cards| == CardCount
    ensures forall i :: 0 <= i < CardCount ==> Cards[i].correct == CardLevel(i) && Cards[i].id == i + 1
  {
  }

  /** A correct level earns 3 on a shared (`MIXED`) card and 2 on any other. */
  function CardDelta(l: Level): nat
  {
    if l == Mixed then 3 else 2
  }

  datatype ScenarioOption = ScenarioOption(key: string, text: string, points: nat, isBest: bool)

  datatype Scenario = Scenario(id: nat, title: string, options: seq<ScenarioOption>)

  const ScenarioCount: nat := 2

  const Scenario1Options: seq<ScenarioOption> := [
    ScenarioOption("A", "EMAIL MEMBERS OF EUROPEAN PARLIAMENT", 0, false),
    ScenarioOption("B", "ATTEND CITY COUNCIL MEETING, START\nPETITION, CONTACT LOCAL MEDIA", 2, true),
    ScenarioOption("C", "POST ANGRY MEMES AND WAIT", 0, false)
  ]

  const Scenario2Options: seq<ScenarioOption> := [
    ScenarioOption("A", "ORGANIZE NATIONAL CAMPAIGN, CONTACT\nMPS, JOIN PUBLIC CONSULTATIONS", 2, true),
    ScenarioOption("B", "COMPLAIN TO THE MAYOR", 0, false),
    ScenarioOption("C", "ASK THE EU TO CANCEL IT", 0, false)
  ]

  /** The options of scenario `i` (0-based), as in `SCENARIOS`. */
  function ScenarioOptionsAt(i: nat): seq<ScenarioOption>
  {
    match i
    case 0 => Scenario1Options
    case _ => Scenario2Options
  }

  /** `SCENARIOS` */
  function ScenarioAt(i: nat): Scenario
  {
    Scenario(i + 1,
             if i == 0 then "SCENARIO 1: YOUTH CENTER\nBUDGET CUT - CHOOSE THE\nMOST EFFECTIVE FIRST ACTION"
             else "SCENARIO 2: NATIONAL EDUCATION\nREFORM - WHAT FIRST?",
             ScenarioOptionsAt(i))
  }

  /**
   * Each scenario has three options and one best option; the best one is the
   * only one that earns points, and it earns 2.
   */
  lemma ScenariosHaveOneBest(i: nat)
    requires i < ScenarioCount
    ensures |ScenarioOptionsAt(i)| == 3
    ensures exists b :: 0 <= b < 3 && ScenarioOptionsAt(i)[b].isBest
    ensures forall j, k :: 0 <= j < 3 && 0 <= k < 3 && ScenarioOptionsAt(i)[j].isBest && ScenarioOptionsAt(i)[k].isBest ==> j == k
    ensures forall k :: 0 <= k < 3 ==>
              (ScenarioOptionsAt(i)[k].isBest <==> ScenarioOptionsAt(i)[k].points > 0) &&
              (ScenarioOptionsAt(i)[k].points == 0 || ScenarioOptionsAt(i)[k].points == 2)
  {
    var opts := ScenarioOptionsAt(i);
    if i == 0 {
      assert opts[1].isBest;
    } else {
      assert opts[0].isBest;
    }
  }

  /** The most cards `k` to 11 can earn, one correct level per card. */
  function CardsMaxFrom(k: nat): nat
    decreases CardCount - k
  {
    if k >= CardCount then 0 else CardDelta(CardLevel(k)) + CardsMaxFrom(k + 1)
  }

  /** The most options `k` onwards can earn. */
  function BestPointsFrom(opts: seq<ScenarioOption>, k: nat): nat
    decreases |opts| - k
  {
    if k >= |opts| then 0
    else var rest := BestPointsFrom(opts, k + 1); if opts[k].points > rest then opts[k].points else rest
  }

  /** Ten plain cards at 2 and two shared ones at 3, plus 2 for each best first action: 30, the cap of the total. */
  lemma MaxPointsIs30()
    ensures CardsMaxFrom(0) + BestPointsFrom(ScenarioOptionsAt(0), 0) + BestPointsFrom(ScenarioOptionsAt(1), 0) == 30
  {
    assert CardsMaxFrom(12) == 0;
    assert CardsMaxFrom(11) == 2;
    assert CardsMaxFrom(10) == 4;
    assert CardsMaxFrom(9) == 6;
    assert CardsMaxFrom(8) == 9;
    assert CardsMaxFrom(7) == 11;
    assert CardsMaxFrom(6) == 13;
    assert CardsMaxFrom(5) == 15;
    assert CardsMaxFrom(4) == 17;
    assert CardsMaxFrom(3) == 19;
    assert CardsMaxFrom(2) == 21;
    assert CardsMaxFrom(1) == 24;
    var o1 := Scenario1Options;
    assert BestPointsFrom(o1, 2) == 0;
    assert BestPointsFrom(o1, 1) == 2;
    var o2 := Scenario2Options;
    assert BestPointsFrom(o2, 2) == 0;
    assert BestPointsFrom(o2, 1) == 0;
  }

  /** `clamp(n, min, max)`, that is `Math.max(min, Math.min(max, n))`. */
  function Clamp(n: int, lo: int, hi: int): int
  {
    if hi < n then (if lo > hi then lo else hi) else (if lo > n then lo else n)
  }

  /** The clamp lands in range, leaves a value in range alone, and maps everything above the range to its top. */
  lemma ClampCases(n: int, lo: int, hi: int)
    ensures lo <= hi ==> lo <= Clamp(n, lo, hi) <= hi
    ensures lo <= n <= hi ==> Clamp(n, lo, hi) == n
    ensures lo <= hi <= n ==> Clamp(n, lo, hi) == hi
    ensures n <= lo ==> Clamp(n, lo, hi) == lo
    ensures hi < lo ==> Clamp(n, lo, hi) == lo
  {
  }

  /** `resolveSkillBadge(points)`: beginner up to 10, advanced up to 20, expert above. */
  function MatchTier(points: int): Ledger.Tier
  {
    if points <= 10 then Ledger.Beginner
    else if points <= 20 then Ledger.Advanced
    else Ledger.Expert
  }

  function MatchBadge(points: int): Ledger.Badge
  {
    Ledger.TierBadge(MatchTier(points), "task2")
  }

  /** The tier never falls as the total grows, and each tier is reachable within the cap. */
  lemma MatchTierMonotone(a: int, b: int)
    requires a <= b
    ensures Ledger.Rank(MatchTier(a)) <= Ledger.Rank(MatchTier(b))
    ensures MatchTier(0) == Ledger.Beginner && MatchTier(11) == Ledger.Advanced && MatchTier(30) == Ledger.Expert
  {
  }
}
