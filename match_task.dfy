/**
 * The Task 2 screen: a matching phase over twelve cards (pick the level that
 * mainly decides each one), then a routes phase over two scenarios (pick the
 * most effective first action), then an end popup that commits the capped
 * total to the ledger.
 *
 * As on the Task 4 screen, every `setTimeout` is pending until it fires and
 * any pending timer may fire next.  The 900 ms timer of a scenario pick is
 * kept in its own slot, `scenarioTimer`, because the scenario lock and it
 * come and go together.  A callback sees the `points` of the render that
 * created it: the scenario timer and the `finishTask` it schedules carry them.
 *
 * Two behaviours of the screen are kept as they are: a correct level does not
 * lock the card, so every click before the 520 ms advance fires earns again
 * and advances again; and after the last scenario the picker unlocks 80 ms
 * before `finishTask` runs, which has no latch of its own.  Neither can push
 * the committed total above 30, because `finishTask` clamps it.
 */
module MatchTask {
  import opened Storage
  import Ledger
  import opened MatchContent
  import opened Feedback

  datatype Phase = MatchPhase | RoutesPhase

  datatype Timer =
    | AddPoints(delta: nat)     // `setPoints((p) => p + delta)`, 520 ms after a correct answer
    | AdvanceCard               // `advanceCard()`, 520 ms after a correct level or 120 ms after the wrong popup closes
    | FlyLand(id: nat)          // a flying "+delta" reaches the scoreboard
    | PulseOff                  // the scoreboard pulse ends
    | FinishTask(snap: int)     // `finishTask()` 80 ms after the last scenario, seeing `points == snap`

  /** The shared popup (help or wrong answer) and `wrongAdvanceRef`. */
  datatype Popup = Popup(open: bool, text: string, wrongAdvance: bool)

  datatype State = State(
    phase: Phase, cardIndex: nat, scenarioIndex: nat,
    scenarioLocked: bool, scenarioTimer: Option<int>,
    popup: Popup, endOpen: bool, points: int,
    pending: multiset<Timer>, fx: Effects)

  const HelpText: string :=
    "MATCH EACH DECISION CARD TO THE LEVEL WHERE IT IS MAINLY DECIDED.\n\nSOME DECISIONS ARE SHARED — THOSE HAVE A SPECIAL OPTION.\n\nDEMOCRATIC SKILL = KNOWING:\n• WHO DECIDES\n• WHO INFLUENCES\n• WHERE PRESSURE WORKS BEST"

  /** `openWrong(correctLevel)`'s text. */
  function WrongText(l: Level): string
  {
    "CORRECT ANSWER:\n" + LevelName(l)
  }

  /** The record `saveResultsForAchievements` stores under `yd_world1_task2`. */
  function FinishRecord(capped: int, finishedAt: real): Json
  {
    JObj(map[
      "points" := JNum(capped as real),
      "curiosityPoints" := JNum(0.0),
      "badges" := JArr(Ledger.BadgesJson([MatchBadge(capped)])),
      "finishedAt" := JNum(finishedAt)
    ])
  }

  /**
   * `finishTask` with `points == raw`: the total clamped to [0, 30], the badge
   * of the clamped total, and no curiosity points (the screen never awards any).
   */
  function FinishResult(raw: int, finishedAt: real): Ledger.TaskResult
  {
    var capped := Clamp(raw, 0, 30);
    Ledger.TaskResult(capped as real, 0.0, [MatchBadge(capped)], FinishRecord(capped, finishedAt))
  }

  /** The committed total lies in [0, 30], and its badge is that of the committed total. */
  lemma FinishResultBounds(raw: int, finishedAt: real)
    ensures 0.0 <= FinishResult(raw, finishedAt).points <= 30.0
    ensures FinishResult(raw, finishedAt).curiosity == 0.0
    ensures FinishResult(raw, finishedAt).badges == [MatchBadge(FinishResult(raw, finishedAt).points.Floor)]
    ensures 0 <= raw <= 30 ==> FinishResult(raw, finishedAt).points == raw as real
  {
    ClampCases(raw, 0, 30);
  }

  /** Any raw total from 30 up commits exactly what 30 commits: the same points, badge and record. */
  lemma FinishCapsAt30(raw: int, finishedAt: real)
    requires raw >= 30
    ensures FinishResult(raw, finishedAt) == FinishResult(30, finishedAt)
    ensures FinishResult(raw, finishedAt).badges[0].id == "expert"
  {
    ClampCases(raw, 0, 30);
  }

  /** The indices stay in their tables, the routes phase starts only at the last card, and nothing of the routes phase happens before it. */
  predicate Indices(s: State)
  {
    && s.cardIndex < CardCount
    && s.scenarioIndex < ScenarioCount
    && (s.phase == RoutesPhase ==> s.cardIndex == CardCount - 1)
    && (s.phase == MatchPhase ==> s.scenarioIndex == 0 && !s.scenarioLocked && !s.endOpen)
  }

  /**
   * The wrong flag only while the popup is open; the scenario lock exactly
   * while its timer is pending; `finishTask` and the end popup only on the last
   * scenario.
   */
  predicate Locks(s: State)
  {
    && (s.popup.wrongAdvance ==> s.popup.open)
    && (s.scenarioLocked <==> s.scenarioTimer.Some?)
    && (s.scenarioTimer.Some? ==> s.phase == RoutesPhase && s.scenarioTimer.value >= 0)
    && (s.endOpen ==> s.phase == RoutesPhase && s.scenarioIndex == ScenarioCount - 1)
    && (forall t :: t in s.pending && t.FinishTask? ==>
          s.phase == RoutesPhase && s.scenarioIndex == ScenarioCount - 1 && t.snap >= 0)
  }

  /** Points never go negative and every award in flight is positive. */
  predicate Earned(s: State)
  {
    && s.points >= 0
    && (forall t :: t in s.pending && t.AddPoints? ==> t.delta > 0)
  }

  predicate Inv(s: State)
  {
    Indices(s) && Locks(s) && Earned(s)
  }

  /** Nothing goes back: indices, phase, points and the end popup only move forward. */
  predicate Progress(s: State, s': State)
  {
    && s.cardIndex <= s'.cardIndex
    && s.scenarioIndex <= s'.scenarioIndex
    && (s.phase == RoutesPhase ==> s'.phase == RoutesPhase)
    && s.points <= s'.points
    && (s.endOpen ==> s'.endOpen)
  }

  const Closed: Popup := Popup(false, "", false)

  function Initial(): State
  {
    State(MatchPhase, 0, 0, false, None, Closed, false, 0, multiset{}, NoEffects)
  }

  /** The flash, a flying "+delta" when both anchors are on screen, and the points 520 ms later. */
  function Rewarded(s: State, delta: nat, anchors: bool): State
  {
    s.(fx := Launched(Flashed(s.fx), anchors),
       pending := s.pending + (if anchors then multiset{FlyLand(s.fx.nextFlyId)} else multiset{}) + multiset{AddPoints(delta)})
  }

  /** `handlePickLevel(level)`; the level buttons exist only in the matching phase. */
  function StepPickLevel(s: State, level: Level, anchors: bool): State
  {
    if s.phase != MatchPhase || s.popup.open || s.endOpen then s
    else if level == CardLevel(s.cardIndex) then
      var r := Rewarded(s, CardDelta(level), anchors);
      r.(pending := r.pending + multiset{AdvanceCard})
    else
      s.(popup := Popup(true, WrongText(CardLevel(s.cardIndex)), true))
  }

  /** `handlePickScenario(opt)`; the option buttons exist only in the routes phase. */
  function StepPickScenario(s: State, choice: nat, anchors: bool): State
    requires s.scenarioIndex < ScenarioCount && choice < |ScenarioOptionsAt(s.scenarioIndex)|
  {
    if s.phase != RoutesPhase || s.scenarioLocked || s.popup.open || s.endOpen then s
    else
      var opt := ScenarioOptionsAt(s.scenarioIndex)[choice];
      var l := s.(scenarioLocked := true, scenarioTimer := Some(s.points));
      if opt.points > 0 then Rewarded(l, opt.points, anchors) else l
  }

  /** `openHelp` */
  function StepOpenHelp(s: State): State
  {
    s.(popup := s.popup.(open := true, text := HelpText))
  }

  /** `closePopup`: the card advances 120 ms later only when the popup was a wrong answer. */
  function StepClose(s: State): State
  {
    if s.popup.wrongAdvance then s.(popup := Closed, pending := s.pending + multiset{AdvanceCard})
    else s.(popup := Closed)
  }

  function StepAddPoints(s: State, t: Timer): State
    requires t in s.pending && t.AddPoints?
  {
    s.(pending := s.pending - multiset{t}, points := s.points + t.delta)
  }

  /** `advanceCard`: the next card, or at the last card the routes phase with the index kept. */
  function StepAdvanceCard(s: State): State
    requires AdvanceCard in s.pending
  {
    var s1 := s.(pending := s.pending - multiset{AdvanceCard});
    if s.cardIndex + 1 >= CardCount then s1.(phase := RoutesPhase) else s1.(cardIndex := s.cardIndex + 1)
  }

  function StepFlyLand(s: State, t: Timer): State
    requires t in s.pending && t.FlyLand?
  {
    s.(pending := s.pending - multiset{t} + multiset{PulseOff}, fx := Landed(s.fx, t.id))
  }

  function StepPulseOff(s: State): State
    requires PulseOff in s.pending
  {
    s.(pending := s.pending - multiset{PulseOff}, fx := PulseEnded(s.fx))
  }

  function StepFlashOff(s: State): State
  {
    s.(fx := FlashEnded(s.fx))
  }

  /** The scenario timer: the next scenario, or at the last one `finishTask` 80 ms later; the picker unlocks either way. */
  function StepScenarioNext(s: State): State
    requires s.scenarioTimer.Some?
  {
    var u := s.(scenarioLocked := false, scenarioTimer := None);
    if s.scenarioIndex + 1 >= ScenarioCount then u.(pending := s.pending + multiset{FinishTask(s.scenarioTimer.value)})
    else u.(scenarioIndex := s.scenarioIndex + 1)
  }

  /** `finishTask` opens the end popup (its commit is `Task2Screen.FinishTask`). */
  function StepFinish(s: State, t: Timer): State
    requires t in s.pending && t.FinishTask?
  {
    s.(pending := s.pending - multiset{t}, endOpen := true)
  }

  lemma InitialInv()
    ensures Inv(Initial())
  {
  }

  /** A reward adds one positive award and touches nothing but the timers and the effects. */
  lemma RewardedOk(s: State, delta: nat, anchors: bool)
    requires Inv(s) && delta > 0
    ensures var r := Rewarded(s, delta, anchors);
            && Inv(r) && Progress(s, r)
            && AddPoints(delta) in r.pending
            && (forall t :: t in r.pending && !t.AddPoints? && !t.FlyLand? ==> t in s.pending)
  {
  }

  lemma PickLevelKeepsInv(s: State, level: Level, anchors: bool)
    requires Inv(s)
    ensures Inv(StepPickLevel(s, level, anchors)) && Progress(s, StepPickLevel(s, level, anchors))
  {
    if !(s.phase != MatchPhase || s.popup.open || s.endOpen) && level == CardLevel(s.cardIndex) {
      RewardedOk(s, CardDelta(level), anchors);
    }
  }

  lemma PickScenarioKeepsInv(s: State, choice: nat, anchors: bool)
    requires Inv(s) && choice < |ScenarioOptionsAt(s.scenarioIndex)|
    ensures Inv(StepPickScenario(s, choice, anchors)) && Progress(s, StepPickScenario(s, choice, anchors))
  {
    if !(s.phase != RoutesPhase || s.scenarioLocked || s.popup.open || s.endOpen) {
      var opt := ScenarioOptionsAt(s.scenarioIndex)[choice];
      if opt.points > 0 {
        RewardedOk(s.(scenarioLocked := true, scenarioTimer := Some(s.points)), opt.points, anchors);
      }
    }
  }

  lemma OpenHelpKeepsInv(s: State)
    requires Inv(s)
    ensures Inv(StepOpenHelp(s)) && Progress(s, StepOpenHelp(s))
  {
  }

  lemma CloseKeepsInv(s: State)
    requires Inv(s)
    ensures Inv(StepClose(s)) && Progress(s, StepClose(s))
  {
  }

  lemma AddPointsKeepsInv(s: State, t: Timer)
    requires Inv(s) && t in s.pending && t.AddPoints?
    ensures Inv(StepAddPoints(s, t)) && Progress(s, StepAddPoints(s, t))
  {
  }

  lemma AdvanceCardKeepsInv(s: State)
    requires Inv(s) && AdvanceCard in s.pending
    ensures Inv(StepAdvanceCard(s)) && Progress(s, StepAdvanceCard(s))
  {
  }

  lemma FlyLandKeepsInv(s: State, t: Timer)
    requires Inv(s) && t in s.pending && t.FlyLand?
    ensures Inv(StepFlyLand(s, t)) && Progress(s, StepFlyLand(s, t))
  {
  }

  lemma PulseOffKeepsInv(s: State)
    requires Inv(s) && PulseOff in s.pending
    ensures Inv(StepPulseOff(s)) && Progress(s, StepPulseOff(s))
  {
  }

  lemma ScenarioNextKeepsInv(s: State)
    requires Inv(s) && s.scenarioTimer.Some?
    ensures Inv(StepScenarioNext(s)) && Progress(s, StepScenarioNext(s))
  {
  }

  lemma FinishKeepsInv(s: State, t: Timer)
    requires Inv(s) && t in s.pending && t.FinishTask?
    ensures Inv(StepFinish(s, t)) && Progress(s, StepFinish(s, t))
  {
  }

  /**
   * A correct level adds its points (3 on a shared card, 2 otherwise) and one
   * advance; a wrong level opens the popup with the correct level and adds no
   * timer; picks are ignored outside the matching phase and while a popup is open.
   */
  lemma PickLevelOutcome(s: State, level: Level, anchors: bool)
    requires Inv(s)
    ensures var r := StepPickLevel(s, level, anchors);
            && (s.phase != MatchPhase || s.popup.open || s.endOpen ==> r == s)
            && (s.phase == MatchPhase && !s.popup.open && !s.endOpen && level == CardLevel(s.cardIndex) ==>
                  && r.pending[AddPoints(CardDelta(level))] == s.pending[AddPoints(CardDelta(level))] + 1
                  && r.pending[AdvanceCard] == s.pending[AdvanceCard] + 1
                  && r.cardIndex == s.cardIndex && !r.popup.open)
            && (s.phase == MatchPhase && !s.popup.open && !s.endOpen && level != CardLevel(s.cardIndex) ==>
                  && r.pending == s.pending && r.points == s.points
                  && r.popup == Popup(true, WrongText(CardLevel(s.cardIndex)), true))
  {
  }

  /** Closing advances the card exactly when the popup showed a wrong answer; closing the help popup never does. */
  lemma CloseAdvancesOnlyAfterWrong(s: State)
    ensures StepClose(s).pending[AdvanceCard] == s.pending[AdvanceCard] + (if s.popup.wrongAdvance then 1 else 0)
    ensures !StepClose(s).popup.open && !StepClose(s).popup.wrongAdvance
    ensures !s.popup.wrongAdvance ==> StepClose(StepOpenHelp(s)).pending == s.pending
  {
  }

  /**
   * Two clicks on the right level before the first advance fires both earn
   * and both advance: the next card is skipped and its points are never offered.
   */
  lemma DoublePickSkipsCard(s: State, anchors: bool)
    requires Inv(s) && s.phase == MatchPhase && !s.popup.open && !s.endOpen && s.cardIndex + 2 < CardCount
    ensures var l := CardLevel(s.cardIndex);
            var twice := StepPickLevel(StepPickLevel(s, l, anchors), l, anchors);
            && twice.pending[AddPoints(CardDelta(l))] == s.pending[AddPoints(CardDelta(l))] + 2
            && AdvanceCard in twice.pending
            && AdvanceCard in StepAdvanceCard(twice).pending
            && StepAdvanceCard(StepAdvanceCard(twice)).cardIndex == s.cardIndex + 2
  {
    var l := CardLevel(s.cardIndex);
    PickLevelOutcome(s, l, anchors);
    PickLevelKeepsInv(s, l, anchors);
    PickLevelOutcome(StepPickLevel(s, l, anchors), l, anchors);
  }

  /**
   * After the last scenario's timer the picker is open again while
   * `finishTask` is still pending, so a second pick is accepted and will
   * schedule a second `finishTask`.
   */
  lemma LastScenarioReopens(s: State, choice: nat, anchors: bool)
    requires Inv(s) && s.phase == RoutesPhase && s.scenarioIndex == ScenarioCount - 1 && s.scenarioTimer.Some?
    requires !s.popup.open && !s.endOpen && choice < |ScenarioOptionsAt(s.scenarioIndex)|
    ensures var n := StepScenarioNext(s);
            && FinishTask(s.scenarioTimer.value) in n.pending
            && !n.scenarioLocked
            && StepPickScenario(n, choice, anchors).scenarioTimer == Some(s.points)
  {
  }

  /**
   * The mounted screen.  `st` holds the component's state variables and refs;
   * each `setX(v)` of the source is an update of the matching field of `st`.
   */
  class Task2Screen {
    const store: LocalStore
    var st: State

    ghost predicate Valid()
      reads this
    {
      Inv(st) && FlyOk(st.fx)
    }

    /** The screen as it mounts: the first card, no points, nothing pending. */
    constructor (store: LocalStore)
      ensures this.store == store && st == Initial()
      ensures Valid()
    {
      this.store := store;
      st := Initial();
      InitialInv();
    }

    /** `showCorrectFlash`, `makeFly` and the delayed `setPoints`. */
    method Reward(delta: nat, anchors: bool)
      requires FlyOk(st.fx)
      modifies this
      ensures st == Rewarded(old(st), delta, anchors)
      ensures FlyOk(st.fx)
    {
      LaunchedOk(Flashed(st.fx), anchors);
      st := st.(fx := Flashed(st.fx));
      if anchors {
        var id := st.fx.nextFlyId;
        st := st.(fx := Launched(st.fx, true), pending := st.pending + multiset{FlyLand(id)});
      } else {
        assert st.pending + multiset{} == st.pending;
      }
      st := st.(pending := st.pending + multiset{AddPoints(delta)});
    }

    /**
     * `handlePickLevel`: ignored while a popup or the end popup is open.  A
     * correct level earns 3 on a shared card and 2 otherwise, and the card
     * advances 520 ms later; a wrong one opens the popup with the correct level.
     */
    method PickLevel(level: Level, anchors: bool)
      requires Valid()
      modifies this
      ensures st == StepPickLevel(old(st), level, anchors)
      ensures Valid() && Progress(old(st), st)
    {
      PickLevelKeepsInv(st, level, anchors);
      if !(st.phase != MatchPhase || st.popup.open || st.endOpen) {
        var correct := CardLevel(st.cardIndex);
        if level == correct {
          Reward(CardDelta(level), anchors);
          st := st.(pending := st.pending + multiset{AdvanceCard});
        } else {
          st := st.(popup := st.popup.(text := WrongText(correct)));
          st := st.(popup := st.popup.(wrongAdvance := true));
          st := st.(popup := st.popup.(open := true));
        }
      }
    }

    /**
     * `handlePickScenario`: ignored while the picker is locked or a popup is
     * open.  It locks the picker, earns the option's points when they are
     * positive, and 900 ms later moves on and unlocks.
     */
    method PickScenario(choice: nat, anchors: bool)
      requires Valid() && choice < |ScenarioOptionsAt(st.scenarioIndex)|
      modifies this
      ensures st == StepPickScenario(old(st), choice, anchors)
      ensures Valid() && Progress(old(st), st)
    {
      PickScenarioKeepsInv(st, choice, anchors);
      if !(st.phase != RoutesPhase || st.scenarioLocked || st.popup.open || st.endOpen) {
        var opt := ScenarioOptionsAt(st.scenarioIndex)[choice];
        st := st.(scenarioLocked := true, scenarioTimer := Some(st.points));
        if opt.points > 0 {
          Reward(opt.points, anchors);
        }
      }
    }

    /** `openHelp` */
    method OpenHelp()
      requires Valid()
      modifies this
      ensures st == StepOpenHelp(old(st))
      ensures Valid() && Progress(old(st), st)
    {
      OpenHelpKeepsInv(st);
      st := st.(popup := st.popup.(text := HelpText));
      st := st.(popup := st.popup.(open := true));
    }

    /** `closePopup`, from the close button or the Escape key. */
    method ClosePopup()
      requires Valid()
      modifies this
      ensures st == StepClose(old(st))
      ensures Valid() && Progress(old(st), st)
    {
      CloseKeepsInv(st);
      var wrong := st.popup.wrongAdvance;
      st := st.(popup := st.popup.(open := false, text := ""));
      if wrong {
        st := st.(popup := st.popup.(wrongAdvance := false), pending := st.pending + multiset{AdvanceCard});
      }
    }

    method FireAddPoints(t: Timer)
      requires Valid() && t in st.pending && t.AddPoints?
      modifies this
      ensures st == StepAddPoints(old(st), t)
      ensures Valid() && Progress(old(st), st)
    {
      AddPointsKeepsInv(st, t);
      st := st.(pending := st.pending - multiset{t});
      st := st.(points := st.points + t.delta);
    }

    /** `advanceCard` */
    method FireAdvanceCard()
      requires Valid() && AdvanceCard in st.pending
      modifies this
      ensures st == StepAdvanceCard(old(st))
      ensures Valid() && Progress(old(st), st)
    {
      AdvanceCardKeepsInv(st);
      st := st.(pending := st.pending - multiset{AdvanceCard});
      var next := st.cardIndex + 1;
      if next >= CardCount {
        st := st.(phase := RoutesPhase);
      } else {
        st := st.(cardIndex := next);
      }
    }

    method FireFlyLand(t: Timer)
      requires Valid() && t in st.pending && t.FlyLand?
      modifies this
      ensures st == StepFlyLand(old(st), t)
      ensures Valid() && Progress(old(st), st)
    {
      FlyLandKeepsInv(st, t);
      LandedOk(st.fx, t.id);
      st := st.(pending := st.pending - multiset{t});
      st := st.(fx := Landed(st.fx, t.id), pending := st.pending + multiset{PulseOff});
    }

    method FirePulseOff()
      requires Valid() && PulseOff in st.pending
      modifies this
      ensures st == StepPulseOff(old(st))
      ensures Valid() && Progress(old(st), st)
    {
      PulseOffKeepsInv(st);
      st := st.(pending := st.pending - multiset{PulseOff}, fx := PulseEnded(st.fx));
    }

    method FireFlashOff()
      requires Valid() && st.fx.flashPending
      modifies this
      ensures st == StepFlashOff(old(st))
      ensures Valid() && Progress(old(st), st)
    {
      st := st.(fx := FlashEnded(st.fx));
    }

    /** The 900 ms timer of a scenario pick. */
    method FireScenarioNext()
      requires Valid() && st.scenarioTimer.Some?
      modifies this
      ensures st == StepScenarioNext(old(st))
      ensures Valid() && Progress(old(st), st)
    {
      ScenarioNextKeepsInv(st);
      var snap := st.scenarioTimer.value;
      st := st.(scenarioTimer := None);
      var next := st.scenarioIndex + 1;
      if next >= ScenarioCount {
        st := st.(pending := st.pending + multiset{FinishTask(snap)});
      } else {
        st := st.(scenarioIndex := next);
      }
      st := st.(scenarioLocked := false);
    }

    /**
     * `finishTask`: every run commits the clamped total it saw and opens the
     * end popup; the ledger's marker keeps a second run out of the aggregate.
     */
    method FireFinishTask(t: Timer, finishedAt: real)
      requires Valid() && t in st.pending && t.FinishTask?
      modifies this, store
      ensures st == StepFinish(old(st), t)
      ensures Valid() && Progress(old(st), st)
      ensures store.cells == Ledger.Commit(old(store.cells), old(store.enabled), Ledger.Task2Keys, FinishResult(t.snap, finishedAt))
      ensures store.enabled == old(store.enabled)
    {
      FinishKeepsInv(st, t);
      st := st.(pending := st.pending - multiset{t});
      SaveResultsForAchievements(FinishResult(t.snap, finishedAt));
      st := st.(endOpen := true);
    }

    /**
     * `saveResultsForAchievements`: the record and the done flag first, then
     * (unless the marker is already set) the aggregate and the marker.  The
     * store ends as the ledger's commit leaves it.
     */
    method SaveResultsForAchievements(r: Ledger.TaskResult)
      modifies store
      ensures store.cells == Ledger.Commit(old(store.cells), old(store.enabled), Ledger.Task2Keys, r)
      ensures store.enabled == old(store.enabled)
    {
      var k := Ledger.Task2Keys;
      store.Write(k.record, r.record);
      store.Write(k.done, JBool(true));
      var stored := store.Read(Ledger.ScoresKey);
      var prev := if Truthy(stored) then stored else Ledger.EmptyScores;
      var alreadyCounted := store.Read(k.counted);
      if !Truthy(alreadyCounted) {
        store.Write(Ledger.ScoresKey, Ledger.Merged(prev, r));
        store.Write(k.counted, JBool(true));
      }
    }
  }
}
