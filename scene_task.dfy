/**
 * The Task 4 screen: four scenes, each answered in two parts (an action, then
 * a value), points that land on the scoreboard a moment after each correct
 * answer, a wrong-answer popup whose close continues the scene, and an end
 * popup that commits the result to the ledger.
 *
 * React state and refs are the fields of `Task4Screen`.  Every `setTimeout`
 * the screen schedules is pending until it fires, and any pending timer may
 * fire next (the model does not rely on the delays).  The timers that lock
 * the scene and move on (the lock, the advance, the end popup) each schedule
 * the next one, so they share one slot, `chain`; the invariant proves that a
 * chain only starts while that slot is empty.  The other timers (points
 * landing, the flying "+delta", the pulse, the popup's unlock) are a multiset.
 *
 * A callback created in one render sees that render's `points` and
 * `correctActions`: the chain carries that `Snapshot`, and the end popup
 * commits it.
 */
module SceneTask {
  import opened Storage
  import Ledger
  import opened SceneContent
  import opened Feedback

  /** `points` and `correctActions` as a callback created in some render sees them. */
  datatype Snapshot = Snapshot(points: real, correctActions: nat)

  /** What the wrong-answer popup runs 80 ms after it closes. */
  datatype Callback =
    | UnlockValues                    // after a wrong action: close part one, open part two
    | LockAndAdvance(snap: Snapshot)  // after a wrong value: lock the scene, advance 180 ms later

  /** Timers outside the chain. */
  datatype Timer =
    | AddPoints(delta: real)          // `setPoints((p) => p + delta)`, 520 ms after an award
    | FlyLand(id: nat)                // a flying "+delta" reaches the scoreboard, 820 ms
    | PulseOff                        // the scoreboard pulse ends, 420 ms
    | Unlock                          // the popup's `UnlockValues`, 80 ms after it closes

  /** The chain that ends a scene. */
  datatype ChainStep =
    | LockScene(snap: Snapshot)       // 540 ms after a right value, or 80 ms after the wrong-value popup closes
    | Advance(snap: Snapshot)         // `advanceScene()`, 420 ms (180 ms) after the lock
    | OpenEnd(snap: Snapshot)         // `openEndPopup()`, 120 ms after the last scene

  /** The per-scene state that `resetSceneState` clears, with the scene's index and value options. */
  datatype SceneState = SceneState(
    index: nat, valueOptions: seq<ValueOption>,
    actionPicked: bool, actionCorrect: bool, valuePicked: bool, locked: bool)

  /** The wrong-answer popup and the callback `wrongOnCloseRef` holds. */
  datatype Popup = Popup(open: bool, title: string, text: string, onClose: Option<Callback>)

  const Closed: Popup := Popup(false, "", "", None)

  datatype Score = Score(points: real, correctActions: nat)

  datatype State = State(
    scene: SceneState, popup: Popup, endOpen: bool, endLock: bool, score: Score,
    pending: multiset<Timer>, chain: Option<ChainStep>, fx: Effects)

  function StepSnap(c: ChainStep): Snapshot
  {
    match c
    case LockScene(snap) => snap
    case Advance(snap) => snap
    case OpenEnd(snap) => snap
  }

  /**
   * What a snapshot taken at a value pick can hold: at most one correct action
   * per scene, and the points of every answer before the last value.
   */
  predicate SnapshotOk(s: Snapshot)
  {
    && s.correctActions <= SceneCount
    && 0.0 <= s.points <= 4.0 * s.correctActions as real + 1.5 * (SceneCount - 1) as real
  }

  /** The points still in flight: the screen awards 4 for an action and 1.5 for a value. */
  function InFlight(m: multiset<Timer>): real
  {
    4.0 * m[AddPoints(4.0)] as real + 1.5 * m[AddPoints(1.5)] as real
  }

  /** The record `saveResultsForAchievements` stores under `yd_world1_task4`. */
  function EndRecord(snap: Snapshot, finishedAt: real): Json
  {
    JObj(map[
      "points" := JNum(snap.points),
      "curiosityPoints" := JNum(0.0),
      "badges" := JArr(Ledger.BadgesJson([SceneBadge(snap.correctActions)])),
      "correctActions" := JNum(snap.correctActions as real),
      "totalScenes" := JNum(SceneCount as real),
      "finishedAt" := JNum(finishedAt)
    ])
  }

  /** What the end popup hands to the ledger: the snapshot's points, no curiosity, one skill badge. */
  function EndResult(snap: Snapshot, finishedAt: real): Ledger.TaskResult
  {
    Ledger.TaskResult(snap.points, 0.0, [SceneBadge(snap.correctActions)], EndRecord(snap, finishedAt))
  }

  /**
   * The committed result is bounded by the snapshot: at most 20.5 points, one
   * badge whose tier follows the correct actions, expert only for all four.
   */
  lemma EndResultBounds(snap: Snapshot, finishedAt: real)
    requires SnapshotOk(snap)
    ensures 0.0 <= EndResult(snap, finishedAt).points <= 20.5
    ensures EndResult(snap, finishedAt).curiosity == 0.0
    ensures |EndResult(snap, finishedAt).badges| == 1
    ensures EndResult(snap, finishedAt).badges[0].id == "expert" <==> snap.correctActions == SceneCount
  {
  }

  /** Part two opens only after part one, and the scene locks only after part two. */
  predicate SceneOk(sc: SceneState)
  {
    && sc.index < SceneCount
    && ValidValueOptions(sc.valueOptions, CorrectValueAt(sc.index))
    && sc.actionPicked == sc.actionCorrect
    && (sc.valuePicked ==> sc.actionCorrect)
    && (sc.locked ==> sc.valuePicked)
  }

  /** The popup holds the callback that locks the scene. */
  predicate PopupChain(p: Popup)
  {
    p.onClose.Some? && p.onClose.value.LockAndAdvance?
  }

  predicate Locks(s: State)
  {
    && SceneOk(s.scene)
    && (s.popup.onClose.Some? ==> s.popup.open)
    && (s.endOpen ==> s.endLock)
    && (s.endLock ==> s.scene.locked && s.scene.index == SceneCount - 1)
  }

  /**
   * Every correct action is paid in full (on the scoreboard or in flight), and
   * at most one value per scene is paid on top.
   */
  predicate Earned(s: State)
  {
    && s.score.correctActions <= s.scene.index + (if s.scene.actionPicked then 1 else 0)
    && 0.0 <= s.score.points
    && (forall t :: t in s.pending && t.AddPoints? ==> t.delta == 4.0 || t.delta == 1.5)
    && 4.0 * s.score.correctActions as real <= s.score.points + InFlight(s.pending)
    && s.score.points + InFlight(s.pending) <=
       4.0 * s.score.correctActions as real +
       1.5 * (s.scene.index + (if s.scene.valuePicked then 1 else 0)) as real
  }

  /**
   * At most one chain (in the slot or held by the popup), started only by the
   * value pick; the advance and the end only once the scene is locked, the end
   * only on the last scene and only before the latch; every snapshot possible.
   */
  predicate Chain(s: State)
  {
    && !(s.chain.Some? && PopupChain(s.popup))
    && (s.chain.Some? || PopupChain(s.popup) ==> s.scene.valuePicked)
    && (s.chain.Some? ==> SnapshotOk(StepSnap(s.chain.value)))
    && (PopupChain(s.popup) ==> SnapshotOk(s.popup.onClose.value.snap))
    && (s.chain.Some? && !s.chain.value.LockScene? ==> s.scene.locked)
    && (s.chain.Some? && s.chain.value.OpenEnd? ==> s.scene.index == SceneCount - 1)
    && (s.endLock ==> s.chain.None? && !PopupChain(s.popup))
  }

  predicate Inv(s: State)
  {
    Locks(s) && Earned(s) && Chain(s)
  }

  /** The scene index stays or moves on by one, and `endLockRef` once set stays set. */
  predicate SceneProgress(s: State, r: State)
  {
    && (r.scene.index == s.scene.index || r.scene.index == s.scene.index + 1)
    && (s.endLock ==> r.endLock)
  }

  /** The screen as it mounts, on the first scene's options. */
  function Initial(opts: seq<ValueOption>): State
  {
    State(SceneState(0, opts, false, false, false, false), Closed, false, false, Score(0.0, 0),
          multiset{}, None, NoEffects)
  }

  /** `awardPoints(delta)`: for a positive delta, the flash, a flying "+delta" when both anchors are on screen, the points later. */
  function Awarded(s: State, delta: real, anchors: bool): State
  {
    if delta <= 0.0 then s
    else
      var id := s.fx.nextFlyId;
      s.(fx := Launched(Flashed(s.fx), anchors),
         pending := s.pending + (if anchors then multiset{FlyLand(id)} else multiset{}) + multiset{AddPoints(delta)})
  }

  /** `handlePickAction` */
  function StepPickAction(s: State, choice: nat, anchors: bool): State
    requires s.scene.index < SceneCount && choice < |ActionOptionsAt(s.scene.index)|
  {
    var opts := ActionOptionsAt(s.scene.index);
    if s.scene.locked || s.popup.open || s.endOpen || s.scene.actionPicked then s
    else if !opts[choice].correct then
      s.(popup := Popup(true, "CORRECT ANSWER", CorrectActionLabel(opts), Some(UnlockValues)))
    else
      var s1 := s.(scene := s.scene.(actionPicked := true, actionCorrect := true));
      Awarded(s1, 4.0, anchors).(score := s.score.(correctActions := s.score.correctActions + 1))
  }

  /** `handlePickValue` */
  function StepPickValue(s: State, choice: nat, anchors: bool): State
    requires s.scene.index < SceneCount && choice < |s.scene.valueOptions|
  {
    if s.scene.locked || !s.scene.actionCorrect || s.scene.valuePicked || s.popup.open || s.endOpen then s
    else
      var snap := Snapshot(s.score.points, s.score.correctActions);
      var s1 := s.(scene := s.scene.(valuePicked := true));
      if s.scene.valueOptions[choice].correct then
        Awarded(s1, 1.5, anchors).(chain := Some(LockScene(snap)))
      else
        s1.(popup := Popup(true, "CORRECT ANSWER", CorrectValueAt(s.scene.index), Some(LockAndAdvance(snap))))
  }

  /** `closeWrongPopup`: the popup closes and its callback, if any, runs 80 ms later. */
  function StepClose(s: State): State
  {
    match s.popup.onClose
    case None => s.(popup := Closed)
    case Some(UnlockValues) => s.(popup := Closed, pending := s.pending + multiset{Unlock})
    case Some(LockAndAdvance(snap)) => s.(popup := Closed, chain := Some(LockScene(snap)))
  }

  function StepAddPoints(s: State, t: Timer): State
    requires t in s.pending && t.AddPoints?
  {
    s.(pending := s.pending - multiset{t}, score := s.score.(points := s.score.points + t.delta))
  }

  function StepFlyLand(s: State, t: Timer): State
    requires t in s.pending && t.FlyLand?
  {
    s.(pending := s.pending - multiset{t} + multiset{PulseOff},
       fx := Landed(s.fx, t.id))
  }

  function StepPulseOff(s: State, t: Timer): State
    requires t in s.pending && t.PulseOff?
  {
    s.(pending := s.pending - multiset{t}, fx := PulseEnded(s.fx))
  }

  function StepFlashOff(s: State): State
  {
    s.(fx := FlashEnded(s.fx))
  }

  function StepUnlock(s: State, t: Timer): State
    requires t in s.pending && t.Unlock?
  {
    s.(pending := s.pending - multiset{t}, scene := s.scene.(actionPicked := true, actionCorrect := true))
  }

  function StepLockScene(s: State): State
    requires s.chain.Some? && s.chain.value.LockScene?
  {
    s.(scene := s.scene.(locked := true), chain := Some(Advance(s.chain.value.snap)))
  }

  /** `advanceScene` and the reset effect that follows a change of scene; `opts` are the new scene's options. */
  function StepAdvance(s: State, opts: seq<ValueOption>): State
    requires s.chain.Some? && s.chain.value.Advance?
  {
    if s.scene.index + 1 >= SceneCount then s.(chain := Some(OpenEnd(s.chain.value.snap)))
    else s.(scene := SceneState(s.scene.index + 1, opts, false, false, false, false), popup := Closed, chain := None)
  }

  /** `openEndPopup`, latched by `endLockRef`. */
  function StepOpenEnd(s: State): State
    requires s.chain.Some? && s.chain.value.OpenEnd?
  {
    if s.endLock then s.(chain := None) else s.(chain := None, endLock := true, endOpen := true)
  }

  lemma InitialInv(opts: seq<ValueOption>)
    requires ValidValueOptions(opts, CorrectValueAt(0))
    ensures Inv(Initial(opts))
  {
  }

  /** An award puts exactly `delta` in flight and touches neither the scene, the popup nor the chain. */
  lemma AwardedInFlight(s: State, delta: real, anchors: bool)
    requires delta == 4.0 || delta == 1.5
    requires forall t :: t in s.pending && t.AddPoints? ==> t.delta == 4.0 || t.delta == 1.5
    ensures var a := Awarded(s, delta, anchors);
            && InFlight(a.pending) == InFlight(s.pending) + delta
            && (forall t :: t in a.pending && t.AddPoints? ==> t.delta == 4.0 || t.delta == 1.5)
            && a.scene == s.scene && a.popup == s.popup && a.chain == s.chain && a.score == s.score
            && a.endOpen == s.endOpen && a.endLock == s.endLock
  {
    var m := s.pending + (if anchors then multiset{FlyLand(s.fx.nextFlyId)} else multiset{}) + multiset{AddPoints(delta)};
    assert m[AddPoints(4.0)] == s.pending[AddPoints(4.0)] + (if delta == 4.0 then 1 else 0);
    assert m[AddPoints(1.5)] == s.pending[AddPoints(1.5)] + (if delta == 1.5 then 1 else 0);
  }

  /** A right action: part one closes, 4 points go in flight, the action is counted. */
  lemma RightActionKeepsInv(s: State, anchors: bool)
    requires Inv(s) && !(s.scene.locked || s.popup.open || s.endOpen || s.scene.actionPicked)
    ensures Inv(Awarded(s.(scene := s.scene.(actionPicked := true, actionCorrect := true)), 4.0, anchors)
                  .(score := s.score.(correctActions := s.score.correctActions + 1)))
  {
    AwardedInFlight(s.(scene := s.scene.(actionPicked := true, actionCorrect := true)), 4.0, anchors);
  }

  /** A wrong action: the popup opens with the correct action's label and holds the unlock of part two. */
  lemma WrongActionKeepsInv(s: State, text: string)
    requires Inv(s) && !s.popup.open
    ensures Inv(s.(popup := Popup(true, "CORRECT ANSWER", text, Some(UnlockValues))))
  {
  }

  lemma PickActionKeepsInv(s: State, choice: nat, anchors: bool)
    requires Inv(s) && choice < |ActionOptionsAt(s.scene.index)|
    ensures Inv(StepPickAction(s, choice, anchors))
    ensures SceneProgress(s, StepPickAction(s, choice, anchors))
  {
    if !(s.scene.locked || s.popup.open || s.endOpen || s.scene.actionPicked) {
      var opts := ActionOptionsAt(s.scene.index);
      if opts[choice].correct {
        RightActionKeepsInv(s, anchors);
      } else {
        WrongActionKeepsInv(s, CorrectActionLabel(opts));
      }
    }
  }

  /** The score a value pick sees is one a snapshot may hold: its last value has not been earned yet. */
  lemma SnapshotAtPick(s: State)
    requires Locks(s) && Earned(s) && !s.scene.valuePicked
    ensures SnapshotOk(Snapshot(s.score.points, s.score.correctActions))
  {
  }

  /** A right value: 1.5 points in flight and the chain starts, carrying this render's score. */
  lemma RightValueKeepsInv(s: State, anchors: bool)
    requires Inv(s) && !(s.scene.locked || !s.scene.actionCorrect || s.scene.valuePicked || s.popup.open || s.endOpen)
    ensures var snap := Snapshot(s.score.points, s.score.correctActions);
            Inv(Awarded(s.(scene := s.scene.(valuePicked := true)), 1.5, anchors).(chain := Some(LockScene(snap))))
  {
    SnapshotAtPick(s);
    AwardedInFlight(s.(scene := s.scene.(valuePicked := true)), 1.5, anchors);
  }

  /** A wrong value: the popup shows the correct value and holds the chain, carrying this render's score. */
  lemma WrongValueKeepsInv(s: State)
    requires Inv(s) && !(s.scene.locked || !s.scene.actionCorrect || s.scene.valuePicked || s.popup.open || s.endOpen)
    ensures var snap := Snapshot(s.score.points, s.score.correctActions);
            Inv(s.(scene := s.scene.(valuePicked := true),
                   popup := Popup(true, "CORRECT ANSWER", CorrectValueAt(s.scene.index), Some(LockAndAdvance(snap)))))
  {
    SnapshotAtPick(s);
  }

  lemma PickValueKeepsInv(s: State, choice: nat, anchors: bool)
    requires Inv(s) && choice < |s.scene.valueOptions|
    ensures Inv(StepPickValue(s, choice, anchors))
    ensures SceneProgress(s, StepPickValue(s, choice, anchors))
  {
    if !(s.scene.locked || !s.scene.actionCorrect || s.scene.valuePicked || s.popup.open || s.endOpen) {
      if s.scene.valueOptions[choice].correct {
        RightValueKeepsInv(s, anchors);
      } else {
        WrongValueKeepsInv(s);
      }
    }
  }

  lemma CloseKeepsInv(s: State)
    requires Inv(s)
    ensures Inv(StepClose(s))
    ensures SceneProgress(s, StepClose(s))
  {
    if s.popup.onClose == Some(UnlockValues) {
      var m := s.pending + multiset{Unlock};
      assert m[AddPoints(4.0)] == s.pending[AddPoints(4.0)] && m[AddPoints(1.5)] == s.pending[AddPoints(1.5)];
    }
  }

  /** Removing a timer that carries no points leaves the points in flight as they were. */
  lemma RemoveQuiet(m: multiset<Timer>, t: Timer, extra: multiset<Timer>)
    requires t in m && !t.AddPoints? && (forall u :: u in extra ==> !u.AddPoints?)
    ensures InFlight(m - multiset{t} + extra) == InFlight(m)
    ensures forall u :: u in m - multiset{t} + extra ==> u in m || u in extra
  {
    var r := m - multiset{t} + extra;
    assert r[AddPoints(4.0)] == m[AddPoints(4.0)] by {
      assert extra[AddPoints(4.0)] == 0;
    }
    assert r[AddPoints(1.5)] == m[AddPoints(1.5)] by {
      assert extra[AddPoints(1.5)] == 0;
    }
  }

  lemma AddPointsKeepsInv(s: State, t: Timer)
    requires Inv(s) && t in s.pending && t.AddPoints?
    ensures Inv(StepAddPoints(s, t))
    ensures SceneProgress(s, StepAddPoints(s, t))
  {
    var r := s.pending - multiset{t};
    assert t.delta == 4.0 || t.delta == 1.5;
    assert InFlight(r) == InFlight(s.pending) - t.delta by {
      if t.delta == 4.0 {
        assert r[AddPoints(4.0)] == s.pending[AddPoints(4.0)] - 1 && r[AddPoints(1.5)] == s.pending[AddPoints(1.5)];
      } else {
        assert r[AddPoints(1.5)] == s.pending[AddPoints(1.5)] - 1 && r[AddPoints(4.0)] == s.pending[AddPoints(4.0)];
      }
    }
  }

  lemma FlyLandKeepsInv(s: State, t: Timer)
    requires Inv(s) && t in s.pending && t.FlyLand?
    ensures Inv(StepFlyLand(s, t))
    ensures SceneProgress(s, StepFlyLand(s, t))
  {
    RemoveQuiet(s.pending, t, multiset{PulseOff});
  }

  lemma PulseOffKeepsInv(s: State, t: Timer)
    requires Inv(s) && t in s.pending && t.PulseOff?
    ensures Inv(StepPulseOff(s, t))
    ensures SceneProgress(s, StepPulseOff(s, t))
  {
    RemoveQuiet(s.pending, t, multiset{});
  }

  /** After a wrong action's popup: part one closes and part two opens, with no points. */
  lemma UnlockKeepsInv(s: State, t: Timer)
    requires Inv(s) && t in s.pending && t.Unlock?
    ensures Inv(StepUnlock(s, t))
    ensures SceneProgress(s, StepUnlock(s, t))
  {
    RemoveQuiet(s.pending, t, multiset{});
  }

  lemma LockSceneKeepsInv(s: State)
    requires Inv(s) && s.chain.Some? && s.chain.value.LockScene?
    ensures Inv(StepLockScene(s))
    ensures SceneProgress(s, StepLockScene(s))
  {
  }

  lemma AdvanceKeepsInv(s: State, opts: seq<ValueOption>)
    requires Inv(s) && s.chain.Some? && s.chain.value.Advance?
    requires s.scene.index + 1 < SceneCount ==> ValidValueOptions(opts, CorrectValueAt(s.scene.index + 1))
    ensures Inv(StepAdvance(s, opts))
    ensures SceneProgress(s, StepAdvance(s, opts))
  {
  }

  lemma OpenEndKeepsInv(s: State)
    requires Inv(s) && s.chain.Some? && s.chain.value.OpenEnd?
    ensures Inv(StepOpenEnd(s))
    ensures SceneProgress(s, StepOpenEnd(s))
  {
  }

  /**
   * The end popup opens once: whenever `openEndPopup` is due, the latch is
   * still open, so the guard on `endLockRef` never turns a call away.
   */
  lemma OpenEndRunsOnce(s: State)
    requires Inv(s) && s.chain.Some? && s.chain.value.OpenEnd?
    ensures !s.endLock
    ensures StepOpenEnd(s).endLock && StepOpenEnd(s).endOpen
    ensures StepOpenEnd(s).chain.None? && !PopupChain(StepOpenEnd(s).popup)
  {
  }

  /**
   * Whatever has happened, at most one action per scene has been counted and
   * the points shown plus those in flight never pass 4 per action and 1.5 per value.
   */
  lemma ScoreBounded(s: State)
    requires Inv(s)
    ensures s.score.correctActions <= SceneCount
    ensures 0.0 <= s.score.points <= s.score.points + InFlight(s.pending) <= 22.0
  {
  }

  /**
   * `awardPoints` schedules the points whether or not the "+delta" can fly:
   * without its anchors only the animation is lost.  A delta that is not
   * positive does nothing.
   */
  lemma AwardWithoutAnchors(s: State, delta: real)
    ensures delta <= 0.0 ==> Awarded(s, delta, true) == s && Awarded(s, delta, false) == s
    ensures delta > 0.0 ==>
              && Awarded(s, delta, false).pending == s.pending + multiset{AddPoints(delta)}
              && Awarded(s, delta, true).pending == s.pending + multiset{FlyLand(s.fx.nextFlyId), AddPoints(delta)}
              && Awarded(s, delta, false).fx.flyItems == s.fx.flyItems
              && Awarded(s, delta, true).fx.flyItems == s.fx.flyItems + [s.fx.nextFlyId]
  {
    if delta > 0.0 {
      assert s.pending + multiset{} == s.pending;
    }
  }

  /** Both pickers change nothing while the scene is locked or a popup is open. */
  lemma PicksIgnoredWhileLocked(s: State, action: nat, value: nat, anchors: bool)
    requires Inv(s) && action < |ActionOptionsAt(s.scene.index)| && value < |s.scene.valueOptions|
    requires s.scene.locked || s.popup.open || s.endOpen
    ensures StepPickAction(s, action, anchors) == s
    ensures StepPickValue(s, value, anchors) == s
  {
  }

  /**
   * Closing the wrong-action popup leaves part one open for the 80 ms before
   * its callback runs: a right action picked in that window is still counted
   * and paid, and the callback then changes no flag.
   */
  lemma WrongActionWindow(s: State, choice: nat, anchors: bool)
    requires Inv(s) && s.popup.onClose == Some(UnlockValues) && !s.scene.actionPicked
    requires choice < |ActionOptionsAt(s.scene.index)| && ActionOptionsAt(s.scene.index)[choice].correct
    ensures var c := StepClose(s);
            var p := StepPickAction(c, choice, anchors);
            && p.score.correctActions == s.score.correctActions + 1
            && AddPoints(4.0) in p.pending && Unlock in p.pending
            && StepUnlock(p, Unlock).scene == p.scene
  {
    CloseKeepsInv(s);
  }

  /**
   * The mounted screen.  `st` holds the component's state variables and refs;
   * each `setX(v)` of the source is an update of the matching field of `st`.
   */
  class Task4Screen {
    const store: LocalStore
    var st: State

    ghost predicate Valid()
      reads this
    {
      Inv(st) && FlyOk(st.fx)
    }

    /** The screen as it mounts: scene one with fresh value options, nothing picked, no points. */
    constructor (store: LocalStore, rand: nat -> nat, order: seq<nat>)
      requires IsPermutation(order, 4)
      ensures this.store == store && st == Initial(st.scene.valueOptions)
      ensures Valid() && DrawnFromPool(st.scene.valueOptions, CorrectValueAt(0))
    {
      this.store := store;
      var opts := BuildValueOptions(CorrectValueAt(0), rand, order);
      st := Initial(opts);
      InitialInv(opts);
    }

    /**
     * `awardPoints(delta)`: nothing for a delta that is not positive;
     * otherwise the flash restarts, a "+delta" flies to the scoreboard when
     * both elements it needs are on screen (`anchors`), and the points land later.
     */
    method Award(delta: real, anchors: bool)
      requires FlyOk(st.fx)
      modifies this
      ensures st == Awarded(old(st), delta, anchors)
      ensures FlyOk(st.fx)
    {
      LaunchedOk(Flashed(st.fx), anchors);
      if delta > 0.0 {
        st := st.(fx := Flashed(st.fx));
        if anchors {
          var id := st.fx.nextFlyId;
          st := st.(fx := Launched(st.fx, true), pending := st.pending + multiset{FlyLand(id)});
        } else {
          assert st.pending + multiset{} == st.pending;
        }
        st := st.(pending := st.pending + multiset{AddPoints(delta)});
      }
    }

    /**
     * `handlePickAction`: ignored while the scene is locked or a popup is open,
     * and once part one is answered.  A wrong action opens the popup with the
     * correct action's label; a right one earns 4 points.
     */
    method PickAction(choice: nat, anchors: bool)
      requires Valid() && choice < |ActionOptionsAt(st.scene.index)|
      modifies this
      ensures st == StepPickAction(old(st), choice, anchors)
      ensures SceneProgress(old(st), st)
      ensures Valid()
    {
      PickActionKeepsInv(st, choice, anchors);
      if !(st.scene.locked || st.popup.open || st.endOpen || st.scene.actionPicked) {
        var opts := ActionOptionsAt(st.scene.index);
        if !opts[choice].correct {
          st := st.(popup := Popup(true, "CORRECT ANSWER", CorrectActionLabel(opts), Some(UnlockValues)));
        } else {
          st := st.(scene := st.scene.(actionPicked := true, actionCorrect := true));
          Award(4.0, anchors);
          st := st.(score := st.score.(correctActions := st.score.correctActions + 1));
        }
      }
    }

    /**
     * `handlePickValue`: only once part two is open, once per scene.  A right
     * value earns 1.5 points and starts the chain that locks the scene and
     * advances; a wrong one opens the popup with the correct value, whose close
     * starts it.  Either way the chain carries this render's score.
     */
    method PickValue(choice: nat, anchors: bool)
      requires Valid() && choice < |st.scene.valueOptions|
      modifies this
      ensures st == StepPickValue(old(st), choice, anchors)
      ensures SceneProgress(old(st), st)
      ensures Valid()
    {
      PickValueKeepsInv(st, choice, anchors);
      if !(st.scene.locked || !st.scene.actionCorrect || st.scene.valuePicked || st.popup.open || st.endOpen) {
        var snap := Snapshot(st.score.points, st.score.correctActions);
        st := st.(scene := st.scene.(valuePicked := true));
        if st.scene.valueOptions[choice].correct {
          Award(1.5, anchors);
          st := st.(chain := Some(LockScene(snap)));
        } else {
          st := st.(popup := Popup(true, "CORRECT ANSWER", CorrectValueAt(st.scene.index), Some(LockAndAdvance(snap))));
        }
      }
    }

    /** `closeWrongPopup` */
    method CloseWrongPopup()
      requires Valid()
      modifies this
      ensures st == StepClose(old(st))
      ensures SceneProgress(old(st), st)
      ensures Valid()
    {
      CloseKeepsInv(st);
      var fn := st.popup.onClose;
      st := st.(popup := Closed);
      match fn
      case None =>
      case Some(UnlockValues) =>
        st := st.(pending := st.pending + multiset{Unlock});
      case Some(LockAndAdvance(snap)) =>
        st := st.(chain := Some(LockScene(snap)));
    }

    /** Points that were in flight reach the scoreboard. */
    method FireAddPoints(t: Timer)
      requires Valid() && t in st.pending && t.AddPoints?
      modifies this
      ensures st == StepAddPoints(old(st), t)
      ensures SceneProgress(old(st), st)
      ensures Valid()
    {
      AddPointsKeepsInv(st, t);
      st := st.(pending := st.pending - multiset{t});
      st := st.(score := st.score.(points := st.score.points + t.delta));
    }

    /** A flying item lands: it disappears and the scoreboard pulses for 420 ms. */
    method FireFlyLand(t: Timer)
      requires Valid() && t in st.pending && t.FlyLand?
      modifies this
      ensures st == StepFlyLand(old(st), t)
      ensures SceneProgress(old(st), st)
      ensures Valid()
    {
      FlyLandKeepsInv(st, t);
      LandedOk(st.fx, t.id);
      st := st.(pending := st.pending - multiset{t});
      st := st.(fx := Landed(st.fx, t.id), pending := st.pending + multiset{PulseOff});
    }

    method FirePulseOff(t: Timer)
      requires Valid() && t in st.pending && t.PulseOff?
      modifies this
      ensures st == StepPulseOff(old(st), t)
      ensures SceneProgress(old(st), st)
      ensures Valid()
    {
      PulseOffKeepsInv(st, t);
      st := st.(pending := st.pending - multiset{t}, fx := PulseEnded(st.fx));
    }

    /** The one timer `flashTimerRef` holds ends the flash. */
    method FireFlashOff()
      requires Valid() && st.fx.flashPending
      modifies this
      ensures st == StepFlashOff(old(st))
      ensures SceneProgress(old(st), st)
      ensures Valid()
    {
      st := st.(fx := FlashEnded(st.fx));
    }

    /** The wrong-action popup's callback: part one closes and part two opens, with no points. */
    method FireUnlock(t: Timer)
      requires Valid() && t in st.pending && t.Unlock?
      modifies this
      ensures st == StepUnlock(old(st), t)
      ensures SceneProgress(old(st), st)
      ensures Valid()
    {
      UnlockKeepsInv(st, t);
      st := st.(pending := st.pending - multiset{t});
      st := st.(scene := st.scene.(actionPicked := true, actionCorrect := true));
    }

    /** The scene locks and `advanceScene` is scheduled. */
    method FireLockScene()
      requires Valid() && st.chain.Some? && st.chain.value.LockScene?
      modifies this
      ensures st == StepLockScene(old(st))
      ensures SceneProgress(old(st), st)
      ensures Valid()
    {
      LockSceneKeepsInv(st);
      var snap := st.chain.value.snap;
      st := st.(scene := st.scene.(locked := true));
      st := st.(chain := Some(Advance(snap)));
    }

    /**
     * `advanceScene` followed by the reset effect: the next scene with fresh
     * value options and every per-scene flag and the popup cleared; after the
     * last scene the index stays, nothing is reset, and the end popup opens
     * 120 ms later.
     */
    method FireAdvance(rand: nat -> nat, order: seq<nat>)
      requires Valid() && st.chain.Some? && st.chain.value.Advance?
      requires IsPermutation(order, 4)
      modifies this
      ensures old(st.scene.index) + 1 >= SceneCount ==> st == StepAdvance(old(st), old(st.scene.valueOptions))
      ensures old(st.scene.index) + 1 < SceneCount ==>
                && st == StepAdvance(old(st), st.scene.valueOptions)
                && DrawnFromPool(st.scene.valueOptions, CorrectValueAt(st.scene.index))
      ensures SceneProgress(old(st), st)
      ensures Valid()
    {
      var snap := st.chain.value.snap;
      if st.scene.index + 1 >= SceneCount {
        AdvanceKeepsInv(st, st.scene.valueOptions);
        st := st.(chain := Some(OpenEnd(snap)));
      } else {
        var opts := BuildValueOptions(CorrectValueAt(st.scene.index + 1), rand, order);
        AdvanceKeepsInv(st, opts);
        st := st.(chain := None);
        st := st.(scene := SceneState(st.scene.index + 1, opts, false, false, false, false), popup := Closed);
      }
    }

    /**
     * `openEndPopup`: the first call commits the snapshot's result to the
     * ledger and opens the popup; a later call changes nothing.
     */
    method FireOpenEnd(finishedAt: real)
      requires Valid() && st.chain.Some? && st.chain.value.OpenEnd?
      modifies this, store
      ensures st == StepOpenEnd(old(st))
      ensures SceneProgress(old(st), st)
      ensures Valid()
      ensures old(st.endLock) ==> unchanged(store)
      ensures !old(st.endLock) ==>
                && store.cells == Ledger.Commit(old(store.cells), old(store.enabled), Ledger.Task4Keys,
                                                EndResult(old(st.chain.value.snap), finishedAt))
                && store.enabled == old(store.enabled)
    {
      OpenEndKeepsInv(st);
      var snap := st.chain.value.snap;
      st := st.(chain := None);
      if !st.endLock {
        st := st.(endLock := true);
        SaveResultsForAchievements(snap, finishedAt);
        st := st.(endOpen := true);
      }
    }

    /**
     * `saveResultsForAchievements`: the task record, then (unless the marker
     * is already set) the aggregate and the marker, then the done flag.
     */
    method SaveResultsForAchievements(snap: Snapshot, finishedAt: real)
      modifies store
      ensures store.cells == Ledger.Commit(old(store.cells), old(store.enabled), Ledger.Task4Keys, EndResult(snap, finishedAt))
      ensures store.enabled == old(store.enabled)
    {
      var r := EndResult(snap, finishedAt);
      var k := Ledger.Task4Keys;
      store.Write(k.record, r.record);
      var stored := store.Read(Ledger.ScoresKey);
      var prev := if Truthy(stored) then stored else Ledger.EmptyScores;
      var alreadyCounted := store.Read(k.counted);
      if !Truthy(alreadyCounted) {
        store.Write(Ledger.ScoresKey, Ledger.Merged(prev, r));
        store.Write(k.counted, JBool(true));
      }
      store.Write(k.done, JBool(true));
    }
  }
}
