# Know Your Democracy — World 1 task screens, in Dafny

This project models the core of the World 1 screens of the "Know Your Democracy"
game:

- the Task 4 screen: four scenes, each answered in two parts (an action worth 4
  points, then a value worth 1.5), value options drawn at random from a pool,
  a wrong-answer popup, and an end popup that commits the result;
- the Task 2 screen: twelve decision cards to match to the level of government
  that mainly decides them, then two scenarios, and a capped total committed at the end;
- the achievement ledger both screens write to `localStorage`;
- the task selector: who the player is, what the ledger shows, where each task leads;
- the Task 2, Task 3 and Task 4 intro screens, which type a text and then
  reveal the instructions or move on to them.

The model is organised like this:

- `storage.dfy` (`Storage`): the browser store. It holds parsed values or
  unparsable text, and it may be disabled. `safeRead` and `safeWrite` are total.
- `ledger.dfy` (`Ledger`): one task's commit of its result. It writes the
  record, the aggregate `yd_scores`, the `_counted` marker and the `_done` flag.
- `player.dfy` (`Player`): the selector and the player resolution every screen
  repeats.
- `feedback.dfy` (`Feedback`): the reward feedback both task screens share.
  This is the "correct" flash, the flying "+delta" tokens, and the scoreboard pulse.
- `scene_content.dfy` (`SceneContent`): the Task 4 tables, `sampleUnique`,
  `buildValueOptions` and `resolveSkillBadge`.
- `scene_task.dfy` (`SceneTask`): the Task 4 screen.
- `match_content.dfy` (`MatchContent`): the Task 2 tables, `clamp` and
  `resolveSkillBadge`.
- `match_task.dfy` (`MatchTask`): the Task 2 screen.
- `reveal.dfy` (`Reveal`): the intro sequencers.

Each screen is a class. Its field `st` holds the component's state variables
and refs as a datatype, and each handler or timer callback is a method. Each
method is proved equal to a step function of the old state. A lemma per step
proves that the step keeps the screen's invariant.

A `setTimeout` is an entry in the state's pending timers, and firing it is a
method the environment may call. On the task screens any pending timer may
fire next. On the intro screens each timer carries its due time in
milliseconds, and a timer fires only when no other is due before it.
`Math.random` is a parameter: `rand` for the draws of `sampleUnique`, and a
permutation `order` for the shuffle. The end time `Date.now()` is a parameter
too, and so are the navigation state and the store.

Two behaviours of the screens are modelled as written:

- A callback sees the score of the render that created it. The Task 4 end
  popup therefore commits the score as it was when the last value was picked,
  without that value's 1.5 points. The Task 2 `finishTask` commits the points
  as they were when the last scenario was picked, without that scenario's 2 points.
  The Task 4 commit is at most 20.5 of 22 points (`SceneTask.EndResultBounds`).
  A perfect Task 2 run commits 28 of 30.
- On the Task 2 screen, a correct level does not lock the card. A second click
  before the advance earns again and advances twice (`MatchTask.DoublePickSkipsCard`).
  After the last scenario the picker unlocks before `finishTask` runs
  (`MatchTask.LastScenarioReopens`). A second `finishTask` may therefore commit
  again, and the ledger's `_counted` marker keeps the aggregate from counting it
  twice (`Ledger.CommitTwice`, `Ledger.CommitAllOnce`).

## Model

| member | source | states |
|---|---|---|
| Storage.ReadAfterWrite | src/screens/World1Task2/World1Task2Screen.js:65-80 | after `safeWrite(key, v)` on a working store, `safeRead(key)` returns `v`, and every other key reads as before |
| Storage.ReadNullCases | src/screens/World1Task2/World1Task2Screen.js:65-72 | `safeRead` is null exactly for a missing key, an unparsable text or a throwing store; otherwise it is the parsed value |
| Storage.LocalStore.Write | src/screens/World1Task4/World1Task4Screen.js:300-304 | `safeWrite` sets the key's cell to the value on a working store, and leaves a throwing store unchanged |
| Storage.LocalStore.constructor | src/screens/World1Task4/World1Task4Screen.js:292-304 | the store the screens share starts with the given cells and availability |
| Ledger.CommitAlwaysWrites | src/screens/World1Task4/World1Task4Screen.js:306-341 | every commit writes the task record and the done flag and leaves the marker set; keys of other tasks keep their values and are not created |
| Ledger.CommitMergesUnlessCounted | src/screens/World1Task4/World1Task4Screen.js:316-338 | without the marker, the aggregate becomes the previous one (or the zero aggregate) merged with the result; with the marker, the aggregate is untouched |
| Ledger.CommitTwice | src/screens/World1Task2/World1Task2Screen.js:296-323 | a second commit of the same task changes only the task record |
| Ledger.CommitAllOnce | src/screens/World1Task2/World1Task2Screen.js:305-322 | however many times a task commits, the aggregate holds exactly what the first commit wrote, and the marker is set |
| Ledger.CommitAddsTotals | src/screens/World1Task2/World1Task2Screen.js:305-319 | a first commit over a numeric aggregate raises both totals by the task's points and curiosity, and appends the task's badges |
| Ledger.CommitDisabled | src/screens/World1Task2/World1Task2Screen.js:74-80 | on a store that throws on every access, any number of commits leave the store as it was |
| Player.ResolvePlayerCases | src/screens/World1TaskSelector/World1TaskSelectorScreen.js:10-20 | the player is the navigation state when it has a name, else the parsed `yd_player`, else the default player; unless it comes from a stored `yd_player`, the resolved player has a name |
| Player.ForwardedPlayerIsStable | src/screens/World1Task2Intro/World1Task2IntroScreen.js:10-20 | a resolved player that has a name, forwarded as navigation state, resolves to itself on the next screen whatever that screen's store holds (a stored player without a name is not carried over) |
| Player.SelectorScoresDefaults | src/screens/World1TaskSelector/World1TaskSelectorScreen.js:48-51 | a missing, unreadable or disabled `yd_scores` shows totals of 0 and no badges |
| Player.SelectorShowsFirstCommit | src/screens/World1TaskSelector/World1TaskSelectorScreen.js:48-51 | after a task's first commit into a store with no aggregate, the selector shows that task's points, curiosity and badges |
| Player.StoredBadgesResolve | src/screens/World1Task4/World1Task4Screen.js:310 | the badges the ledger stores (`badges.map((b) => ({ id, src }))`) are one per badge, in order, and the selector's `resolveBadgeSrc` shows each as that badge's own image under its own id |
| Player.ResolveBadgeSrcOfLedger | src/screens/World1TaskSelector/World1TaskSelectorScreen.js:92-97 | a stored `{ id, src }` badge or a bare path resolves to its image; null, numbers, booleans and arrays resolve to "" |
| Player.CharacterSrcCases | src/screens/World1TaskSelector/World1TaskSelectorScreen.js:69-72 | the male image is shown exactly when the character is "male"; the default player is shown as female |
| Player.HandleTaskRoutes | src/screens/World1TaskSelector/World1TaskSelectorScreen.js:75-89 | each task button leads to its own intro route and forwards the player unchanged |
| Feedback.RemoveId | src/screens/World1Task4/World1Task4Screen.js:222 | `arr.filter((x) => x.id !== id)` keeps exactly the other ids and never grows |
| Feedback.RemoveIdDistinct | src/screens/World1Task4/World1Task4Screen.js:218-222 | filtering keeps ids distinct, removes a present id exactly once, and returns an absent id's list unchanged |
| Feedback.LaunchedOk | src/screens/World1Task4/World1Task4Screen.js:204-219 | `makeFly` with both anchors on screen adds a token whose id is fresh; without them nothing flies; ids stay distinct |
| Feedback.LandedOk | src/screens/World1Task2/World1Task2Screen.js:178-188 | a landing removes exactly the landed token, and the remaining ids stay distinct |
| SceneContent.CorrectActionLabel | src/screens/World1Task4/World1Task4Screen.js:416-417 | the popup label is that of the first correct option, or "—" when no option is correct |
| SceneContent.ScenesHaveOneCorrectAction | src/screens/World1Task4/World1Task4Screen.js:72-133 | every scene has four actions, only option B is correct, and the wrong-action popup shows B's label |
| SceneContent.CorrectValuesInPool | src/screens/World1Task4/World1Task4Screen.js:20-41 | every scene's correct value is one of the pool's labels |
| SceneContent.Filter | src/screens/World1Task4/World1Task4Screen.js:44 | the filtered pool holds exactly the labels of `arr` that are not excluded |
| SceneContent.SampleUnique | src/screens/World1Task4/World1Task4Screen.js:43-57 | the sample holds `min(count, candidates)` labels, pairwise distinct, all from `arr` and none excluded |
| SceneContent.SampleLength | src/screens/World1Task4/World1Task4Screen.js:47-56 | when the draws stop, the sample is `count` labels long or holds every candidate |
| SceneContent.PoolHasThreeOthers | src/screens/World1Task4/World1Task4Screen.js:20-41 | whatever the correct value, the pool has at least three other labels to draw |
| SceneContent.ArrangeValid | src/screens/World1Task4/World1Task4Screen.js:62-68 | shuffling the correct label and three distinct pool labels and keying them A to D gives four distinct options with exactly one correct |
| SceneContent.BuildValueOptions | src/screens/World1Task4/World1Task4Screen.js:59-69 | four options keyed A to D with distinct labels; an option is correct exactly when it carries the scene's value, and every other label comes from the pool |
| SceneContent.SceneTierMonotone | src/screens/World1Task4/World1Task4Screen.js:135-139 | the badge tier never falls as correct actions grow: beginner at 0, advanced at 2, expert at 4 |
| SceneTask.EndResultBounds | src/screens/World1Task4/World1Task4Screen.js:343-355 | the committed result has between 0 and 20.5 points, no curiosity and one badge, and the badge is expert exactly when all four actions were right |
| SceneTask.InitialInv | src/screens/World1Task4/World1Task4Screen.js:248-262 | the mounted screen, on scene one's options, satisfies the invariant |
| SceneTask.AwardedInFlight | src/screens/World1Task4/World1Task4Screen.js:398-403 | `awardPoints(delta)` puts exactly `delta` more points in flight and changes neither the scene, the popup, the chain nor the score |
| SceneTask.RightActionKeepsInv | src/screens/World1Task4/World1Task4Screen.js:431-435 | a right action closes part one, counts the action and puts 4 points in flight, and the invariant holds |
| SceneTask.WrongActionKeepsInv | src/screens/World1Task4/World1Task4Screen.js:415-428 | the wrong-action popup holds the callback that unlocks part two, and the invariant holds |
| SceneTask.PickActionKeepsInv | src/screens/World1Task4/World1Task4Screen.js:408-436 | `handlePickAction` keeps the invariant in every case; the scene index stays or moves on by one, and a set `endLockRef` stays set |
| SceneTask.SnapshotAtPick | src/screens/World1Task4/World1Task4Screen.js:441-465 | the score a value pick captures counts at most one action per scene and has not yet earned its own value |
| SceneTask.RightValueKeepsInv | src/screens/World1Task4/World1Task4Screen.js:447-454 | a right value puts 1.5 points in flight and starts the lock-and-advance chain with the captured score; the invariant holds |
| SceneTask.WrongValueKeepsInv | src/screens/World1Task4/World1Task4Screen.js:457-464 | a wrong value opens the popup with the correct value, and the popup holds the chain; the invariant holds |
| SceneTask.PickValueKeepsInv | src/screens/World1Task4/World1Task4Screen.js:441-465 | `handlePickValue` keeps the invariant in every case; the scene index stays or moves on by one, and a set `endLockRef` stays set |
| SceneTask.CloseKeepsInv | src/screens/World1Task4/World1Task4Screen.js:276-286 | `closeWrongPopup` schedules the held callback, if there is one, and keeps the invariant; the scene index stays or moves on by one, and a set `endLockRef` stays set |
| SceneTask.RemoveQuiet | src/screens/World1Task4/World1Task4Screen.js:221-230 | a timer that carries no points leaves the points in flight unchanged when it fires |
| SceneTask.AddPointsKeepsInv | src/screens/World1Task4/World1Task4Screen.js:402 | the delayed `setPoints(p + delta)` moves points from in flight to the scoreboard and keeps the invariant; the scene index stays or moves on by one, and a set `endLockRef` stays set |
| SceneTask.FlyLandKeepsInv | src/screens/World1Task4/World1Task4Screen.js:221-230 | a landing, which schedules the end of the pulse, keeps the invariant; the scene index stays or moves on by one, and a set `endLockRef` stays set |
| SceneTask.PulseOffKeepsInv | src/screens/World1Task4/World1Task4Screen.js:225 | the end of the pulse keeps the invariant; the scene index stays or moves on by one, and a set `endLockRef` stays set |
| SceneTask.UnlockKeepsInv | src/screens/World1Task4/World1Task4Screen.js:423-427 | the wrong-action popup's callback opens part two without points and keeps the invariant; the scene index stays or moves on by one, and a set `endLockRef` stays set |
| SceneTask.LockSceneKeepsInv | src/screens/World1Task4/World1Task4Screen.js:449-452 | locking the scene schedules `advanceScene` and keeps the invariant; the scene index stays or moves on by one, and a set `endLockRef` stays set |
| SceneTask.AdvanceKeepsInv | src/screens/World1Task4/World1Task4Screen.js:359-384 | `advanceScene` followed by the reset keeps the invariant: the next scene starts clean, and after the last scene the end popup is scheduled; the scene index stays or moves on by one, and a set `endLockRef` stays set |
| SceneTask.OpenEndKeepsInv | src/screens/World1Task4/World1Task4Screen.js:343-355 | `openEndPopup` keeps the invariant; the scene index stays or moves on by one, and a set `endLockRef` stays set |
| SceneTask.OpenEndRunsOnce | src/screens/World1Task4/World1Task4Screen.js:343-345 | whenever `openEndPopup` is due, the latch is still open; after it runs, the latch is set, the popup is open and no chain remains |
| SceneTask.ScoreBounded | src/screens/World1Task4/World1Task4Screen.js:398-465 | at most one action per scene is counted, and shown plus in-flight points never exceed 22 |
| SceneTask.AwardWithoutAnchors | src/screens/World1Task4/World1Task4Screen.js:398-403 | a delta that is not positive does nothing; otherwise the points are scheduled whether or not the token can fly |
| SceneTask.PicksIgnoredWhileLocked | src/screens/World1Task4/World1Task4Screen.js:408-442 | neither picker changes anything while the scene is locked or a popup is open |
| SceneTask.WrongActionWindow | src/screens/World1Task4/World1Task4Screen.js:276-286 | a right action picked in the 80 ms between closing the wrong-action popup and its callback is still counted and paid, and the callback then changes no flag |
| SceneTask.Task4Screen.constructor | src/screens/World1Task4/World1Task4Screen.js:248-262 | the screen mounts on scene one with fresh value options drawn from the pool, nothing picked and no points, satisfying the invariant |
| SceneTask.Task4Screen.Award | src/screens/World1Task4/World1Task4Screen.js:398-403 | the state after `awardPoints`; token ids stay distinct |
| SceneTask.Task4Screen.PickAction | src/screens/World1Task4/World1Task4Screen.js:408-436 | the state after `handlePickAction`; the invariant is kept |
| SceneTask.Task4Screen.PickValue | src/screens/World1Task4/World1Task4Screen.js:441-465 | the state after `handlePickValue`; the invariant is kept |
| SceneTask.Task4Screen.CloseWrongPopup | src/screens/World1Task4/World1Task4Screen.js:276-286 | the state after `closeWrongPopup`; the invariant is kept |
| SceneTask.Task4Screen.FireAddPoints | src/screens/World1Task4/World1Task4Screen.js:402 | the delayed points land; the invariant is kept |
| SceneTask.Task4Screen.FireFlyLand | src/screens/World1Task4/World1Task4Screen.js:221-230 | the token leaves the list and the pulse starts; ids stay distinct |
| SceneTask.Task4Screen.FirePulseOff | src/screens/World1Task4/World1Task4Screen.js:225 | the pulse ends |
| SceneTask.Task4Screen.FireFlashOff | src/screens/World1Task4/World1Task4Screen.js:236-240 | the one flash timer ends the flash |
| SceneTask.Task4Screen.FireUnlock | src/screens/World1Task4/World1Task4Screen.js:423-427 | part one closes and part two opens, without points |
| SceneTask.Task4Screen.FireLockScene | src/screens/World1Task4/World1Task4Screen.js:449-452 | the scene locks and the advance is scheduled |
| SceneTask.Task4Screen.FireAdvance | src/screens/World1Task4/World1Task4Screen.js:359-384 | the next scene with fresh options drawn from the pool and every per-scene flag cleared, or after the last scene the end popup is scheduled and nothing else changes; the index moves on by at most one |
| SceneTask.Task4Screen.FireOpenEnd | src/screens/World1Task4/World1Task4Screen.js:343-355 | the first call commits the captured score to the ledger and opens the popup; a later call leaves the store alone |
| SceneTask.Task4Screen.SaveResultsForAchievements | src/screens/World1Task4/World1Task4Screen.js:306-341 | the store ends as the ledger's commit of the Task 4 result leaves it |
| MatchContent.CardLevelsOfCards | src/screens/World1Task2/World1Task2Screen.js:6-19 | the twelve cards, ids 1 to 12, each with the level the screen checks against |
| MatchContent.ScenariosHaveOneBest | src/screens/World1Task2/World1Task2Screen.js:22-51 | each scenario has three options, exactly one of them best; only the best earns points, and it earns 2 |
| MatchContent.MaxPointsIs30 | src/screens/World1Task2/World1Task2Screen.js:6-51 | with 3 for a right level on a shared card and 2 on any other (line 274), the most the cards and the scenarios can earn is 30, the cap `finishTask` applies |
| MatchContent.ClampCases | src/screens/World1Task2/World1Task2Screen.js:56 | `clamp` lands in range, keeps in-range values and sends values above the range to its top |
| MatchContent.MatchTierMonotone | src/screens/World1Task2/World1Task2Screen.js:59-63 | the badge tier never falls as points grow: beginner at 0, advanced at 11, expert at 30 |
| MatchTask.FinishResultBounds | src/screens/World1Task2/World1Task2Screen.js:325-330 | the committed points lie in [0, 30] and equal the total when it is in range; no curiosity; the badge is that of the committed points |
| MatchTask.FinishCapsAt30 | src/screens/World1Task2/World1Task2Screen.js:326 | every total of 30 or more commits exactly what 30 commits, with the expert badge |
| MatchTask.InitialInv | src/screens/World1Task2/World1Task2Screen.js:263-291 | the mounted screen satisfies the invariant |
| MatchTask.RewardedOk | src/screens/World1Task2/World1Task2Screen.js:276-278 | a reward schedules one positive award and keeps the invariant |
| MatchTask.PickLevelKeepsInv | src/screens/World1Task2/World1Task2Screen.js:266-286 | `handlePickLevel` keeps the invariant, and nothing goes back |
| MatchTask.PickScenarioKeepsInv | src/screens/World1Task2/World1Task2Screen.js:332-356 | `handlePickScenario` keeps the invariant, and nothing goes back |
| MatchTask.OpenHelpKeepsInv | src/screens/World1Task2/World1Task2Screen.js:212-217 | `openHelp` keeps the invariant |
| MatchTask.CloseKeepsInv | src/screens/World1Task2/World1Task2Screen.js:236-245 | `closePopup` keeps the invariant |
| MatchTask.AddPointsKeepsInv | src/screens/World1Task2/World1Task2Screen.js:278 | the delayed points land, and the invariant holds |
| MatchTask.AdvanceCardKeepsInv | src/screens/World1Task2/World1Task2Screen.js:225-234 | `advanceCard` moves to the next card, or switches to the routes phase at the last card; the invariant holds |
| MatchTask.FlyLandKeepsInv | src/screens/World1Task2/World1Task2Screen.js:178-188 | a landing keeps the invariant |
| MatchTask.PulseOffKeepsInv | src/screens/World1Task2/World1Task2Screen.js:183 | the end of the pulse keeps the invariant |
| MatchTask.ScenarioNextKeepsInv | src/screens/World1Task2/World1Task2Screen.js:344-355 | the scenario timer moves on (or schedules `finishTask`) and unlocks, keeping the invariant |
| MatchTask.FinishKeepsInv | src/screens/World1Task2/World1Task2Screen.js:325-330 | `finishTask` opens the end popup and keeps the invariant |
| MatchTask.PickLevelOutcome | src/screens/World1Task2/World1Task2Screen.js:266-286 | a correct level schedules its points and one advance; a wrong level opens the popup with the correct level and schedules nothing; picks are ignored outside the matching phase or under a popup |
| MatchTask.CloseAdvancesOnlyAfterWrong | src/screens/World1Task2/World1Task2Screen.js:236-245 | closing the popup schedules an advance exactly when the popup showed a wrong answer; closing the help popup never does |
| MatchTask.DoublePickSkipsCard | src/screens/World1Task2/World1Task2Screen.js:266-283 | two clicks on the right level before the advance both earn and both advance, so the next card is skipped |
| MatchTask.LastScenarioReopens | src/screens/World1Task2/World1Task2Screen.js:344-355 | after the last scenario's timer the picker is open while `finishTask` is pending, and a new pick is accepted |
| MatchTask.Task2Screen.constructor | src/screens/World1Task2/World1Task2Screen.js:263-291 | the screen mounts on the first card with no points and nothing pending |
| MatchTask.Task2Screen.Reward | src/screens/World1Task2/World1Task2Screen.js:276-278 | the flash, the token and the delayed points; token ids stay distinct |
| MatchTask.Task2Screen.PickLevel | src/screens/World1Task2/World1Task2Screen.js:266-286 | the state after `handlePickLevel`; the invariant is kept and nothing goes back |
| MatchTask.Task2Screen.PickScenario | src/screens/World1Task2/World1Task2Screen.js:332-356 | the state after `handlePickScenario`; the invariant is kept and nothing goes back |
| MatchTask.Task2Screen.OpenHelp | src/screens/World1Task2/World1Task2Screen.js:212-217 | the help popup opens with the help text |
| MatchTask.Task2Screen.ClosePopup | src/screens/World1Task2/World1Task2Screen.js:236-245 | the state after `closePopup` |
| MatchTask.Task2Screen.FireAddPoints | src/screens/World1Task2/World1Task2Screen.js:278 | the delayed points land |
| MatchTask.Task2Screen.FireAdvanceCard | src/screens/World1Task2/World1Task2Screen.js:225-234 | the state after `advanceCard` |
| MatchTask.Task2Screen.FireFlyLand | src/screens/World1Task2/World1Task2Screen.js:178-188 | the token leaves the list and the pulse starts |
| MatchTask.Task2Screen.FirePulseOff | src/screens/World1Task2/World1Task2Screen.js:183 | the pulse ends |
| MatchTask.Task2Screen.FireFlashOff | src/screens/World1Task2/World1Task2Screen.js:195-199 | the flash ends |
| MatchTask.Task2Screen.FireScenarioNext | src/screens/World1Task2/World1Task2Screen.js:344-355 | the next scenario, or `finishTask` scheduled after the last one; the picker unlocks |
| MatchTask.Task2Screen.FireFinishTask | src/screens/World1Task2/World1Task2Screen.js:325-330 | every run commits the clamped total it saw to the ledger and opens the end popup |
| MatchTask.Task2Screen.SaveResultsForAchievements | src/screens/World1Task2/World1Task2Screen.js:296-323 | the store ends as the ledger's commit of the Task 2 result leaves it |
| Reveal.TypedGrows | src/screens/World1Task2Intro/World1Task2IntroScreen.js:70-71 | `introFull.slice(0, k)` has `min(k, length)` characters, only grows with `k`, and is the whole text from `k = length` on |
| Reveal.ElapsedIsProduct | src/screens/World1Task2Intro/World1Task2IntroScreen.js:69-92 | the `n`-th tick of an interval of `step` ms comes `n * step` ms after mount |
| Reveal.MountedInv | src/screens/World1Task2Intro/World1Task2IntroScreen.js:58-69 | the effect on mount, with an empty text, no stage flags set and the interval started, satisfies the invariant |
| Reveal.TickKeepsInv | src/screens/World1Task2Intro/World1Task2IntroScreen.js:69-92 | a tick shows one more character and keeps the invariant; typing is done exactly when the whole text is shown, at `length * 84` ms |
| Reveal.HoldKeepsInv | src/screens/World1Task2Intro/World1Task2IntroScreen.js:78-79 | the end of the hold starts the fade and keeps the invariant |
| Reveal.FadeKeepsInv | src/screens/World1Task2Intro/World1Task2IntroScreen.js:81-88 | the end of the fade hides the text and schedules both reveals; the invariant holds |
| Reveal.ShowKeepsInv | src/screens/World1Task2Intro/World1Task2IntroScreen.js:81-85 | the box appears 3320 ms after the last character |
| Reveal.TextInKeepsInv | src/screens/World1Task2Intro/World1Task2IntroScreen.js:85-88 | the text slides in only into a box already shown, 240 ms after it |
| Reveal.CleanupKeepsInv | src/screens/World1Task2Intro/World1Task2IntroScreen.js:94-100 | after the cleanup nothing is pending, so no stage changes after unmount; what is shown stays |
| Reveal.IntroRendersCases | src/screens/World1Task2Intro/World1Task2IntroScreen.js:10-29 | the Task 2 and Task 3 intros fail to render (`player.character` on null) exactly when no navigation state names the player and a working store holds a `yd_player` that parses to null |
| Reveal.RevealIntro.constructor | src/screens/World1Task3Intro/World1Task3IntroScreen.js:62-73 | the intro mounts, for any player that renders, with its player resolved and the typing started |
| Reveal.RevealIntro.FireTick | src/screens/World1Task3Intro/World1Task3IntroScreen.js:73-94 | the state after a typing tick; the invariant is kept |
| Reveal.RevealIntro.FireHold | src/screens/World1Task3Intro/World1Task3IntroScreen.js:82-83 | the state after the hold |
| Reveal.RevealIntro.FireFade | src/screens/World1Task3Intro/World1Task3IntroScreen.js:85-91 | the state after the fade, with both reveal handles pushed |
| Reveal.RevealIntro.FireShowUi | src/screens/World1Task3Intro/World1Task3IntroScreen.js:89 | the box appears |
| Reveal.RevealIntro.FireTextIn | src/screens/World1Task3Intro/World1Task3IntroScreen.js:90 | the box's text slides in |
| Reveal.RevealIntro.Unmount | src/screens/World1Task3Intro/World1Task3IntroScreen.js:96-102 | the cleanup cancels every held timer and each reveal timeout in turn, then empties the list; nothing stays pending |
| Reveal.StartForwardsPlayer | src/screens/World1Task2Intro/World1Task2IntroScreen.js:104-106 | each intro's start button leads to its own task, and the task screen resolves the intro's player again, whatever its store holds, whenever that player has a name |
| Reveal.QuoteMountedInv | src/screens/World1Task4Intro/World1Task4IntroScreen.js:47-53 | the Task 4 intro on mount satisfies its invariant |
| Reveal.QuoteTickKeepsInv | src/screens/World1Task4Intro/World1Task4IntroScreen.js:53-70 | a tick shows one more character and keeps the invariant; typing is done exactly when the whole quote is shown, at `length * 64` ms |
| Reveal.QuoteHoldKeepsInv | src/screens/World1Task4Intro/World1Task4IntroScreen.js:62-63 | the end of the hold starts the fade and keeps the invariant |
| Reveal.QuoteFadeKeepsInv | src/screens/World1Task4Intro/World1Task4IntroScreen.js:65-67 | the navigation to the instructions happens once, 1950 ms after the last character, and forwards the player |
| Reveal.QuoteCleanupKeepsInv | src/screens/World1Task4Intro/World1Task4IntroScreen.js:72-76 | after the cleanup nothing is pending, so there is no navigation after unmount |
| Reveal.QuoteIntro.constructor | src/screens/World1Task4Intro/World1Task4IntroScreen.js:15-25 | the intro mounts with its player resolved and the typing started |
| Reveal.QuoteIntro.FireTick | src/screens/World1Task4Intro/World1Task4IntroScreen.js:53-70 | the state after a typing tick |
| Reveal.QuoteIntro.FireHold | src/screens/World1Task4Intro/World1Task4IntroScreen.js:62-63 | the state after the hold |
| Reveal.QuoteIntro.FireFade | src/screens/World1Task4Intro/World1Task4IntroScreen.js:65-67 | the navigation to `/world-1/task-4-instructions` with the player |
| Reveal.QuoteIntro.Unmount | src/screens/World1Task4Intro/World1Task4IntroScreen.js:72-76 | the cleanup cancels the interval and the two timeouts |

## Left out

- Reveal.RevealIntro.constructor: a mount whose resolved player is null is excluded by its precondition. The source throws a TypeError in render there (line 29 of both intros), and the model has no crashed state; `Reveal.IntroRendersCases` characterises exactly the inputs that crash.

- `pickNewTopMessage` (the random encouragement line above the scene) is not modelled. It changes nothing the rest of the screen reads.
- The coordinates of the flying tokens and the curiosity-points token are not modelled. Both screens only ever fly "points" tokens, and only the token ids are kept.
- The task screens' timer delays are not modelled: any pending timer may fire next. A run in which every timer fires in order of its delay is one of those runs. The intro screens keep their delays exactly.
- The task screens' unmount is not modelled. The only timer they cancel is the flash.
- The `!scene` and `!currentCard` guards are not modelled. The scene and card indices always stay in their tables.
- Buttons absent from the current phase are not modelled. The model's handlers treat them as doing nothing.
- The Escape-key listeners are not modelled separately. They call the same `closeWrongPopup`, `closePopup` and main-menu navigation as the buttons.
- `Ledger.NumOrZero`: a truthy text, array or object total would make JavaScript concatenate strings; the model counts it as 0.
- Storage quota failures of a single `setItem` are not modelled. The store either works for every key or throws for every key.
- The double invocation of state updaters in React's development mode is not modelled. It could schedule the end popup or `finishTask` twice, and the latch and the ledger marker would absorb it.
- `process.env.PUBLIC_URL` is a build-time prefix. It is the constant `Ledger.PublicUrl`.
- The end popup's main-menu navigation, the Task 2 end popup's `goTask3Intro` button (World1Task2Screen.js:361, a navigation to the Task 3 intro with the player), and `GameLayout`, `App.js`, the Task 4 instructions screen, CSS and JSX are not modelled. They are not part of this model.
- `fmt` (number display) is not modelled; it only affects what the screen prints.
- The real `Math.random`, `JSON.parse`/`JSON.stringify` and `Date.now()` are not modelled. They are parameters, or an already-parsed `Json` value.
- `SceneContent.SampleUnique`: `Math.floor(Math.random() * pool.length)` is modelled as `rand(n) % |pool|`. Every index the source can draw is reachable, but the distribution is not modelled.
