/**
 * The intro screens' reveal sequencers.
 *
 * The Task 2 and Task 3 intros type their text one character per tick, hold
 * it, fade it, hide it, and then reveal the instruction box and, 240 ms
 * later, its text (`RevealIntro`).  The Task 4 intro types a quote, holds it,
 * fades it and then navigates to the instructions (`QuoteIntro`).
 *
 * Each timer is pending with a due time in milliseconds after mount; `now` is
 * the time of the last timer that fired, and a timer may fire only when no
 * pending timer is due before it, as in the browser.  The cleanup of the
 * effect cancels every timer it holds a handle to.
 */
module Reveal {
  import opened Storage
  import Player

  const TypeMs: nat := 84
  const HoldMs: nat := 2500
  const FadeMs: nat := 700
  const RevealDelay: nat := 120
  /** How long after the box its text slides in. */
  const TextInAfter: nat := 240

  /** `REVEAL_DELAY_SAFE` (spelled `REVEVEAL_DELAY_SAFE` on the Task 3 intro): the delay unchanged. */
  function RevealDelaySafe(n: int): int
  {
    n
  }

  datatype IntroScreen = Task2Intro | Task3Intro

  const Task2IntroText: string :=
    "You enter a wide hall with three glowing paths.\nOne leads to a town square, one to a parliament building, and one to a circle of flags.\n\n“Many people fight hard for change — but at the wrong door.\nIf you don’t know who decides, you’ll fight the wrong battle.”"

  const Task3IntroText: string :=
    "A friendly voice echoes through the hall:\n“In democracy, power has limits.\nYour job is to test decisions: are they fair, legal, and respectful of rights?”"

  function IntroFull(screen: IntroScreen): string
  {
    match screen
    case Task2Intro => Task2IntroText
    case Task3Intro => Task3IntroText
  }

  /**
   * The Task 2 and Task 3 intros read `player.character` without optional
   * chaining, so their render throws when the resolved player is null.
   */
  predicate IntroRenders(player: Json)
  {
    !player.JNull?
  }

  /**
   * The render throws exactly when no navigation state names the player and
   * the working store holds a `yd_player` that parses to null.
   */
  lemma IntroRendersCases(state: Option<Json>, cells: map<string, Cell>, enabled: bool)
    ensures !IntroRenders(Player.ResolvePlayer(state, cells, enabled)) <==>
              !Player.NamesPlayer(state) && enabled && "yd_player" in cells && cells["yd_player"] == Parsed(JNull)
  {
    Player.ResolvePlayerCases(state, cells, enabled);
    assert Field(Player.DefaultPlayer, "name") == Some(JStr("Player"));
  }

  /** Where each intro's start button leads. */
  function StartRoute(screen: IntroScreen): string
  {
    match screen
    case Task2Intro => "/world-1/task-2"
    case Task3Intro => "/world-1/task-3"
  }

  function Min(a: int, b: int): int { if a <= b then a else b }

  /** `introFull.slice(0, k)`: what the screen shows after `k` ticks. */
  function Typed(full: string, k: nat): string
  {
    full[..Min(k, |full|)]
  }

  /** Each tick shows one more character until the whole text is shown; what is shown only grows. */
  lemma TypedGrows(full: string, j: nat, k: nat)
    requires j <= k
    ensures |Typed(full, k)| == Min(k, |full|)
    ensures Typed(full, j) <= Typed(full, k) <= full
    ensures k >= |full| ==> Typed(full, k) == full
  {
  }

  /** The time of the `n`-th tick of an interval of `step` ms started at mount. */
  function Elapsed(n: nat, step: nat): nat
  {
    if n == 0 then 0 else Elapsed(n - 1, step) + step
  }

  /** The `n`-th tick comes `n * step` ms after mount. */
  lemma {:induction false} ElapsedIsProduct(n: nat, step: nat)
    ensures Elapsed(n, step) == n * step
  {
    if n > 0 {
      ElapsedIsProduct(n - 1, step);
    }
  }

  /** When the box is revealed, for a text typed in `n` ticks. */
  function ShowUiAt(n: nat): nat
  {
    Elapsed(n, TypeMs) + HoldMs + FadeMs + RevealDelay
  }

  /** The handles `revealRefs` collects. */
  datatype RevealTimer = ShowUiTimer | TextInTimer

  /** `introTypingDone`, `introFading`, `introHidden`, `showUI`, `uiTextIn`. */
  datatype Flags = Flags(typingDone: bool, fading: bool, hidden: bool, showUI: bool, textIn: bool)

  /** The due time of each pending timer. */
  datatype Timers = Timers(tick: Option<nat>, hold: Option<nat>, fade: Option<nat>, show: Option<nat>, textIn: Option<nat>)

  /** `typingRef`, `holdRef`, `fadeRef` (whether each holds a handle) and `revealRefs`. */
  datatype Handles = Handles(typing: bool, hold: bool, fade: bool, revealRefs: seq<RevealTimer>)

  /** A Task 2 or Task 3 intro: the clock, the tick counter `i`, the text shown, and the rest. */
  datatype Intro = Intro(now: nat, i: nat, text: string, flags: Flags, timers: Timers, handles: Handles, mounted: bool)

  /** No pending timer is due before `d`. */
  predicate Earliest(t: Timers, d: nat)
  {
    && (t.tick.Some? ==> d <= t.tick.value)
    && (t.hold.Some? ==> d <= t.hold.value)
    && (t.fade.Some? ==> d <= t.fade.value)
    && (t.show.Some? ==> d <= t.show.value)
    && (t.textIn.Some? ==> d <= t.textIn.value)
  }

  predicate NothingPending(t: Timers)
  {
    t.tick.None? && t.hold.None? && t.fade.None? && t.show.None? && t.textIn.None?
  }

  /** The stages come in order. */
  predicate StagesOk(f: Flags)
  {
    (f.fading ==> f.typingDone) && (f.hidden ==> f.fading) && (f.showUI ==> f.hidden) && (f.textIn ==> f.showUI)
  }

  /** The time the last stage began, for a text typed in `i` ticks. */
  function Clock(i: nat, f: Flags): nat
  {
    if f.textIn then ShowUiAt(i) + TextInAfter
    else if f.showUI then ShowUiAt(i)
    else if f.hidden then Elapsed(i, TypeMs) + HoldMs + FadeMs
    else if f.fading then Elapsed(i, TypeMs) + HoldMs
    else Elapsed(i, TypeMs)
  }

  /** What `i` ticks have typed. */
  predicate TextOk(full: string, s: Intro)
  {
    && (s.i <= |full| || s.i == 1) && s.text == Typed(full, s.i)
    && (s.flags.typingDone <==> s.i > 0 && s.i >= |full|)
  }

  /** Each timer is pending only at its own stage, at its time, with its handle held. */
  predicate TimesOk(s: Intro)
  {
    var f, t, h := s.flags, s.timers, s.handles;
    && (t.tick.Some? ==> !f.typingDone && t.tick.value == Elapsed(s.i + 1, TypeMs) && h.typing)
    && (t.hold.Some? ==> f.typingDone && !f.fading && t.hold.value == Elapsed(s.i, TypeMs) + HoldMs && h.hold)
    && (t.fade.Some? ==> f.fading && !f.hidden && t.fade.value == Elapsed(s.i, TypeMs) + HoldMs + FadeMs && h.fade)
    && (t.show.Some? ==> f.hidden && !f.showUI && t.show.value == ShowUiAt(s.i) && ShowUiTimer in h.revealRefs)
    && (t.textIn.Some? ==> f.hidden && !f.textIn && t.textIn.value == ShowUiAt(s.i) + TextInAfter && TextInTimer in h.revealRefs)
  }

  /** While mounted, the stage in progress always has its timer; after unmount nothing is pending. */
  predicate LiveOk(s: Intro)
  {
    var f, t := s.flags, s.timers;
    && (s.mounted && !f.typingDone ==> t.tick.Some?)
    && (s.mounted && f.typingDone && !f.fading ==> t.hold.Some?)
    && (s.mounted && f.fading && !f.hidden ==> t.fade.Some?)
    && (s.mounted && f.hidden && !f.showUI ==> t.show.Some?)
    && (s.mounted && f.hidden && !f.textIn ==> t.textIn.Some?)
    && (!s.mounted ==> NothingPending(t))
  }

  predicate IntroInv(full: string, s: Intro)
  {
    TextOk(full, s) && StagesOk(s.flags) && s.now == Clock(s.i, s.flags) && TimesOk(s) && LiveOk(s)
  }

  /** The effect on mount: an empty text, every stage flag down, the typing interval started. */
  function Mounted(): Intro
  {
    Intro(0, 0, "", Flags(false, false, false, false, false),
          Timers(Some(TypeMs), None, None, None, None), Handles(true, false, false, []), true)
  }

  /**
   * A typing tick: one more character.  At the end of the text the interval
   * is cleared, typing is done and the hold starts.
   */
  function Ticked(full: string, s: Intro): Intro
    requires s.timers.tick.Some?
  {
    var now, i := s.timers.tick.value, s.i + 1;
    if i >= |full| then
      s.(now := now, i := i, text := Typed(full, i), flags := s.flags.(typingDone := true),
         timers := s.timers.(tick := None, hold := Some(now + HoldMs)),
         handles := s.handles.(typing := false, hold := true))
    else
      s.(now := now, i := i, text := Typed(full, i), timers := s.timers.(tick := Some(now + TypeMs)))
  }

  /** The hold ends: the text starts to fade. */
  function Held(s: Intro): Intro
    requires s.timers.hold.Some?
  {
    var now := s.timers.hold.value;
    s.(now := now, flags := s.flags.(fading := true),
       timers := s.timers.(hold := None, fade := Some(now + FadeMs)), handles := s.handles.(fade := true))
  }

  /** The fade ends: the text is hidden and the two reveal timeouts are pushed onto `revealRefs`. */
  function Faded(s: Intro): Intro
    requires s.timers.fade.Some?
  {
    var now := s.timers.fade.value;
    s.(now := now, flags := s.flags.(hidden := true),
       timers := s.timers.(fade := None, show := Some(now + RevealDelay),
                           textIn := Some(now + RevealDelaySafe(RevealDelay) + TextInAfter)),
       handles := s.handles.(revealRefs := s.handles.revealRefs + [ShowUiTimer, TextInTimer]))
  }

  /** The instruction box and the character appear. */
  function Shown(s: Intro): Intro
    requires s.timers.show.Some?
  {
    s.(now := s.timers.show.value, flags := s.flags.(showUI := true), timers := s.timers.(show := None))
  }

  /** The box's text slides in. */
  function TextShown(s: Intro): Intro
    requires s.timers.textIn.Some?
  {
    s.(now := s.timers.textIn.value, flags := s.flags.(textIn := true), timers := s.timers.(textIn := None))
  }

  /**
   * The cleanup: each timer whose handle is held is cancelled, every timeout
   * in `revealRefs` is cancelled and the list emptied.
   */
  function CleanedUp(s: Intro): Intro
  {
    var t, h := s.timers, s.handles;
    s.(timers := Timers(if h.typing then None else t.tick, if h.hold then None else t.hold,
                        if h.fade then None else t.fade,
                        if ShowUiTimer in h.revealRefs then None else t.show,
                        if TextInTimer in h.revealRefs then None else t.textIn),
       handles := h.(revealRefs := []), mounted := false)
  }

  lemma MountedInv(full: string)
    ensures IntroInv(full, Mounted())
  {
  }

  /**
   * A tick keeps the invariant; the text is complete exactly when the tick
   * count reaches its length, at `|full| * 84` ms for a non-empty text.
   */
  lemma TickKeepsInv(full: string, s: Intro)
    requires IntroInv(full, s) && s.timers.tick.Some? && Earliest(s.timers, s.timers.tick.value)
    ensures var r := Ticked(full, s);
            && IntroInv(full, r) && r.mounted == s.mounted && r.i == s.i + 1
            && (r.flags.typingDone <==> r.text == full)
            && (r.flags.typingDone && |full| > 0 ==> r.now == |full| * TypeMs)
  {
    var r := Ticked(full, s);
    TypedGrows(full, r.i, r.i);
    if r.flags.typingDone && |full| > 0 {
      ElapsedIsProduct(r.i, TypeMs);
    }
  }

  lemma HoldKeepsInv(full: string, s: Intro)
    requires IntroInv(full, s) && s.timers.hold.Some? && Earliest(s.timers, s.timers.hold.value)
    ensures var r := Held(s);
            IntroInv(full, r) && r.mounted == s.mounted && r.flags.fading && !r.flags.hidden
  {
  }

  lemma FadeKeepsInv(full: string, s: Intro)
    requires IntroInv(full, s) && s.timers.fade.Some? && Earliest(s.timers, s.timers.fade.value)
    ensures var r := Faded(s);
            IntroInv(full, r) && r.mounted == s.mounted && r.flags.hidden && !r.flags.showUI
  {
  }

  /** The box appears 3320 ms after the last character. */
  lemma ShowKeepsInv(full: string, s: Intro)
    requires IntroInv(full, s) && s.timers.show.Some? && Earliest(s.timers, s.timers.show.value)
    ensures var r := Shown(s);
            IntroInv(full, r) && r.mounted == s.mounted && r.flags.showUI
            && r.now == s.i * TypeMs + 3320
  {
    ElapsedIsProduct(s.i, TypeMs);
  }

  /** The text slides in only into a box already shown, 240 ms after it. */
  lemma TextInKeepsInv(full: string, s: Intro)
    requires IntroInv(full, s) && s.timers.textIn.Some? && Earliest(s.timers, s.timers.textIn.value)
    ensures var r := TextShown(s);
            IntroInv(full, r) && r.mounted == s.mounted && r.flags.showUI && r.flags.textIn
            && s.flags.showUI && r.now == ShowUiAt(s.i) + TextInAfter
  {
  }

  /** After the cleanup no timer is pending, so no stage changes; what is shown stays as it was. */
  lemma CleanupKeepsInv(full: string, s: Intro)
    requires IntroInv(full, s)
    ensures var r := CleanedUp(s);
            IntroInv(full, r) && NothingPending(r.timers) && r.flags == s.flags && r.text == s.text
  {
  }

  class RevealIntro {
    const screen: IntroScreen
    const full: string
    const player: Json
    var st: Intro

    ghost predicate Valid()
      reads this
    {
      full == IntroFull(screen) && IntroInv(full, st)
    }

    /**
     * Mount: the player resolved as on every screen, and the effect started.
     * A resolved player that is null does not render (see `IntroRenders`).
     */
    constructor (screen: IntroScreen, state: Option<Json>, cells: map<string, Cell>, enabled: bool)
      requires IntroRenders(Player.ResolvePlayer(state, cells, enabled))
      ensures this.screen == screen && player == Player.ResolvePlayer(state, cells, enabled)
      ensures st == Mounted() && Valid()
    {
      this.screen := screen;
      full := IntroFull(screen);
      player := Player.ResolvePlayer(state, cells, enabled);
      st := Mounted();
      MountedInv(IntroFull(screen));
    }

    method FireTick()
      requires Valid() && st.timers.tick.Some? && Earliest(st.timers, st.timers.tick.value)
      modifies this
      ensures Valid() && st == Ticked(full, old(st))
    {
      TickKeepsInv(full, st);
      st := Ticked(full, st);
    }

    method FireHold()
      requires Valid() && st.timers.hold.Some? && Earliest(st.timers, st.timers.hold.value)
      modifies this
      ensures Valid() && st == Held(old(st))
    {
      HoldKeepsInv(full, st);
      st := Held(st);
    }

    method FireFade()
      requires Valid() && st.timers.fade.Some? && Earliest(st.timers, st.timers.fade.value)
      modifies this
      ensures Valid() && st == Faded(old(st))
    {
      FadeKeepsInv(full, st);
      st := Faded(st);
    }

    method FireShowUi()
      requires Valid() && st.timers.show.Some? && Earliest(st.timers, st.timers.show.value)
      modifies this
      ensures Valid() && st == Shown(old(st))
    {
      ShowKeepsInv(full, st);
      st := Shown(st);
    }

    method FireTextIn()
      requires Valid() && st.timers.textIn.Some? && Earliest(st.timers, st.timers.textIn.value)
      modifies this
      ensures Valid() && st == TextShown(old(st))
    {
      TextInKeepsInv(full, st);
      st := TextShown(st);
    }

    /** The effect's cleanup, clearing the reveal timeouts one by one. */
    method Unmount()
      requires Valid()
      modifies this
      ensures Valid() && st == CleanedUp(old(st)) && NothingPending(st.timers)
    {
      var s := st;
      CleanupKeepsInv(full, s);
      var refs := s.handles.revealRefs;
      var show, textIn := s.timers.show, s.timers.textIn;
      for k := 0 to |refs|
        invariant show == (if ShowUiTimer in refs[..k] then None else s.timers.show)
        invariant textIn == (if TextInTimer in refs[..k] then None else s.timers.textIn)
      {
        assert refs[..k + 1] == refs[..k] + [refs[k]];
        match refs[k]
        case ShowUiTimer => show := None;
        case TextInTimer => textIn := None;
      }
      assert refs[..|refs|] == refs;
      var t := s.timers;
      st := s.(timers := Timers(if s.handles.typing then None else t.tick, if s.handles.hold then None else t.hold,
                                if s.handles.fade then None else t.fade, show, textIn),
               handles := s.handles.(revealRefs := []), mounted := false);
    }

    /** `handleStart`, on the button the revealed box shows: the task, with the same player. */
    function Start(): Player.Navigation
      reads this
    {
      Player.Navigation(StartRoute(screen), player)
    }
  }

  /**
   * The start button leads each intro to its own task, and the task screen it
   * mounts resolves the intro's player, whatever that screen's store holds,
   * whenever the intro's player has a name.
   */
  lemma StartForwardsPlayer(intro: RevealIntro, cells': map<string, Cell>, enabled': bool)
    requires Player.NamesPlayer(Some(intro.player))
    ensures Player.ResolvePlayer(Some(intro.Start().state), cells', enabled') == intro.player
    ensures intro.Start().route == StartRoute(Task2Intro) <==> intro.screen == Task2Intro
  {
    Player.ResolvePlayerCases(Some(intro.Start().state), cells', enabled');
  }

  const QuoteTypeMs: nat := 64
  const QuoteHoldMs: nat := 1300
  const QuoteFadeMs: nat := 650
  const InstructionsRoute: string := "/world-1/task-4-instructions"

  const Task4IntroText: string :=
    "DEMOCRACY LIVES OR DIES IN EVERYDAY CHOICES — IN\nSCHOOLS, WORKPLACES, ONLINE SPACES, AND LOCAL\nCOUNCILS."

  datatype QuoteTimers = QuoteTimers(tick: Option<nat>, hold: Option<nat>, fade: Option<nat>)

  datatype QuoteHandles = QuoteHandles(typing: bool, hold: bool, fade: bool)

  /** The Task 4 intro: `introText`, `typingDone`, `fading`, and the navigation once it happened. */
  datatype Quote = Quote(now: nat, i: nat, text: string, typingDone: bool, fading: bool,
                         navigation: Option<Player.Navigation>, timers: QuoteTimers, handles: QuoteHandles, mounted: bool)

  predicate QuoteEarliest(t: QuoteTimers, d: nat)
  {
    (t.tick.Some? ==> d <= t.tick.value) && (t.hold.Some? ==> d <= t.hold.value) && (t.fade.Some? ==> d <= t.fade.value)
  }

  function QuoteClock(q: Quote): nat
  {
    if q.navigation.Some? then Elapsed(q.i, QuoteTypeMs) + QuoteHoldMs + QuoteFadeMs
    else if q.fading then Elapsed(q.i, QuoteTypeMs) + QuoteHoldMs
    else Elapsed(q.i, QuoteTypeMs)
  }

  predicate QuoteInv(full: string, player: Json, q: Quote)
  {
    var t, h := q.timers, q.handles;
    && (q.i <= |full| || q.i == 1) && q.text == Typed(full, q.i)
    && (q.typingDone <==> q.i > 0 && q.i >= |full|)
    && (q.fading ==> q.typingDone)
    && (q.navigation.Some? ==> q.fading && q.navigation.value == Player.Navigation(InstructionsRoute, player))
    && q.now == QuoteClock(q)
    && (t.tick.Some? ==> !q.typingDone && t.tick.value == Elapsed(q.i + 1, QuoteTypeMs) && h.typing)
    && (t.hold.Some? ==> q.typingDone && !q.fading && t.hold.value == Elapsed(q.i, QuoteTypeMs) + QuoteHoldMs && h.hold)
    && (t.fade.Some? ==> q.fading && q.navigation.None? && t.fade.value == Elapsed(q.i, QuoteTypeMs) + QuoteHoldMs + QuoteFadeMs && h.fade)
    && (q.mounted && !q.typingDone ==> t.tick.Some?)
    && (q.mounted && q.typingDone && !q.fading ==> t.hold.Some?)
    && (q.mounted && q.fading && q.navigation.None? ==> t.fade.Some?)
    && (!q.mounted ==> t.tick.None? && t.hold.None? && t.fade.None?)
  }

  function QuoteMounted(): Quote
  {
    Quote(0, 0, "", false, false, None, QuoteTimers(Some(QuoteTypeMs), None, None), QuoteHandles(true, false, false), true)
  }

  function QuoteTicked(full: string, q: Quote): Quote
    requires q.timers.tick.Some?
  {
    var now, i := q.timers.tick.value, q.i + 1;
    if i >= |full| then
      q.(now := now, i := i, text := Typed(full, i), typingDone := true,
         timers := q.timers.(tick := None, hold := Some(now + QuoteHoldMs)), handles := q.handles.(typing := false, hold := true))
    else
      q.(now := now, i := i, text := Typed(full, i), timers := q.timers.(tick := Some(now + QuoteTypeMs)))
  }

  function QuoteHeld(q: Quote): Quote
    requires q.timers.hold.Some?
  {
    var now := q.timers.hold.value;
    q.(now := now, fading := true, timers := q.timers.(hold := None, fade := Some(now + QuoteFadeMs)), handles := q.handles.(fade := true))
  }

  /** After the fade: navigate to the instructions, forwarding the player. */
  function QuoteFaded(q: Quote, player: Json): Quote
    requires q.timers.fade.Some?
  {
    q.(now := q.timers.fade.value, navigation := Some(Player.Navigation(InstructionsRoute, player)), timers := q.timers.(fade := None))
  }

  /** The cleanup cancels the interval and the hold and fade timeouts it holds handles to. */
  function QuoteCleanedUp(q: Quote): Quote
  {
    var t, h := q.timers, q.handles;
    q.(timers := QuoteTimers(if h.typing then None else t.tick, if h.hold then None else t.hold, if h.fade then None else t.fade),
       mounted := false)
  }

  lemma QuoteMountedInv(full: string, player: Json)
    ensures QuoteInv(full, player, QuoteMounted())
  {
  }

  lemma QuoteTickKeepsInv(full: string, player: Json, q: Quote)
    requires QuoteInv(full, player, q) && q.timers.tick.Some? && QuoteEarliest(q.timers, q.timers.tick.value)
    ensures var r := QuoteTicked(full, q);
            && QuoteInv(full, player, r) && r.mounted == q.mounted && r.i == q.i + 1 && r.navigation.None?
            && (r.typingDone <==> r.text == full)
            && (r.typingDone && |full| > 0 ==> r.now == |full| * QuoteTypeMs)
  {
    var r := QuoteTicked(full, q);
    TypedGrows(full, r.i, r.i);
    if r.typingDone && |full| > 0 {
      ElapsedIsProduct(r.i, QuoteTypeMs);
    }
  }

  lemma QuoteHoldKeepsInv(full: string, player: Json, q: Quote)
    requires QuoteInv(full, player, q) && q.timers.hold.Some? && QuoteEarliest(q.timers, q.timers.hold.value)
    ensures var r := QuoteHeld(q);
            QuoteInv(full, player, r) && r.mounted == q.mounted && r.fading && r.navigation.None?
  {
  }

  /** The navigation happens once, 1950 ms after the last character, and carries the player. */
  lemma QuoteFadeKeepsInv(full: string, player: Json, q: Quote)
    requires QuoteInv(full, player, q) && q.timers.fade.Some? && QuoteEarliest(q.timers, q.timers.fade.value)
    ensures var r := QuoteFaded(q, player);
            && QuoteInv(full, player, r) && r.mounted && q.navigation.None?
            && r.navigation == Some(Player.Navigation(InstructionsRoute, player))
            && r.now == q.i * QuoteTypeMs + 1950
  {
    ElapsedIsProduct(q.i, QuoteTypeMs);
  }

  /** After the cleanup nothing is pending: no navigation after unmount. */
  lemma QuoteCleanupKeepsInv(full: string, player: Json, q: Quote)
    requires QuoteInv(full, player, q)
    ensures var r := QuoteCleanedUp(q);
            && QuoteInv(full, player, r) && r.timers == QuoteTimers(None, None, None)
            && r.navigation == q.navigation && r.text == q.text
  {
  }

  /** The Task 4 intro screen. */
  class QuoteIntro {
    const full: string
    const player: Json
    var st: Quote

    ghost predicate Valid()
      reads this
    {
      full == Task4IntroText && QuoteInv(full, player, st)
    }

    constructor (state: Option<Json>, cells: map<string, Cell>, enabled: bool)
      ensures player == Player.ResolvePlayer(state, cells, enabled)
      ensures st == QuoteMounted() && Valid()
    {
      full := Task4IntroText;
      player := Player.ResolvePlayer(state, cells, enabled);
      st := QuoteMounted();
      QuoteMountedInv(Task4IntroText, Player.ResolvePlayer(state, cells, enabled));
    }

    method FireTick()
      requires Valid() && st.timers.tick.Some? && QuoteEarliest(st.timers, st.timers.tick.value)
      modifies this
      ensures Valid() && st == QuoteTicked(full, old(st))
    {
      QuoteTickKeepsInv(full, player, st);
      st := QuoteTicked(full, st);
    }

    method FireHold()
      requires Valid() && st.timers.hold.Some? && QuoteEarliest(st.timers, st.timers.hold.value)
      modifies this
      ensures Valid() && st == QuoteHeld(old(st))
    {
      QuoteHoldKeepsInv(full, player, st);
      st := QuoteHeld(st);
    }

    method FireFade()
      requires Valid() && st.timers.fade.Some? && QuoteEarliest(st.timers, st.timers.fade.value)
      modifies this
      ensures Valid() && st == QuoteFaded(old(st), player)
    {
      QuoteFadeKeepsInv(full, player, st);
      st := QuoteFaded(st, player);
    }

    method Unmount()
      requires Valid()
      modifies this
      ensures Valid() && st == QuoteCleanedUp(old(st))
    {
      QuoteCleanupKeepsInv(full, player, st);
      st := QuoteCleanedUp(st);
    }
  }
}
