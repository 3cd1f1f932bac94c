/**
 * The World 1 task selector: who the player is, what the ledger shows, and
 * where each task button leads.  Everything here is a total function of the
 * navigation state and the store; nothing throws.
 */
module Player {
  import opened Storage
  import Ledger

  /** `{ name: "Player", character: "female" }` */
  const DefaultPlayer: Json := JObj(map["name" := JStr("Player"), "character" := JStr("female")])

  /** `location.state && location.state.name`: a navigation state that names the player. */
  predicate NamesPlayer(state: Option<Json>)
  {
    state.Some? && Truthy(state.value) && Field(state.value, "name").Some? && Truthy(Field(state.value, "name").value)
  }

  /**
   * The player every screen resolves: the navigation state when it names a
   * player, else the parsed `yd_player`, else the default.  A stored text that
   * parses is used as it is, even when it parses to a falsy value.
   */
  function ResolvePlayer(state: Option<Json>, cells: map<string, Cell>, enabled: bool): (p: Json)
  {
    if NamesPlayer(state) then state.value
    else if enabled && "yd_player" in cells && cells["yd_player"].Parsed? then cells["yd_player"].value
    else DefaultPlayer
  }

  /** The three ways a player is found, and nothing else. */
  lemma ResolvePlayerCases(state: Option<Json>, cells: map<string, Cell>, enabled: bool)
    ensures NamesPlayer(state) ==> ResolvePlayer(state, cells, enabled) == state.value
    ensures NamesPlayer(state) || !(enabled && "yd_player" in cells && cells["yd_player"].Parsed?) ==>
              NamesPlayer(Some(ResolvePlayer(state, cells, enabled)))
    ensures !NamesPlayer(state) && (!enabled || "yd_player" !in cells || cells["yd_player"] == Unparsable) ==>
              ResolvePlayer(state, cells, enabled) == DefaultPlayer
    ensures (state.Some? && ResolvePlayer(state, cells, enabled) == state.value) ||
            ResolvePlayer(state, cells, enabled) == DefaultPlayer ||
            (enabled && "yd_player" in cells && cells["yd_player"] == Parsed(ResolvePlayer(state, cells, enabled)))
  {
  }

  /**
   * Identity carries across screens: a resolved player that has a name, once
   * forwarded as navigation state, resolves to itself on the next screen
   * whatever the store holds there.  A player read from `yd_player` without a
   * name is not stable: the next screen falls back to its own store.
   */
  lemma ForwardedPlayerIsStable(state: Option<Json>, cells: map<string, Cell>, enabled: bool,
                                cells': map<string, Cell>, enabled': bool)
    requires NamesPlayer(Some(ResolvePlayer(state, cells, enabled)))
    ensures ResolvePlayer(Some(ResolvePlayer(state, cells, enabled)), cells', enabled') == ResolvePlayer(state, cells, enabled)
  {
  }

  /** What the selector shows from `yd_scores`. */
  datatype ScoresView = ScoresView(totalPoints: Json, totalCuriosityPoints: Json, badges: seq<Json>)

  /**
   * `scores = safeRead("yd_scores") || {}`; a missing or falsy total reads 0,
   * and `badges` that is not an array reads as the empty list.
   */
  function SelectorScores(cells: map<string, Cell>, enabled: bool): (v: ScoresView)
  {
    var scores := OrElse(Some(SafeRead(cells, enabled, Ledger.ScoresKey)), JObj(map[]));
    ScoresView(
      OrElse(Field(scores, "totalPoints"), JNum(0.0)),
      OrElse(Field(scores, "totalCuriosityPoints"), JNum(0.0)),
      match Field(scores, "badges") case Some(JArr(items)) => items case _ => [])
  }

  /** An empty, unreadable or disabled store shows zero totals and no badges. */
  lemma SelectorScoresDefaults(cells: map<string, Cell>, enabled: bool)
    requires !enabled || Ledger.ScoresKey !in cells || cells[Ledger.ScoresKey] == Unparsable
    ensures SelectorScores(cells, enabled) == ScoresView(JNum(0.0), JNum(0.0), [])
  {
  }

  /**
   * The selector shows what the ledger wrote: after a first commit into a store
   * without an aggregate, the totals are the task's own and the badges are its own.
   */
  lemma SelectorShowsFirstCommit(cells: map<string, Cell>, k: Ledger.TaskKeys, r: Ledger.TaskResult)
    requires Ledger.KeysDistinct(k)
    requires Ledger.ScoresKey !in cells && !Ledger.Counted(cells, true, k)
    ensures SelectorScores(Ledger.Commit(cells, true, k, r), true) ==
            ScoresView(JNum(r.points), JNum(r.curiosity), Ledger.BadgesJson(r.badges))
  {
    Ledger.CommitMergesUnlessCounted(cells, true, k, r);
    assert Ledger.PrevScores(cells, true) == Ledger.EmptyScores;
  }

  /** `resolveBadgeSrc`: a badge may be stored as its image path or as `{ src }`. */
  function ResolveBadgeSrc(b: Json): string
  {
    if !Truthy(b) then ""
    else if b.JStr? then b.s
    else match Field(b, "src")
      case Some(JStr(src)) => src
      case _ => ""
  }

  /** Every badge the ledger stores resolves to its own image; a malformed entry to "". */
  lemma ResolveBadgeSrcOfLedger(b: Ledger.Badge, v: Json)
    ensures ResolveBadgeSrc(Ledger.BadgeJson(b)) == b.src
    ensures ResolveBadgeSrc(JStr(b.src)) == b.src
    ensures (v.JNull? || v.JNum? || v.JBool? || v.JArr?) ==> ResolveBadgeSrc(v) == ""
  {
    assert Field(Ledger.BadgeJson(b), "src") == Some(JStr(b.src));
  }

  /**
   * The selector shows each badge the ledger stored as that badge's own image:
   * the stored list has one entry per badge, in order, whose id and resolved
   * src are the badge's.
   */
  lemma StoredBadgesResolve(bs: seq<Ledger.Badge>)
    ensures |Ledger.BadgesJson(bs)| == |bs|
    ensures forall k :: 0 <= k < |bs| ==>
              && ResolveBadgeSrc(Ledger.BadgesJson(bs)[k]) == bs[k].src
              && Field(Ledger.BadgesJson(bs)[k], "id") == Some(JStr(bs[k].id))
  {
    forall k | 0 <= k < |bs|
      ensures ResolveBadgeSrc(Ledger.BadgesJson(bs)[k]) == bs[k].src
      ensures Field(Ledger.BadgesJson(bs)[k], "id") == Some(JStr(bs[k].id))
    {
      ResolveBadgeSrcOfLedger(bs[k], JNull);
      assert Field(Ledger.BadgeJson(bs[k]), "id") == Some(JStr(bs[k].id));
    }
  }

  datatype CharacterImage = MaleImage | FemaleImage

  /** `player?.character === "male" ? male.png : female.png` */
  function CharacterSrc(player: Json): (c: CharacterImage)
  {
    if Field(player, "character") == Some(JStr("male")) then MaleImage else FemaleImage
  }

  /** The male image exactly for a player whose character is "male"; the default player is female. */
  lemma CharacterSrcCases(player: Json, name: string, ch: string)
    ensures CharacterSrc(JObj(map["name" := JStr(name), "character" := JStr(ch)])) == MaleImage <==> ch == "male"
    ensures CharacterSrc(DefaultPlayer) == FemaleImage
    ensures !player.JObj? ==> CharacterSrc(player) == FemaleImage
  {
    assert Field(DefaultPlayer, "character") == Some(JStr("female"));
  }

  /** `navigate(path, { state: player })` */
  datatype Navigation = Navigation(route: string, state: Json)

  /** The four task buttons, each leading to its task's intro route. */
  function HandleTask(task: nat, player: Json): (n: Navigation)
    requires 1 <= task <= 4
  {
    Navigation(
      match task
      case 1 => "/world-1/task-1-intro"
      case 2 => "/world-1/task-2-intro"
      case 3 => "/world-1/task-3-intro"
      case _ => "/world-1/task-4-intro",
      player)
  }

  /** Each task button has its own route and forwards the player unchanged. */
  lemma HandleTaskRoutes(t1: nat, t2: nat, player: Json)
    requires 1 <= t1 <= 4 && 1 <= t2 <= 4
    ensures HandleTask(t1, player).state == player
    ensures HandleTask(t1, player).route == HandleTask(t2, player).route <==> t1 == t2
  {
  }
}
