/**
 * The reward feedback both task screens share: a "correct" flash that one
 * timer ends (a new flash replaces the old timer), and a "+delta" token that
 * flies from the card to the scoreboard, lands, and makes the scoreboard pulse.
 * Only the ids of the flying tokens are kept; their coordinates are not modelled.
 */
module Feedback {

  datatype Effects = Effects(flyItems: seq<nat>, nextFlyId: nat, pulsePoints: bool, correctFlash: bool, flashPending: bool)

  /** The effects as a screen mounts: nothing flying, `flyIdRef` at 1. */
  const NoEffects: Effects := Effects([], 1, false, false, false)

  /** Every flying token has its own id, and every id is below the next one handed out. */
  predicate FlyOk(fx: Effects)
  {
    && (forall i, j :: 0 <= i < j < |fx.flyItems| ==> fx.flyItems[i] != fx.flyItems[j])
    && (forall x :: x in fx.flyItems ==> x < fx.nextFlyId)
  }

  /** `showCorrectFlash`: the flash is on and exactly one timer will end it. */
  function Flashed(fx: Effects): Effects
  {
    fx.(correctFlash := true, flashPending := true)
  }

  /** The flash timer fires. */
  function FlashEnded(fx: Effects): Effects
  {
    fx.(correctFlash := false, flashPending := false)
  }

  /**
   * `makeFly`: when both the card and the scoreboard are on screen
   * (`anchors`), a token with a fresh id starts flying; otherwise nothing happens.
   */
  function Launched(fx: Effects, anchors: bool): Effects
  {
    if anchors then fx.(flyItems := fx.flyItems + [fx.nextFlyId], nextFlyId := fx.nextFlyId + 1) else fx
  }

  /** A token lands after 820 ms: it leaves the list and the scoreboard pulses. */
  function Landed(fx: Effects, id: nat): Effects
  {
    fx.(flyItems := RemoveId(fx.flyItems, id), pulsePoints := true)
  }

  /** The pulse ends after 420 ms. */
  function PulseEnded(fx: Effects): Effects
  {
    fx.(pulsePoints := false)
  }

  /** `arr.filter((x) => x.id !== id)` */
  function RemoveId(items: seq<nat>, id: nat): (r: seq<nat>)
    ensures |r| <= |items|
    ensures forall x :: x in r <==> x in items && x != id
  {
    if items == [] then []
    else if items[0] == id then RemoveId(items[1..], id)
    else [items[0]] + RemoveId(items[1..], id)
  }

  /** Filtering keeps distinct ids distinct, and removes a present id exactly once. */
  lemma {:induction false} RemoveIdDistinct(items: seq<nat>, id: nat)
    requires forall i, j :: 0 <= i < j < |items| ==> items[i] != items[j]
    ensures var r := RemoveId(items, id);
            && (forall i, j :: 0 <= i < j < |r| ==> r[i] != r[j])
            && (id in items ==> |r| == |items| - 1)
            && (id !in items ==> r == items)
  {
    if items != [] {
      var tail := items[1..];
      assert forall i, j :: 0 <= i < j < |tail| ==> tail[i] != tail[j] by {
        forall i, j | 0 <= i < j < |tail| ensures tail[i] != tail[j] {
          assert tail[i] == items[i + 1] && tail[j] == items[j + 1];
        }
      }
      RemoveIdDistinct(tail, id);
      var rt := RemoveId(tail, id);
      if items[0] == id {
        assert id !in tail by {
          forall k | 0 <= k < |tail| ensures tail[k] != id {
            assert tail[k] == items[k + 1];
          }
        }
      } else {
        var r := [items[0]] + rt;
        assert items[0] !in rt by {
          forall k | 0 <= k < |tail| ensures tail[k] != items[0] {
            assert tail[k] == items[k + 1];
          }
        }
        forall i, j | 0 <= i < j < |r| ensures r[i] != r[j] {
          if i == 0 {
            assert r[j] == rt[j - 1];
          } else {
            assert r[i] == rt[i - 1] && r[j] == rt[j - 1];
          }
        }
        assert items == [items[0]] + tail;
      }
    }
  }

  /** A launch hands out a fresh id, so the tokens in flight keep distinct ids. */
  lemma LaunchedOk(fx: Effects, anchors: bool)
    requires FlyOk(fx)
    ensures FlyOk(Launched(fx, anchors))
    ensures anchors ==> fx.nextFlyId !in fx.flyItems && fx.nextFlyId in Launched(fx, anchors).flyItems
  {
    if anchors {
      var items := fx.flyItems + [fx.nextFlyId];
      forall i, j | 0 <= i < j < |items| ensures items[i] != items[j] {
        if j == |items| - 1 {
          assert items[i] in fx.flyItems;
        }
      }
    }
  }

  /** A landing removes exactly the landed token. */
  lemma LandedOk(fx: Effects, id: nat)
    requires FlyOk(fx)
    ensures FlyOk(Landed(fx, id))
    ensures id !in Landed(fx, id).flyItems
    ensures id in fx.flyItems ==> |Landed(fx, id).flyItems| == |fx.flyItems| - 1
  {
    RemoveIdDistinct(fx.flyItems, id);
  }
}
