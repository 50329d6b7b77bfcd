/**
 * The pieces of the `custom-card-helpers` library and of JavaScript's
 * string built-ins that the card relies on but does not define. Each is
 * written as the library behaves, which is an assumption of this model.
 */
module Helpers {
  import opened Wrappers
  import opened Types

  /** `s.indexOf(c)`: the first position of `c` in `s`, or -1. */
  function IndexOf(s: string, c: char): (i: int)
    ensures -1 <= i < |s|
    ensures 0 <= i ==> s[i] == c && c !in s[..i]
    ensures i == -1 <==> c !in s
  {
    if s == [] then -1
    else if s[0] == c then 0
    else
      var j := IndexOf(s[1..], c);
      assert s[1..][..if j < 0 then 0 else j] == s[1..if j < 0 then 1 else j + 1];
      if j < 0 then -1 else j + 1
  }

  /**
   * `computeDomain(entityId)`, which is `entityId.substr(0, entityId.indexOf("."))`:
   * the text before the first '.', and "" when there is none (a negative
   * length makes `substr` return the empty string).
   */
  function ComputeDomain(entityId: string): (d: string)
    ensures '.' !in d
    ensures '.' !in entityId ==> d == ""
    ensures '.' in entityId ==> |d| < |entityId| && entityId[|d|] == '.' && entityId[..|d|] == d
  {
    var i := IndexOf(entityId, '.');
    if i < 0 then "" else entityId[..i]
  }

  /** The domain of `domain + "." + objectId` is `domain` whenever `domain` holds no '.'. */
  lemma {:induction false} DomainOfJoined(domain: string, objectId: string)
    requires '.' !in domain
    ensures ComputeDomain(domain + "." + objectId) == domain
  {
    var e := domain + "." + objectId;
    assert e[|domain|] == '.';
  }

  /**
   * The configuration key `handleAction` reads for a gesture: `tap_action`,
   * `hold_action` or `double_tap_action`.
   */
  function GestureKey(g: Gesture): (k: string)
    ensures k in {"tap_action", "hold_action", "double_tap_action"}
  {
    match g
    case Tap => "tap_action"
    case Hold => "hold_action"
    case DoubleTap => "double_tap_action"
  }

  /** The action a handler configuration binds to a gesture. */
  function BoundAction(handlerConfig: Config, g: Gesture): Option<ActionConfig>
  {
    ActionOf(handlerConfig, GestureKey(g))
  }
}
