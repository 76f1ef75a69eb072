/**
 * The two conversions every response mapper shares: `parseExpiresAt`, which
 * turns `int|\DateTimeInterface` into epoch seconds, and
 * `mapSubscribeOption`, which turns a payload `Override` into the wire
 * `SubscribeOptionOverride`. Connect, Subscribe and their flat-layout
 * copies carry identical bodies of both.
 */
module SubscribeOptions {
  import opened Wrappers
  import opened Payload
  import Dto = ProxyDto

  /** `parseExpiresAt`: a date/time becomes its timestamp, seconds stay. */
  function ParseExpiresAt(e: ExpireAt): (seconds: int)
    ensures e.AtSeconds? ==> seconds == e.seconds
    ensures e.AtDateTime? ==> seconds == e.at.timestamp
  {
    match e
    case AtDateTime(d) => d.timestamp
    case AtSeconds(n) => n
  }

  /**
   * The wire `expire_at` of an optional expiry: unset (0) for null,
   * otherwise the parsed seconds.
   */
  function ExpireSeconds(e: Option<ExpireAt>): (seconds: int)
    ensures e.None? ==> seconds == 0
    ensures e.Some? ==> seconds == ParseExpiresAt(e.value)
  {
    if e.Some? then ParseExpiresAt(e.value) else 0
  }

  /** Two spellings of one instant give the same wire value. */
  lemma ParseExpiresAtInstant(d: DateTime, n: int)
    requires d.timestamp == n
    ensures ParseExpiresAt(AtDateTime(d)) == ParseExpiresAt(AtSeconds(n))
  {
  }

  /** `new DTO\BoolValue(['value' => $v])` for a set flag; null leaves the field unset. */
  function Wrap(b: Option<bool>): (w: Option<Dto.BoolValue>)
    ensures w.Some? <==> b.Some?
    ensures w.Some? ==> w.value.value == b.value
  {
    match b
    case None => None
    case Some(v) => Some(Dto.BoolValue(v))
  }

  /** Reading a wire wrapper back: an unset field is null. */
  function Unwrap(w: Option<Dto.BoolValue>): Option<bool> {
    match w
    case None => None
    case Some(v) => Some(v.value)
  }

  /** The payload override a wire override stands for. */
  function OverrideOf(o: Dto.SubscribeOptionOverride): Override {
    Override(Unwrap(o.presence), Unwrap(o.joinLeave), Unwrap(o.forcePushJoinLeave),
             Unwrap(o.forcePositioning), Unwrap(o.forceRecovery))
  }

  /**
   * `mapSubscribeOption`: each of the five flags independently keeps its
   * tri-state, null becoming an unset field and true/false a wrapped value;
   * reading the result back gives the override unchanged.
   */
  function MapSubscribeOption(o: Override): (w: Dto.SubscribeOptionOverride)
    ensures OverrideOf(w) == o
    ensures w.presence.Some? <==> o.presence.Some?
    ensures w.joinLeave.Some? <==> o.joinLeave.Some?
    ensures w.forcePushJoinLeave.Some? <==> o.forcePushJoinLeave.Some?
    ensures w.forcePositioning.Some? <==> o.forcePositioning.Some?
    ensures w.forceRecovery.Some? <==> o.forceRecovery.Some?
  {
    Dto.SubscribeOptionOverride(
      presence := Wrap(o.presence),
      joinLeave := Wrap(o.joinLeave),
      forceRecovery := Wrap(o.forceRecovery),
      forcePositioning := Wrap(o.forcePositioning),
      forcePushJoinLeave := Wrap(o.forcePushJoinLeave))
  }

  /**
   * Conversely every wire override is the image of exactly one payload
   * override: the mapping is a bijection, so no two overrides collide.
   */
  lemma MapSubscribeOptionBijective(w: Dto.SubscribeOptionOverride, o1: Override, o2: Override)
    ensures MapSubscribeOption(OverrideOf(w)) == w
    ensures MapSubscribeOption(o1) == MapSubscribeOption(o2) ==> o1 == o2
  {
    assert MapSubscribeOption(o1) == MapSubscribeOption(o2) ==> OverrideOf(MapSubscribeOption(o1)) == OverrideOf(MapSubscribeOption(o2));
  }
}
