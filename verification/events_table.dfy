/**
 * The events table that the three event writers put into, and the two formats they share:
 * the `ttl` attribute `~~(timestamp / 1000 + seconds)` and the sort key `${eventType}#${timestamp}`.
 */
module EventsTable {
  import opened Text

  /** Seconds the order and product event records live; invoice events live an hour. */
  const FiveMinutes: nat := 5 * 60
  const OneHour: nat := 60 * 60

  /**
   * `~~(timestampMs / 1000 + seconds)`: the epoch second at which the record expires.
   * For a non-negative timestamp the truncation of `~~` is the floor, so the result is
   * the whole second containing `timestampMs`, moved `seconds` ahead.
   */
  function ExpiresAt(timestampMs: nat, seconds: nat): (ttl: nat)
    ensures ttl >= seconds
    ensures (ttl - seconds) * 1000 <= timestampMs < (ttl - seconds + 1) * 1000
  {
    timestampMs / 1000 + seconds
  }

  /** `${eventType}#${timestamp}` */
  function EventSk(eventType: string, timestampMs: nat): string {
    eventType + "#" + NatToString(timestampMs)
  }

  /** The sort key can be split back into the event type and the timestamp. */
  lemma EventSkParts(eventType: string, timestampMs: nat)
    requires '#' !in eventType
    ensures Split(EventSk(eventType, timestampMs), '#') == [eventType, NatToString(timestampMs)]
  {
    var digits := NatToString(timestampMs);
    SplitAfterSegment(eventType, '#', digits);
    assert forall i :: 0 <= i < |digits| ==> digits[i] != '#' by {
      forall i | 0 <= i < |digits| ensures digits[i] != '#' {
        assert IsDigit(digits[i]);
      }
    }
    SplitWithoutSeparator(digits, '#');
  }

  /** Two events of one type written at different milliseconds never share a sort key. */
  lemma EventSkInjective(eventType: string, t1: nat, t2: nat)
    requires EventSk(eventType, t1) == EventSk(eventType, t2)
    ensures t1 == t2
  {
    var p := eventType + "#";
    assert EventSk(eventType, t1)[|p|..] == NatToString(t1);
    assert EventSk(eventType, t2)[|p|..] == NatToString(t2);
    NatToStringInjective(t1, t2);
  }

  /**
   * A write-only table: every `put` is appended to `items`. Nothing in the model reads
   * the events back, so the order of the puts is all that is kept.
   */
  class PutLog<T> {
    var items: seq<T>

    constructor(initial: seq<T>)
      ensures items == initial
    {
      items := initial;
    }

    method Put(item: T)
      modifies this
      ensures items == old(items) + [item]
    {
      items := items + [item];
    }
  }
}
