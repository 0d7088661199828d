/**
 * The installation and maintenance offer numbers of src/app.jsx: each new
 * offer is referenced "FV-" followed by a time stamp in milliseconds. The
 * last stamp handed out is kept in the browser storage, and a clock reading
 * no later than it is replaced by the last stamp plus one, so the stamps
 * handed out strictly increase even when the clock stands still or goes
 * back.
 */
module OfferRef {
  import opened Wrappers
  import opened JsNumbers
  import opened JsValues

  /** `Number(localStorage.getItem(key) || '0')`: nothing stored (`null`) and
    * the empty string both read as `'0'`. */
  function LastStamp(stored: Option<string>): Num {
    var item := if stored.Some? then Some(JStr(stored.value)) else Some(JNull);
    ToNumber(OrElse(item, Some(JStr("0"))))
  }

  /** `if (now <= last) now = last + 1`: a comparison with NaN is false, so an
    * unreadable stored value leaves the clock reading as it is. */
  function NextStamp(last: Num, now: int): real {
    if last.Fin? && now as real <= last.r then last.r + 1.0 else now as real
  }

  /** `` `FV-${now}` `` */
  function RefOf(stamp: real): string {
    "FV-" + RealToString(stamp)
  }

  /** The stored counter: the storage slot it reads and writes. */
  class OfferCounter {
    var stored: Option<string>

    constructor(slot: Option<string>)
      ensures stored == slot
    {
      stored := slot;
    }

    /** `nextOfferRef()` with the clock reading `now` (`Date.now()`). */
    method Next(now: int) returns (ref: string)
      modifies this
      ensures stored == Some(RealToString(NextStamp(LastStamp(old(stored)), now)))
      ensures ref == RefOf(NextStamp(LastStamp(old(stored)), now))
    {
      var last := LastStamp(stored);
      var stamp := now as real;
      if last.Fin? && stamp <= last.r {
        stamp := last.r + 1.0;
      }
      stored := Some(RealToString(stamp));
      ref := "FV-" + RealToString(stamp);
    }
  }

  /** The stamp is never earlier than the clock, and always later than a
    * readable stored stamp; it is the clock reading itself exactly when
    * nothing readable at or after it is stored. */
  lemma {:induction false} StampAfter(last: Num, now: int)
    ensures NextStamp(last, now) >= now as real
    ensures last.Fin? ==> NextStamp(last, now) > last.r
    ensures NextStamp(last, now) == now as real <==> !(last.Fin? && now as real <= last.r)
  {
    if last.Fin? && now as real <= last.r {
      assert NextStamp(last, now) == last.r + 1.0;
    }
  }

  /** An empty slot reads as the stamp 0, so the first reference is the
    * clock reading whenever the clock is past 0. */
  lemma {:induction false} EmptySlotReadsZero(stored: Option<string>)
    requires stored.None? || stored == Some("")
    ensures LastStamp(stored) == Fin(0.0)
  {
    var item := if stored.Some? then Some(JStr(stored.value)) else Some(JNull);
    assert !Truthy(item);
    ZeroReads();
  }

  lemma ZeroReads()
    ensures StringToNumber("0") == Fin(0.0)
  {
    ZeroPrints();
    NumberToStringRoundTrip(0.0);
  }

  /** A stamp written to the slot reads back as itself. */
  lemma {:induction false} StoredStampReads(stamp: real)
    requires Representable(stamp)
    ensures LastStamp(Some(RealToString(stamp))) == Fin(stamp)
  {
    NumberToStringRoundTrip(stamp);
    var s := RealToString(stamp);
    if stamp < 0.0 {
      assert s[0] == '-';
    } else {
      assert |NatToString(stamp.Floor)| >= 1;
    }
    assert s != "";
    assert OrElse(Some(JStr(s)), Some(JStr("0"))) == Some(JStr(s));
  }

  /** Whole clock readings over a whole (or unreadable, or missing) stored
    * stamp give a whole stamp, which prints and reads back exactly. */
  lemma {:induction false} WholeStamp(last: Num, now: int)
    requires last.Fin? ==> IsInt(last.r)
    ensures IsInt(NextStamp(last, now))
    ensures Representable(NextStamp(last, now))
  {
    var s := NextStamp(last, now);
    if last.Fin? && now as real <= last.r {
      assert s == (last.r.Floor + 1) as real;
      IntegersRepresentable(last.r.Floor + 1);
    } else {
      IntegersRepresentable(now);
    }
  }

  /** Two offers numbered one after the other get strictly increasing
    * stamps, whatever the second clock reading is. */
  lemma {:induction false} SuccessiveStampsIncrease(stored: Option<string>, now1: int, now2: int)
    requires LastStamp(stored).Fin? ==> IsInt(LastStamp(stored).r)
    ensures NextStamp(LastStamp(Some(RealToString(NextStamp(LastStamp(stored), now1)))), now2)
            > NextStamp(LastStamp(stored), now1)
  {
    var s1 := NextStamp(LastStamp(stored), now1);
    WholeStamp(LastStamp(stored), now1);
    StoredStampReads(s1);
    StampAfter(Fin(s1), now2);
  }

  /** Different stamps give different references. */
  lemma {:induction false} RefsDistinct(s1: real, s2: real)
    requires Representable(s1) && Representable(s2) && s1 != s2
    ensures RefOf(s1) != RefOf(s2)
  {
    NumberToStringRoundTrip(s1);
    NumberToStringRoundTrip(s2);
    assert RefOf(s1)[3..] == RealToString(s1);
    assert RefOf(s2)[3..] == RealToString(s2);
  }

  /** Numbering twice in a row on the same counter gives two different
    * references, the second with the larger stamp. */
  method NextTwice(c: OfferCounter, now1: int, now2: int) returns (r1: string, r2: string)
    requires LastStamp(c.stored).Fin? ==> IsInt(LastStamp(c.stored).r)
    modifies c
    ensures r1 != r2
    ensures c.stored.Some? && LastStamp(c.stored).Fin? && IsInt(LastStamp(c.stored).r)
  {
    var last := LastStamp(c.stored);
    r1 := c.Next(now1);
    var s1 := NextStamp(last, now1);
    WholeStamp(last, now1);
    StoredStampReads(s1);
    r2 := c.Next(now2);
    var s2 := NextStamp(Fin(s1), now2);
    SuccessiveStampsIncrease(old(c.stored), now1, now2);
    WholeStamp(Fin(s1), now2);
    RefsDistinct(s1, s2);
    StoredStampReads(s2);
  }
}
