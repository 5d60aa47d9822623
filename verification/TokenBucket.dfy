/** The token bucket both HTTP clients limit themselves with, over real numbers. */
module TokenBucket {

  /** A monotone clock. Reading it may take time, and sleeping may take longer than asked. */
  class Clock {
    var now: real

    constructor ()
      ensures now == 0.0
    {
      now := 0.0;
    }

    method Read() returns (t: real)
      modifies this
      ensures old(now) <= now == t
    {
      var passed: real :| 0.0 <= passed;
      now := now + passed;
      t := now;
    }

    method Sleep(asked: real)
      requires asked >= 0.0
      modifies this
      ensures now >= old(now) + asked
    {
      var late: real :| 0.0 <= late;
      now := now + asked + late;
    }
  }

  function Capacity(rate: real): real {
    if rate > 1.0 then rate else 1.0
  }

  /** What comes in over a span of time. */
  function Income(span: real, rate: real): real {
    span * rate
  }

  /** What a bucket holds after so much has come in. */
  function Refilled(capacity: real, tokens: real, earned: real): real {
    if capacity < tokens + earned then capacity else tokens + earned
  }

  /** One look into the bucket: when, what had come in, how many tokens were found, and how many were left behind. */
  datatype Visit = Visit(at: real, earned: real, found: real, left: real) {
    predicate Granted() {
      found >= 1.0
    }
  }

  function Left(visits: seq<Visit>, capacity: real): real {
    if visits == [] then capacity else visits[|visits| - 1].left
  }

  function Since(visits: seq<Visit>, born: real): real {
    if visits == [] then born else visits[|visits| - 1].at
  }

  /** A bucket full when `born`, refilled on every visit, that pays one token for each visit that finds one. */
  ghost predicate Trace(visits: seq<Visit>, capacity: real, born: real) {
    visits != [] ==>
      var before, v := visits[..|visits| - 1], visits[|visits| - 1];
      && Since(before, born) <= v.at
      && 0.0 <= v.earned
      && v.found == Refilled(capacity, Left(before, capacity), v.earned)
      && v.left == (if v.Granted() then v.found - 1.0 else v.found)
      && Trace(before, capacity, born)
  }

  /** What comes in is the rate times the time. */
  ghost predicate Priced(visits: seq<Visit>, rate: real, born: real) {
    visits != [] ==>
      var before, v := visits[..|visits| - 1], visits[|visits| - 1];
      && v.earned == Income(v.at - Since(before, born), rate)
      && Priced(before, rate, born)
  }

  // ---------------------------------------------------------------- arithmetic

  lemma Worth(rate: real, span: real)
    requires rate >= 0.0 && span >= 0.0
    ensures Income(span, rate) >= 0.0
  {
  }

  lemma Adds(rate: real, one: real, two: real)
    ensures Income(one + two, rate) == Income(one, rate) + Income(two, rate)
  {
  }

  /** The nap a visitor takes when short of a token is long enough for the rate to make up for it. */
  lemma NapPays(rate: real, tokens: real, elapsed: real)
    requires rate > 0.0 && tokens < 1.0 && elapsed >= (1.0 - tokens) / rate
    ensures (1.0 - tokens) / rate >= 0.0
    ensures Income(elapsed, rate) >= 1.0 - tokens
  {
    var nap := (1.0 - tokens) / rate;
    assert nap * rate == 1.0 - tokens;
    assert (elapsed - nap) * rate >= 0.0;
  }

  // ---------------------------------------------------------------- the bounds

  /** The bucket is never in debt and never overflows. */
  lemma {:induction false} TokensInRange(visits: seq<Visit>, capacity: real, born: real)
    requires capacity >= 0.0 && Trace(visits, capacity, born)
    ensures 0.0 <= Left(visits, capacity) <= capacity
    decreases |visits|
  {
    if visits != [] {
      TokensInRange(visits[..|visits| - 1], capacity, born);
    }
  }

  /** A burst no larger than the capacity of a full bucket is granted at once, whatever the pauses. */
  lemma {:induction false} BurstIsGranted(visits: seq<Visit>, capacity: real, born: real)
    requires Trace(visits, capacity, born) && |visits| as real <= capacity
    ensures forall i :: 0 <= i < |visits| ==> visits[i].found >= 1.0
    ensures Left(visits, capacity) >= capacity - |visits| as real
    decreases |visits|
  {
    if visits != [] {
      var n := |visits| - 1;
      BurstIsGranted(visits[..n], capacity, born);
      assert forall i :: 0 <= i < n ==> visits[..n][i] == visits[i];
    }
  }

  /** How many visits between `from` and `to` were granted. */
  function Grants(visits: seq<Visit>, from: real, to: real): nat {
    if visits == [] then 0
    else
      var v := visits[|visits| - 1];
      Grants(visits[..|visits| - 1], from, to) + if from <= v.at <= to && v.Granted() then 1 else 0
  }

  lemma {:induction false} NoneYet(visits: seq<Visit>, capacity: real, born: real, from: real, to: real)
    requires Trace(visits, capacity, born) && Since(visits, born) < from
    ensures Grants(visits, from, to) == 0
    decreases |visits|
  {
    if visits != [] {
      NoneYet(visits[..|visits| - 1], capacity, born, from, to);
    }
  }

  /** What came in between the first visit not before `from` and the last one. */
  function Earned(visits: seq<Visit>, from: real): real {
    if |visits| < 2 || visits[|visits| - 2].at < from then 0.0
    else Earned(visits[..|visits| - 1], from) + visits[|visits| - 1].earned
  }

  lemma {:induction false} EarnedWithin(visits: seq<Visit>, rate: real, born: real, from: real)
    requires rate > 0.0 && Priced(visits, rate, born) && visits != [] && from <= visits[|visits| - 1].at
    ensures Earned(visits, from) <= Income(visits[|visits| - 1].at - from, rate)
    decreases |visits|
  {
    var before, at := visits[..|visits| - 1], visits[|visits| - 1].at;
    if |visits| < 2 || visits[|visits| - 2].at < from {
      Worth(rate, at - from);
    } else {
      var since := visits[|visits| - 2].at;
      EarnedWithin(before, rate, born, from);
      Adds(rate, since - from, at - since);
    }
  }

  /** Up to a visit in the window, what was granted and what is left were there at the start or came in since. */
  lemma {:induction false} Spent(visits: seq<Visit>, capacity: real, born: real, from: real, to: real)
    requires capacity >= 0.0 && Trace(visits, capacity, born)
    requires visits != [] && from <= visits[|visits| - 1].at <= to
    ensures Grants(visits, from, to) as real + Left(visits, capacity) <= capacity + Earned(visits, from)
    decreases |visits|
  {
    var before := visits[..|visits| - 1];
    if before != [] && from <= Since(before, born) {
      Spent(before, capacity, born, from, to);
    } else if before != [] {
      NoneYet(before, capacity, born, from, to);
    }
  }

  lemma {:induction false} GrantsBounded(visits: seq<Visit>, rate: real, born: real, from: real, length: real)
    requires rate > 0.0 && Trace(visits, Capacity(rate), born) && Priced(visits, rate, born) && length >= 0.0
    ensures Grants(visits, from, from + length) as real <= Capacity(rate) + Income(length, rate)
    decreases |visits|
  {
    Worth(rate, length);
    if visits != [] {
      var at := visits[|visits| - 1].at;
      if at < from {
        NoneYet(visits, Capacity(rate), born, from, from + length);
      } else if at <= from + length {
        Spent(visits, Capacity(rate), born, from, from + length);
        TokensInRange(visits, Capacity(rate), born);
        EarnedWithin(visits, rate, born, from);
        Adds(rate, at - from, from + length - at);
        Worth(rate, from + length - at);
      } else {
        GrantsBounded(visits[..|visits| - 1], rate, born, from, length);
      }
    }
  }

  /** No window of any length sees more than a burst of `rate`, but at least one, plus `rate` per second of it. */
  lemma WindowBound(visits: seq<Visit>, rate: real, born: real, from: real, length: real)
    requires rate > 0.0 && Trace(visits, Capacity(rate), born) && Priced(visits, rate, born) && length >= 0.0
    ensures Grants(visits, from, from + length) as real <= (if rate > 1.0 then rate else 1.0) + length * rate
  {
    GrantsBounded(visits, rate, born, from, length);
  }

  /** After a nap as long as asked the next visit is granted exactly because a bucket holds at least one token. */
  lemma GrantedAfterNap(capacity: real, rate: real, tokens: real, elapsed: real)
    requires rate > 0.0 && tokens < 1.0 && elapsed >= (1.0 - tokens) / rate
    ensures Refilled(capacity, tokens, Income(elapsed, rate)) >= 1.0 <==> capacity >= 1.0
  {
    NapPays(rate, tokens, elapsed);
  }

  lemma VisitAdds(visits: seq<Visit>, v: Visit, rate: real, born: real)
    requires Trace(visits, Capacity(rate), born) && Priced(visits, rate, born) && Since(visits, born) <= v.at
    requires v.earned == Income(v.at - Since(visits, born), rate) >= 0.0
    requires v.found == Refilled(Capacity(rate), Left(visits, Capacity(rate)), v.earned)
    requires v.left == if v.Granted() then v.found - 1.0 else v.found
    ensures Trace(visits + [v], Capacity(rate), born) && Priced(visits + [v], rate, born)
  {
    assert (visits + [v])[..|visits|] == visits;
  }

  class Bucket {
    const rate: real
    const capacity: real
    var tokens: real
    var updated: real
    ghost const born: real
    ghost var visits: seq<Visit>

    /** The fields are what the visits so far made of them. */
    ghost predicate Valid()
      reads this
    {
      && capacity == Capacity(rate)
      && tokens == Left(visits, capacity)
      && updated == Since(visits, born)
      && Trace(visits, capacity, born)
      && Priced(visits, rate, born)
    }

    constructor (rate: real, clock: Clock)
      modifies clock
      ensures Valid() && this.rate == rate && visits == [] && updated == clock.now
    {
      this.rate := rate;
      capacity := if rate > 1.0 then rate else 1.0;
      tokens := if rate > 1.0 then rate else 1.0;
      var now := clock.Read();
      updated, born, visits := now, now, [];
    }

    /** Read the clock, refill, and take a token if there is one. */
    method TryOnce(clock: Clock) returns (granted: bool)
      requires Valid() && rate > 0.0 && updated <= clock.now
      modifies this`tokens, this`updated, this`visits, clock
      ensures Valid() && updated == clock.now >= old(clock.now)
      ensures |visits| == |old(visits)| + 1 && visits[..|old(visits)|] == old(visits)
      ensures granted <==> visits[|old(visits)|].Granted()
      ensures visits[|old(visits)|].found == Refilled(capacity, old(tokens), Income(updated - old(updated), rate))
    {
      var now := clock.Read();
      var elapsed := now - updated;
      var filled := tokens + elapsed * rate;
      ghost var found := Refilled(capacity, tokens, Income(elapsed, rate));
      ghost var v := Visit(now, Income(elapsed, rate), found, if found >= 1.0 then found - 1.0 else found);
      Worth(rate, elapsed);
      VisitAdds(visits, v, rate, born);
      updated := now;
      tokens := if capacity < filled then capacity else filled;
      granted := tokens >= 1.0;
      if granted {
        tokens := tokens - 1.0;
      }
      visits := visits + [v];
    }

    /**
      Returns with one token taken, on the first visit or on the second, after at most one sleep;
      with a rate of zero or less, at once.
     */
    method Acquire(clock: Clock) returns (ghost naps: nat)
      requires Valid() && updated <= clock.now
      modifies this`tokens, this`updated, this`visits, clock
      ensures Valid() && old(clock.now) <= clock.now
      ensures rate <= 0.0 ==> visits == old(visits) && naps == 0 && clock.now == old(clock.now)
      ensures rate > 0.0 ==>
        && naps <= 1
        && |visits| == |old(visits)| + naps + 1
        && visits[..|old(visits)|] == old(visits)
        && (naps == 1 ==> !visits[|old(visits)|].Granted())
        && visits[|visits| - 1].Granted()
        && updated == clock.now
    {
      naps := 0;
      if rate <= 0.0 {
        return;
      }
      while true
        invariant Valid() && updated <= clock.now && old(clock.now) <= clock.now
        invariant naps <= 1 && |visits| == |old(visits)| + naps && visits[..|old(visits)|] == old(visits)
        invariant naps == 1 ==> !visits[|old(visits)|].Granted() && tokens < 1.0
        invariant naps == 1 ==> updated + (1.0 - tokens) / rate <= clock.now
        decreases 1 - naps
      {
        ghost var before, last := tokens, updated;
        var granted := TryOnce(clock);
        if naps == 1 {
          GrantedAfterNap(capacity, rate, before, updated - last);
        }
        if granted {
          return;
        }
        var deficit := 1.0 - tokens;
        NapPays(rate, tokens, deficit / rate);
        clock.Sleep(deficit / rate);
        naps := naps + 1;
      }
    }
  }
}
