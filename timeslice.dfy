/**
 * Slice arithmetic shared by the light-weight scheduler and the recorder
 * rotation: the clamp applied to a configured slice size, the wall-clock
 * aligned slice boundary, and the three-stage gate that a polling tick runs
 * against the armed boundary.
 *
 * Times are milliseconds and never negative, so Dafny's Euclidean `/` agrees
 * with Java's truncating division on every value used here.
 */
module TimeSlice {

  /** Distance between two integers, used to say "nearest". */
  function Dist(a: int, b: int): nat
  {
    if a <= b then b - a else a - b
  }

  /**
   * getFitMillTimeSlice: an out-of-range slice size is replaced by the
   * nearest bound; an in-range one is kept.
   */
  function FitTimeSlice(millTimeSlice: int, minTimeSlice: int, maxTimeSlice: int): (r: int)
    requires 0 < minTimeSlice <= maxTimeSlice
    ensures minTimeSlice <= r <= maxTimeSlice
    ensures minTimeSlice <= millTimeSlice <= maxTimeSlice ==> r == millTimeSlice
    ensures forall x :: minTimeSlice <= x <= maxTimeSlice ==> Dist(r, millTimeSlice) <= Dist(x, millTimeSlice)
  {
    if millTimeSlice < minTimeSlice then minTimeSlice
    else if millTimeSlice > maxTimeSlice then maxTimeSlice
    else millTimeSlice
  }

  /** Clamping a clamped slice size changes nothing. */
  lemma FitTimeSliceIdempotent(millTimeSlice: int, minTimeSlice: int, maxTimeSlice: int)
    requires 0 < minTimeSlice <= maxTimeSlice
    ensures var r := FitTimeSlice(millTimeSlice, minTimeSlice, maxTimeSlice);
            FitTimeSlice(r, minTimeSlice, maxTimeSlice) == r
  {
  }

  /** Multiplying by a positive slice keeps the order of the factors. */
  lemma {:induction false} MulMonotone(a: int, b: int, slice: int)
    requires a <= b && slice > 0
    ensures a * slice <= b * slice
  {
    assert b * slice - a * slice == (b - a) * slice;
  }

  /** A multiple of the slice leaves no remainder. */
  lemma {:induction false} MultipleHasNoRemainder(k: int, slice: int)
    requires slice > 0
    ensures (k * slice) % slice == 0
  {
    var q, r := (k * slice) / slice, (k * slice) % slice;
    assert q * slice + r == k * slice;
    assert (k - q) * slice == r;
    if k - q >= 1 {
      MulMonotone(1, k - q, slice);
    } else if k - q <= -1 {
      MulMonotone(k - q, -1, slice);
    }
  }

  /** A time at or past the k-th multiple of the slice lies in slice k or later. */
  lemma {:induction false} SliceIndexAtLeast(x: int, k: int, slice: int)
    requires x >= 0 && slice > 0 && k * slice <= x
    ensures k <= x / slice
  {
    if x / slice < k {
      MulMonotone(x / slice + 1, k, slice);
    }
  }

  /**
   * The end of the slice containing `now`, `(now / slice) * slice + slice`:
   * a multiple of the slice, strictly after `now` and at most one slice away.
   */
  function NextBoundary(now: int, millTimeSlice: int): (b: int)
    requires now >= 0 && millTimeSlice > 0
    ensures b % millTimeSlice == 0
    ensures now < b <= now + millTimeSlice
  {
    MultipleHasNoRemainder(now / millTimeSlice + 1, millTimeSlice);
    assert (now / millTimeSlice + 1) * millTimeSlice == (now / millTimeSlice) * millTimeSlice + millTimeSlice;
    (now / millTimeSlice) * millTimeSlice + millTimeSlice
  }

  /** The boundary is the least multiple of the slice that lies after `now`. */
  lemma {:induction false} BoundaryIsLeastMultipleAbove(now: int, millTimeSlice: int, k: int)
    requires now >= 0 && millTimeSlice > 0 && now < k * millTimeSlice
    ensures NextBoundary(now, millTimeSlice) <= k * millTimeSlice
  {
    var q := now / millTimeSlice;
    if k <= q {
      MulMonotone(k, q, millTimeSlice);
    }
    MulMonotone(q + 1, k, millTimeSlice);
    assert (q + 1) * millTimeSlice == q * millTimeSlice + millTimeSlice;
  }

  /** Later clock readings never give an earlier boundary. */
  lemma {:induction false} BoundaryMonotone(now1: int, now2: int, millTimeSlice: int)
    requires 0 <= now1 <= now2 && millTimeSlice > 0
    ensures NextBoundary(now1, millTimeSlice) <= NextBoundary(now2, millTimeSlice)
  {
    var b := NextBoundary(now2, millTimeSlice);
    var k := b / millTimeSlice;
    assert k * millTimeSlice == b;
    BoundaryIsLeastMultipleAbove(now1, millTimeSlice, k);
  }

  /** Any time at or past the boundary of `now` lies in a later slice than `now`. */
  lemma {:induction false} PastBoundaryIsLaterSlice(now: int, later: int, millTimeSlice: int)
    requires 0 <= now && millTimeSlice > 0 && NextBoundary(now, millTimeSlice) <= later
    ensures now / millTimeSlice < later / millTimeSlice
  {
    assert NextBoundary(now, millTimeSlice) == (now / millTimeSlice + 1) * millTimeSlice;
    SliceIndexAtLeast(later, now / millTimeSlice + 1, millTimeSlice);
  }

  /** What one polling tick does to the armed boundary: its new value and whether the jobs fire. */
  datatype Tick = Tick(nextEnd: int, fire: bool)

  /**
   * One poll at time `now` against the boundary `nextEnd` (0 = not yet armed):
   * the first tick arms the boundary without firing, a tick before the boundary
   * does nothing, a tick at or after it re-arms past `now` and fires.
   */
  function Step(nextEnd: int, now: int, millTimeSlice: int): (t: Tick)
    requires now >= 0 && millTimeSlice > 0
    ensures t.fire <==> nextEnd != 0 && nextEnd <= now
    ensures now < t.nextEnd
    ensures !t.fire && nextEnd != 0 ==> t.nextEnd == nextEnd
    ensures t.fire || nextEnd == 0 ==> t.nextEnd == NextBoundary(now, millTimeSlice)
    ensures nextEnd % millTimeSlice == 0 ==> t.nextEnd % millTimeSlice == 0
  {
    var armed := if nextEnd == 0 then NextBoundary(now, millTimeSlice) else nextEnd;
    if armed > now then Tick(armed, false)
    else Tick(NextBoundary(now, millTimeSlice), true)
  }

  /** A second tick at the same instant never fires. */
  lemma RepeatedTickIsQuiet(nextEnd: int, now: int, millTimeSlice: int)
    requires now >= 0 && millTimeSlice > 0
    ensures !Step(Step(nextEnd, now, millTimeSlice).nextEnd, now, millTimeSlice).fire
  {
  }

  predicate AllNonNegative(polls: seq<int>)
  {
    forall i :: 0 <= i < |polls| ==> polls[i] >= 0
  }

  /** The instants, among a sequence of polls, at which the gate fires. */
  function Fires(nextEnd: int, polls: seq<int>, millTimeSlice: int): (f: seq<int>)
    requires millTimeSlice > 0 && AllNonNegative(polls)
    ensures |f| <= |polls|
    ensures forall i :: 0 <= i < |f| ==> f[i] in polls
    decreases |polls|
  {
    if polls == [] then []
    else
      var t := Step(nextEnd, polls[0], millTimeSlice);
      (if t.fire then [polls[0]] else []) + Fires(t.nextEnd, polls[1..], millTimeSlice)
  }

  predicate NoneBefore(f: seq<int>, start: int)
  {
    forall i :: 0 <= i < |f| ==> start <= f[i]
  }

  /** Successive firing instants lie in strictly increasing slices. */
  predicate InDistinctSlices(f: seq<int>, millTimeSlice: int)
    requires millTimeSlice > 0
  {
    forall i, j :: 0 <= i < j < |f| ==> f[i] / millTimeSlice < f[j] / millTimeSlice
  }

  /** A firing ahead of firings in later slices keeps the slices increasing. */
  lemma ConsInDistinctSlices(now: int, rest: seq<int>, millTimeSlice: int)
    requires millTimeSlice > 0 && InDistinctSlices(rest, millTimeSlice)
    requires forall j :: 0 <= j < |rest| ==> now / millTimeSlice < rest[j] / millTimeSlice
    ensures InDistinctSlices([now] + rest, millTimeSlice)
  {
    var f := [now] + rest;
    forall i, j | 0 <= i < j < |f|
      ensures f[i] / millTimeSlice < f[j] / millTimeSlice
    {
      assert f[j] == rest[j - 1];
      if i > 0 {
        assert f[i] == rest[i - 1];
      }
    }
  }

  /**
   * However often (and in whatever order) the gate is polled, it fires only at
   * or after the armed boundary and at most once per slice: the slices of
   * successive firings strictly increase.
   */
  lemma {:induction false} FiresOncePerSlice(nextEnd: int, polls: seq<int>, millTimeSlice: int)
    requires millTimeSlice > 0 && nextEnd >= 0 && AllNonNegative(polls)
    decreases |polls|
    ensures NoneBefore(Fires(nextEnd, polls, millTimeSlice), nextEnd)
    ensures InDistinctSlices(Fires(nextEnd, polls, millTimeSlice), millTimeSlice)
  {
    if polls != [] {
      var now := polls[0];
      var t := Step(nextEnd, now, millTimeSlice);
      var rest := Fires(t.nextEnd, polls[1..], millTimeSlice);
      FiresOncePerSlice(t.nextEnd, polls[1..], millTimeSlice);
      if t.fire {
        assert Fires(nextEnd, polls, millTimeSlice) == [now] + rest;
        forall j | 0 <= j < |rest|
          ensures now / millTimeSlice < rest[j] / millTimeSlice
        {
          PastBoundaryIsLaterSlice(now, rest[j], millTimeSlice);
        }
        ConsInDistinctSlices(now, rest, millTimeSlice);
      } else {
        assert Fires(nextEnd, polls, millTimeSlice) == rest;
        if nextEnd == 0 {
          forall i | 0 <= i < |rest|
            ensures 0 <= rest[i]
          {
            var k :| 0 <= k < |polls[1..]| && polls[1..][k] == rest[i];
          }
        }
      }
    }
  }

  /** The polls 0, 500, 1000, 1500 and 2000 with slice 1000 fire at 1000 and 2000 only. */
  lemma FivePollTraceFires()
    ensures Fires(0, [0, 500, 1000, 1500, 2000], 1000) == [1000, 2000]
  {
    assert Step(0, 0, 1000) == Tick(1000, false);
    assert Step(1000, 500, 1000) == Tick(1000, false);
    assert Step(1000, 1000, 1000) == Tick(2000, true);
    assert Step(2000, 1500, 1000) == Tick(2000, false);
    assert Step(2000, 2000, 1000) == Tick(3000, true);
    assert [0, 500, 1000, 1500, 2000][1..] == [500, 1000, 1500, 2000];
    assert [500, 1000, 1500, 2000][1..] == [1000, 1500, 2000];
    assert [1000, 1500, 2000][1..] == [1500, 2000];
    assert [1500, 2000][1..] == [2000];
    assert Fires(3000, [], 1000) == [];
    assert Fires(2000, [2000], 1000) == [2000];
    assert Fires(2000, [1500, 2000], 1000) == [2000];
    assert Fires(1000, [1000, 1500, 2000], 1000) == [1000, 2000];
    assert Fires(1000, [500, 1000, 1500, 2000], 1000) == [1000, 2000];
  }
}
