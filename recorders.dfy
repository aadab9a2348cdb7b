/**
 * The recorder double buffer: two maps from API name to recorder, the active
 * one that application threads record into and the standby one that the
 * background pump reads. Once per slice the rotation stamps the active
 * recorders' windows, resets the standby recorders for the next slice, swaps
 * the two maps and raises `backupRecorderReady`; the pump then turns the
 * standby map into one statistics batch for the sink and clears the flag.
 *
 * The process-wide static state becomes one RecorderMaintainer object; the two
 * executors become explicit calls to RoundRobin(now) and Pump(..). A HashMap
 * becomes a sequence of entries, so its (unspecified) iteration order is the
 * sequence order.
 */
module Recording {
  import opened TimeSlice

  /**
   * A per-API accumulator. Its statistics are external; the model keeps the
   * number of recorded calls and the window the recorder covers.
   */
  class Recorder {
    const api: string
    var count: nat
    var startTime: int
    var stopTime: int

    constructor (api: string)
      ensures this.api == api && count == 0 && startTime == 0 && stopTime == 0
    {
      this.api := api;
      count := 0;
      startTime := 0;
      stopTime := 0;
    }

    /** One observation from an application thread. */
    method Record()
      modifies this`count
      ensures count == old(count) + 1
    {
      count := count + 1;
    }

    /** resetRecord: forgets the observations, keeps the window. */
    method ResetRecord()
      modifies this`count
      ensures count == 0
    {
      count := 0;
    }
  }

  /** What a recorder holds at one moment. */
  datatype Snapshot = Snapshot(count: nat, startTime: int, stopTime: int)

  function SnapshotOf(r: Recorder): Snapshot
    reads r
  {
    Snapshot(r.count, r.startTime, r.stopTime)
  }

  /**
   * The rotation's treatment of an active recorder: one whose window was never
   * stamped gets `[now - millTimeSlice, now)`; every other one keeps its
   * window, and no count changes.
   */
  function StampIfUnstamped(s: Snapshot, now: int, millTimeSlice: int): (s': Snapshot)
    ensures s'.count == s.count
    ensures s.startTime <= 0 || s.stopTime <= 0 ==> s'.startTime == now - millTimeSlice && s'.stopTime == now
    ensures s.startTime > 0 && s.stopTime > 0 ==> s' == s
  {
    if s.startTime <= 0 || s.stopTime <= 0 then Snapshot(s.count, now - millTimeSlice, now) else s
  }

  /** One key of a recorder map and the recorder bound to it. */
  datatype Entry = Entry(api: string, recorder: Recorder)

  function Keys(m: seq<Entry>): set<string>
  {
    set e | e in m :: e.api
  }

  function Recorders(m: seq<Entry>): set<Recorder>
  {
    set e | e in m :: e.recorder
  }

  /** A map: distinct keys, each bound to its own recorder, made for that key. */
  ghost predicate WellFormed(m: seq<Entry>)
  {
    (forall i, j :: 0 <= i < j < |m| ==> m[i].api != m[j].api && m[i].recorder != m[j].recorder) &&
    (forall i :: 0 <= i < |m| ==> m[i].recorder.api == m[i].api)
  }

  /** No recorder object is shared by the two maps. */
  ghost predicate Disjoint(a: seq<Entry>, b: seq<Entry>)
  {
    forall i, j :: 0 <= i < |a| && 0 <= j < |b| ==> a[i].recorder != b[j].recorder
  }

  /** Every recorder of the map covers the window `[startTime, stopTime)`. */
  ghost predicate SharedWindow(m: seq<Entry>, startTime: int, stopTime: int)
    reads Recorders(m)
  {
    forall i :: 0 <= i < |m| ==> m[i].recorder.startTime == startTime && m[i].recorder.stopTime == stopTime
  }

  /** No recorder of the map has had its window stamped yet. */
  ghost predicate NoneStamped(m: seq<Entry>)
    reads Recorders(m)
  {
    forall i :: 0 <= i < |m| ==> m[i].recorder.startTime <= 0 || m[i].recorder.stopTime <= 0
  }

  /** Where the map binds `api`, or -1 when it does not. */
  function IndexOf(m: seq<Entry>, api: string): (k: int)
    ensures -1 <= k < |m|
    ensures k >= 0 ==> m[k].api == api
    ensures k < 0 <==> forall i :: 0 <= i < |m| ==> m[i].api != api
  {
    if m == [] then -1
    else if m[0].api == api then 0
    else
      var k := IndexOf(m[1..], api);
      assert forall i :: 1 <= i < |m| ==> m[i] == m[1..][i - 1];
      if k < 0 then -1 else k + 1
  }

  /**
   * HashMap.put: binds `api` to `r`, replacing the recorder of an existing key
   * in place and appending a new key.
   */
  function Put(m: seq<Entry>, api: string, r: Recorder): (m': seq<Entry>)
    ensures |m| <= |m'| && Entry(api, r) in m'
    ensures forall i :: 0 <= i < |m| && m[i].api != api ==> m'[i] == m[i]
  {
    var k := IndexOf(m, api);
    if k >= 0 then
      assert m[k := Entry(api, r)][k] == Entry(api, r);
      m[k := Entry(api, r)]
    else
      assert (m + [Entry(api, r)])[|m|] == Entry(api, r);
      m + [Entry(api, r)]
  }

  /**
   * After a put the key is bound to the new recorder, every other binding is
   * kept and nothing else is added; the keys grow by exactly that key.
   */
  lemma PutBindsOnlyKey(m: seq<Entry>, api: string, r: Recorder)
    ensures Entry(api, r) in Put(m, api, r)
    ensures forall e :: e in m && e.api != api ==> e in Put(m, api, r)
    ensures forall e :: e in Put(m, api, r) ==> e == Entry(api, r) || e in m
    ensures Keys(Put(m, api, r)) == Keys(m) + {api}
  {
    var m' := Put(m, api, r);
    var k := IndexOf(m, api);
    assert m'[if k >= 0 then k else |m|] == Entry(api, r);
    forall e | e in m && e.api != api
      ensures e in m'
    {
      var i :| 0 <= i < |m| && m[i] == e;
      assert m'[i] == e;
    }
    forall e | e in m'
      ensures e == Entry(api, r) || e in m
    {
      var i :| 0 <= i < |m'| && m'[i] == e;
      if i != k && i < |m| {
        assert m[i] == e;
      }
    }
    forall a | a in Keys(m) + {api}
      ensures a in Keys(m')
    {
      if a != api {
        var e :| e in m && e.api == a;
        assert e in m';
      }
    }
  }

  /**
   * Putting a new recorder made for the key keeps the keys distinct and every
   * recorder bound once.
   */
  lemma PutKeepsWellFormed(m: seq<Entry>, api: string, r: Recorder)
    requires WellFormed(m) && r !in Recorders(m) && r.api == api
    ensures WellFormed(Put(m, api, r))
  {
    var m' := Put(m, api, r);
    var k := IndexOf(m, api);
    forall i, j | 0 <= i < j < |m'|
      ensures m'[i].api != m'[j].api && m'[i].recorder != m'[j].recorder
    {
      if i == k || (k < 0 && j == |m|) {
        var o := if i == k then j else i;
        assert m[o] in m && m'[o] == m[o];
      }
    }
  }

  /**
   * Putting two different recorders, each foreign to the other map, into two
   * maps that share no recorder keeps them sharing none.
   */
  lemma PutKeepsDisjoint(a: seq<Entry>, b: seq<Entry>, api: string, ra: Recorder, rb: Recorder)
    requires Disjoint(a, b) && ra != rb && ra !in Recorders(b) && rb !in Recorders(a)
    ensures Disjoint(Put(a, api, ra), Put(b, api, rb))
  {
    var a', b' := Put(a, api, ra), Put(b, api, rb);
    PutBindsOnlyKey(a, api, ra);
    PutBindsOnlyKey(b, api, rb);
    forall i, j | 0 <= i < |a'| && 0 <= j < |b'|
      ensures a'[i].recorder != b'[j].recorder
    {
      assert a'[i] in a' && b'[j] in b';
      if a'[i] != Entry(api, ra) && b'[j] != Entry(api, rb) {
        var x :| 0 <= x < |a| && a[x] == a'[i];
        var y :| 0 <= y < |b| && b[y] == b'[j];
      }
    }
  }

  /** The per-API statistics that the external calculator derives from a recorder. */
  datatype PerfStats = PerfStats(api: string, count: nat, startTime: int, stopTime: int)

  /** One call of the sink: the statistics of a slice and the slice's window. */
  datatype Batch = Batch(stats: seq<PerfStats>, startTime: int, stopTime: int)

  /** calPerfStats, reduced to what the model keeps of a recorder. */
  function CalPerfStats(r: Recorder): PerfStats
    reads r
  {
    PerfStats(r.api, r.count, r.startTime, r.stopTime)
  }

  /** One statistics entry per entry of the map, in iteration order. */
  function StatsOf(m: seq<Entry>): (stats: seq<PerfStats>)
    reads Recorders(m)
    ensures |stats| == |m|
    ensures forall i :: 0 <= i < |m| ==> stats[i] == CalPerfStats(m[i].recorder)
  {
    if m == [] then []
    else
      assert forall e :: e in m[..|m| - 1] ==> e in m;
      StatsOf(m[..|m| - 1]) + [CalPerfStats(m[|m| - 1].recorder)]
  }

  /** No API of the map makes the statistics computation throw. */
  predicate NoneFailing(m: seq<Entry>, failing: set<string>)
  {
    forall i :: 0 <= i < |m| ==> m[i].api !in failing
  }

  /**
   * When every recorder of the map covers the same window, the last recorder's
   * window, which the pump hands to the sink, is the window of every
   * statistics entry of the batch.
   */
  lemma SharedWindowTagsBatch(m: seq<Entry>, startTime: int, stopTime: int)
    requires |m| > 0 && SharedWindow(m, startTime, stopTime)
    ensures var last := m[|m| - 1].recorder;
            forall i :: 0 <= i < |m| ==>
              StatsOf(m)[i].startTime == last.startTime && StatsOf(m)[i].stopTime == last.stopTime
  {
  }

  /** The rotation's first loop: stamps the active recorders that were never stamped. */
  method StampUnstamped(m: seq<Entry>, now: int, millTimeSlice: int)
    requires WellFormed(m)
    modifies Recorders(m)
    ensures forall i :: 0 <= i < |m| ==>
              SnapshotOf(m[i].recorder) == StampIfUnstamped(old(SnapshotOf(m[i].recorder)), now, millTimeSlice)
  {
    var i := 0;
    while i < |m|
      invariant 0 <= i <= |m|
      invariant forall k :: 0 <= k < i ==>
                  SnapshotOf(m[k].recorder) == StampIfUnstamped(old(SnapshotOf(m[k].recorder)), now, millTimeSlice)
      invariant forall k :: i <= k < |m| ==> SnapshotOf(m[k].recorder) == old(SnapshotOf(m[k].recorder))
    {
      var curRecorder := m[i].recorder;
      assert m[i] in m;
      if curRecorder.startTime <= 0 || curRecorder.stopTime <= 0 {
        curRecorder.startTime := now - millTimeSlice;
        curRecorder.stopTime := now;
      }
      i := i + 1;
    }
  }

  /** The rotation's second loop: prepares every standby recorder for the slice `[now, now + millTimeSlice)`. */
  method ResetAndStamp(m: seq<Entry>, now: int, millTimeSlice: int)
    requires WellFormed(m)
    modifies Recorders(m)
    ensures forall i :: 0 <= i < |m| ==> SnapshotOf(m[i].recorder) == Snapshot(0, now, now + millTimeSlice)
  {
    var i := 0;
    while i < |m|
      invariant 0 <= i <= |m|
      invariant forall k :: 0 <= k < i ==> SnapshotOf(m[k].recorder) == Snapshot(0, now, now + millTimeSlice)
    {
      var backupRecorder := m[i].recorder;
      assert m[i] in m;
      backupRecorder.ResetRecord();
      backupRecorder.startTime := now;
      backupRecorder.stopTime := now + millTimeSlice;
      i := i + 1;
    }
  }

  class RecorderMaintainer {
    const millTimeSlice: int
    /** End of the current slice; 0 until the first tick arms it. */
    var nextTimeSliceEndTime: int
    /** Raised by a rotation, cleared by the pump. */
    var backupRecorderReady: bool
    /** The active map: the one application threads record into. */
    var recorderMap: seq<Entry>
    /** The standby map: prepared for the next slice, or awaiting the pump. */
    var backupRecorderMap: seq<Entry>
    /** Every call of the sink so far, oldest first. */
    var processed: seq<Batch>

    ghost predicate Valid()
      reads this
    {
      millTimeSlice > 0 && nextTimeSliceEndTime >= 0 && nextTimeSliceEndTime % millTimeSlice == 0 &&
      WellFormed(recorderMap) && WellFormed(backupRecorderMap) &&
      Keys(recorderMap) == Keys(backupRecorderMap) &&
      Disjoint(recorderMap, backupRecorderMap)
    }

    /** The static initial state, before any API is registered. */
    constructor (millTimeSlice: int)
      requires millTimeSlice > 0
      ensures Valid()
      ensures this.millTimeSlice == millTimeSlice && nextTimeSliceEndTime == 0 && !backupRecorderReady
      ensures recorderMap == [] && backupRecorderMap == [] && processed == []
    {
      this.millTimeSlice := millTimeSlice;
      nextTimeSliceEndTime := 0;
      backupRecorderReady := false;
      recorderMap := [];
      backupRecorderMap := [];
      processed := [];
    }

    /**
     * Registration of one profiled API: a separate new recorder is put into
     * each of the two maps.
     */
    method Register(api: string) returns (active: Recorder, standby: Recorder)
      requires Valid()
      modifies this`recorderMap, this`backupRecorderMap
      ensures Valid()
      ensures fresh(active) && fresh(standby)
      ensures SnapshotOf(active) == Snapshot(0, 0, 0) && SnapshotOf(standby) == Snapshot(0, 0, 0)
      ensures recorderMap == Put(old(recorderMap), api, active)
      ensures backupRecorderMap == Put(old(backupRecorderMap), api, standby)
    {
      active := new Recorder(api);
      standby := new Recorder(api);
      PutKeepsWellFormed(recorderMap, api, active);
      PutKeepsWellFormed(backupRecorderMap, api, standby);
      PutBindsOnlyKey(recorderMap, api, active);
      PutBindsOnlyKey(backupRecorderMap, api, standby);
      PutKeepsDisjoint(recorderMap, backupRecorderMap, api, active, standby);
      recorderMap := Put(recorderMap, api, active);
      backupRecorderMap := Put(backupRecorderMap, api, standby);
    }

    /**
     * getRecorder(api): a plain lookup in the active map. It finds the key
     * exactly when the map has it, and never hands out a standby recorder.
     */
    method GetRecorder(api: string) returns (r: Recorder?)
      requires Valid()
      ensures r != null <==> api in Keys(recorderMap)
      ensures r != null ==> Entry(api, r) in recorderMap
      ensures r !in Recorders(backupRecorderMap)
    {
      var i := 0;
      while i < |recorderMap|
        invariant 0 <= i <= |recorderMap|
        invariant forall k :: 0 <= k < i ==> recorderMap[k].api != api
      {
        if recorderMap[i].api == api {
          r := recorderMap[i].recorder;
          assert recorderMap[i] in recorderMap;
          return;
        }
        i := i + 1;
      }
      r := null;
    }

    /**
     * One poll of the rotation executor at wall-clock time `now`. It is gated
     * exactly like the scheduler; when it fires it stamps the unstamped active
     * recorders, resets and stamps every standby recorder for the next slice,
     * swaps the two maps and leaves `backupRecorderReady` raised.
     */
    method RoundRobin(now: int)
      requires Valid() && now >= 0
      modifies this, Recorders(recorderMap), Recorders(backupRecorderMap)
      ensures Valid()
      ensures processed == old(processed)
      ensures nextTimeSliceEndTime == Step(old(nextTimeSliceEndTime), now, millTimeSlice).nextEnd
      ensures !Step(old(nextTimeSliceEndTime), now, millTimeSlice).fire ==>
                recorderMap == old(recorderMap) && backupRecorderMap == old(backupRecorderMap) &&
                backupRecorderReady == old(backupRecorderReady) &&
                unchanged(Recorders(recorderMap)) && unchanged(Recorders(backupRecorderMap))
      ensures Step(old(nextTimeSliceEndTime), now, millTimeSlice).fire ==>
                recorderMap == old(backupRecorderMap) && backupRecorderMap == old(recorderMap) &&
                backupRecorderReady &&
                (forall i :: 0 <= i < |backupRecorderMap| ==>
                   var r := backupRecorderMap[i].recorder;
                   SnapshotOf(r) == StampIfUnstamped(old(SnapshotOf(r)), now, millTimeSlice)) &&
                (forall i :: 0 <= i < |recorderMap| ==>
                   SnapshotOf(recorderMap[i].recorder) == Snapshot(0, now, now + millTimeSlice))
      ensures Step(old(nextTimeSliceEndTime), now, millTimeSlice).fire ==>
                (forall startTime, stopTime ::
                   startTime > 0 && stopTime > 0 && old(SharedWindow(recorderMap, startTime, stopTime)) ==>
                     SharedWindow(backupRecorderMap, startTime, stopTime)) &&
                (old(NoneStamped(recorderMap)) ==> SharedWindow(backupRecorderMap, now - millTimeSlice, now))
    {
      if nextTimeSliceEndTime == 0 {
        nextTimeSliceEndTime := NextBoundary(now, millTimeSlice);
      }
      if nextTimeSliceEndTime > now {
        return;
      }
      nextTimeSliceEndTime := NextBoundary(now, millTimeSlice);

      backupRecorderReady := false;
      StampUnstamped(recorderMap, now, millTimeSlice);
      ResetAndStamp(backupRecorderMap, now, millTimeSlice);
      var tmpMap := recorderMap;
      recorderMap := backupRecorderMap;
      backupRecorderMap := tmpMap;
      backupRecorderReady := true;
    }

    /**
     * One poll of the background executor, with `failing` the APIs whose
     * statistics computation throws. Unless a rotation has raised the flag it
     * does nothing. Otherwise it computes one statistics entry per standby
     * recorder and, when there is at least one and none threw, hands them to
     * the sink under the last recorder's window; either way the flag ends
     * cleared.
     */
    method Pump(failing: set<string>)
      requires Valid()
      modifies this`backupRecorderReady, this`processed
      ensures !backupRecorderReady
      ensures !old(backupRecorderReady) || |backupRecorderMap| == 0 || !NoneFailing(backupRecorderMap, failing) ==>
                processed == old(processed)
      ensures old(backupRecorderReady) && |backupRecorderMap| > 0 && NoneFailing(backupRecorderMap, failing) ==>
                var last := backupRecorderMap[|backupRecorderMap| - 1].recorder;
                processed == old(processed) + [Batch(StatsOf(backupRecorderMap), last.startTime, last.stopTime)]
    {
      if !backupRecorderReady {
        return;
      }
      var recorder: Recorder? := null;
      var perfStatsList: seq<PerfStats> := [];
      var threw := false;
      var i := 0;
      while i < |backupRecorderMap| && !threw
        invariant 0 <= i <= |backupRecorderMap|
        invariant recorder == null <==> i == 0
        invariant i > 0 ==> recorder == backupRecorderMap[i - 1].recorder
        invariant threw ==> i > 0 && backupRecorderMap[i - 1].api in failing
        invariant !threw ==> NoneFailing(backupRecorderMap[..i], failing)
        invariant !threw ==> perfStatsList == StatsOf(backupRecorderMap[..i])
      {
        recorder := backupRecorderMap[i].recorder;
        if backupRecorderMap[i].api in failing {
          threw := true;
        } else {
          assert backupRecorderMap[..i + 1][..i] == backupRecorderMap[..i];
          perfStatsList := perfStatsList + [CalPerfStats(recorder)];
        }
        i := i + 1;
      }
      assert |backupRecorderMap| > 0 && NoneFailing(backupRecorderMap, failing) ==> !threw && recorder != null;
      if !threw && recorder != null {
        assert backupRecorderMap[..i] == backupRecorderMap;
        processed := processed + [Batch(perfStatsList, recorder.startTime, recorder.stopTime)];
      }
      backupRecorderReady := false;
      assert !threw && recorder != null ==> perfStatsList == StatsOf(backupRecorderMap);
    }
  }

  /** An application thread recording `n` observations into one recorder. */
  method RecordTimes(r: Recorder, n: nat)
    modifies r`count
    ensures r.count == old(r.count) + n
  {
    var k := 0;
    while k < n
      invariant 0 <= k <= n
      invariant r.count == old(r.count) + k
    {
      r.Record();
      k := k + 1;
    }
  }

  /**
   * Start of the conservation scenario: one API registered, the rotation
   * executor armed at 0, and `n1` observations recorded into the active
   * recorder, whose window is not stamped yet.
   */
  method BootSlice(n1: nat) returns (maintainer: RecorderMaintainer, first: Recorder, second: Recorder)
    ensures fresh(maintainer) && fresh(first) && fresh(second) && maintainer.Valid()
    ensures maintainer.millTimeSlice == 1000 && maintainer.nextTimeSliceEndTime == 1000
    ensures maintainer.recorderMap == [Entry("Shop.buy", first)]
    ensures maintainer.backupRecorderMap == [Entry("Shop.buy", second)]
    ensures SnapshotOf(first) == Snapshot(n1, 0, 0)
    ensures maintainer.processed == []
  {
    maintainer := new RecorderMaintainer(1000);
    first, second := maintainer.Register("Shop.buy");
    assert maintainer.recorderMap == [Entry("Shop.buy", first)];
    assert maintainer.backupRecorderMap == [Entry("Shop.buy", second)];
    maintainer.RoundRobin(0);
    var r := maintainer.GetRecorder("Shop.buy");
    assert r == first;
    RecordTimes(r, n1);
  }

  /**
   * The rotation that ends a slice for a single registered API: the two
   * recorders change roles, the one that was active keeps its count and gets
   * its window stamped if it had none, and the standby one is reset for
   * `[now, now + slice)`.
   */
  method RotateSingle(maintainer: RecorderMaintainer, api: string, active: Recorder, standby: Recorder, now: int)
    requires maintainer.Valid() && now >= 0
    requires maintainer.recorderMap == [Entry(api, active)] && maintainer.backupRecorderMap == [Entry(api, standby)]
    requires maintainer.nextTimeSliceEndTime != 0 && maintainer.nextTimeSliceEndTime <= now
    modifies maintainer, active, standby
    ensures maintainer.Valid() && maintainer.backupRecorderReady
    ensures maintainer.nextTimeSliceEndTime == NextBoundary(now, maintainer.millTimeSlice)
    ensures maintainer.recorderMap == [Entry(api, standby)] && maintainer.backupRecorderMap == [Entry(api, active)]
    ensures SnapshotOf(active) == StampIfUnstamped(old(SnapshotOf(active)), now, maintainer.millTimeSlice)
    ensures SnapshotOf(standby) == Snapshot(0, now, now + maintainer.millTimeSlice)
    ensures maintainer.processed == old(maintainer.processed)
  {
    assert Recorders(maintainer.recorderMap) == {active};
    assert Recorders(maintainer.backupRecorderMap) == {standby};
    maintainer.RoundRobin(now);
    assert maintainer.backupRecorderMap[0].recorder == active;
    assert maintainer.recorderMap[0].recorder == standby;
  }

  /**
   * The pump after that rotation delivers the single standby recorder's
   * statistics under its own window.
   */
  method PumpSingle(maintainer: RecorderMaintainer, api: string, standby: Recorder)
    requires maintainer.Valid() && maintainer.backupRecorderReady
    requires maintainer.backupRecorderMap == [Entry(api, standby)]
    modifies maintainer
    ensures maintainer.Valid() && !maintainer.backupRecorderReady
    ensures maintainer.nextTimeSliceEndTime == old(maintainer.nextTimeSliceEndTime)
    ensures maintainer.recorderMap == old(maintainer.recorderMap)
    ensures maintainer.backupRecorderMap == old(maintainer.backupRecorderMap)
    ensures maintainer.processed == old(maintainer.processed) + [Batch([CalPerfStats(standby)], standby.startTime, standby.stopTime)]
  {
    assert StatsOf(maintainer.backupRecorderMap) == [CalPerfStats(standby)];
    assert NoneFailing(maintainer.backupRecorderMap, {});
    maintainer.Pump({});
  }

  /**
   * The end of one slice for a single registered API: the rotation at `now`
   * fires, and one pump hands the recorder that was active to the sink under
   * its (possibly freshly stamped) window while the standby recorder becomes
   * active for the next slice.
   */
  method CloseSlice(maintainer: RecorderMaintainer, api: string, active: Recorder, standby: Recorder, now: int)
    requires maintainer.Valid() && now >= 0
    requires maintainer.recorderMap == [Entry(api, active)] && maintainer.backupRecorderMap == [Entry(api, standby)]
    requires maintainer.nextTimeSliceEndTime != 0 && maintainer.nextTimeSliceEndTime <= now
    modifies maintainer, active, standby
    ensures maintainer.Valid()
    ensures maintainer.nextTimeSliceEndTime == NextBoundary(now, maintainer.millTimeSlice)
    ensures maintainer.recorderMap == [Entry(api, standby)] && maintainer.backupRecorderMap == [Entry(api, active)]
    ensures SnapshotOf(active) == StampIfUnstamped(old(SnapshotOf(active)), now, maintainer.millTimeSlice)
    ensures SnapshotOf(standby) == Snapshot(0, now, now + maintainer.millTimeSlice)
    ensures maintainer.processed == old(maintainer.processed) + [Batch([CalPerfStats(active)], active.startTime, active.stopTime)]
  {
    RotateSingle(maintainer, api, active, standby, now);
    PumpSingle(maintainer, api, active);
  }

  /**
   * Conservation across two slices of 1000 ms for one API: the `n1`
   * observations of the boot slice are delivered under `[0, 1000)`; `n2` more,
   * recorded into the recorder that is then active, are delivered by the
   * rotation at 2000 and a pump under the adjacent window `[1000, 2000)`.
   */
  method RotationConservation(n1: nat, n2: nat) returns (batches: seq<Batch>)
    ensures batches == [Batch([PerfStats("Shop.buy", n1, 0, 1000)], 0, 1000),
                        Batch([PerfStats("Shop.buy", n2, 1000, 2000)], 1000, 2000)]
  {
    var maintainer, first, second := BootSlice(n1);
    CloseSlice(maintainer, "Shop.buy", first, second, 1000);
    var r := maintainer.GetRecorder("Shop.buy");
    assert r == second;
    RecordTimes(r, n2);
    CloseSlice(maintainer, "Shop.buy", second, first, 2000);
    batches := maintainer.processed;
  }

  /**
   * Two lookups of the same API with no rotation between them return the same
   * recorder (or both find none).
   */
  method RepeatedLookup(maintainer: RecorderMaintainer, api: string) returns (first: Recorder?, second: Recorder?)
    requires maintainer.Valid()
    ensures first == second
  {
    first := maintainer.GetRecorder(api);
    second := maintainer.GetRecorder(api);
    if first != null && second != null {
      var m := maintainer.recorderMap;
      var a :| 0 <= a < |m| && m[a] == Entry(api, first);
      var b :| 0 <= b < |m| && m[b] == Entry(api, second);
      assert a == b;
    }
  }

  /**
   * Two rotations with no pump between them restore the original maps, and
   * the observations of the map that was active before the first one are
   * lost: the second rotation resets the map the pump never read.
   */
  method TwoRotationsWithoutPump(maintainer: RecorderMaintainer, now1: int, now2: int)
    requires maintainer.Valid() && now1 >= 0
    requires maintainer.nextTimeSliceEndTime != 0 && maintainer.nextTimeSliceEndTime <= now1
    requires NextBoundary(now1, maintainer.millTimeSlice) <= now2
    modifies maintainer, Recorders(maintainer.recorderMap), Recorders(maintainer.backupRecorderMap)
    ensures maintainer.Valid()
    ensures maintainer.recorderMap == old(maintainer.recorderMap)
    ensures maintainer.backupRecorderMap == old(maintainer.backupRecorderMap)
    ensures forall i :: 0 <= i < |maintainer.recorderMap| ==> maintainer.recorderMap[i].recorder.count == 0
    ensures maintainer.processed == old(maintainer.processed)
  {
    maintainer.RoundRobin(now1);
    maintainer.RoundRobin(now2);
  }
}
