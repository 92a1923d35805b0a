/** The scan coordinator of js/Bluetooth.js: the `__scanStarted` flag, the list
    of discovered devices that scan results fill up to a cap and without repeated
    device ids, the clamping of the scan duration, and the end of `startScan`.

    `startScan` is split at its `Promise.race`: `StartScan` runs up to the race,
    and `EndRace` is the moment one of its branches resolves. Which branch wins is
    a parameter; a branch can win only when its condition can hold. Time itself is
    not modelled. */
module ScanCoordinator {
  import opened Wrappers
  import opened Gatt

  /** A scan result: the reported device's id and the rest of the report. */
  datatype ScanResult = ScanResult(deviceId: Uuid, report: nat)

  /** The branches `startScan` races: its scan timer, the poll on the device
      count, and the poll that notices a scan stopped elsewhere. */
  datatype Branch = Timer | CountReached | StoppedElsewhere

  /** A `startScan` waiting in its race, with the branches it set up. */
  datatype Race = Race(timer: bool, count: bool)

  /** How a `startScan` that did not throw went on: it returned at once, leaving
      the scan running, or it waits in a race. */
  datatype Started = Returned | Racing

  /** `setScanMillis`: a negative duration is kept, any other is raised to at
      least the minimum. */
  function ClampScanMillis(millis: int, minMillis: int): (r: int)
  {
    if millis < 0 then millis else if millis < minMillis then minMillis else millis
  }

  /** The clamped duration is the given one when that is negative, and otherwise
      the larger of it and the minimum. */
  lemma ClampSpec(millis: int, minMillis: int)
    ensures var r := ClampScanMillis(millis, minMillis);
      && (millis < 0 ==> r == millis)
      && (millis >= 0 ==> r >= millis && r >= minMillis && (r == millis || r == minMillis))
  {
  }

  /** Clamping twice with the same minimum is clamping once. */
  lemma ClampIdempotent(millis: int, minMillis: int)
    ensures ClampScanMillis(ClampScanMillis(millis, minMillis), minMillis) == ClampScanMillis(millis, minMillis)
  {
  }

  /** Whether a stored result already has the device id `id`. */
  predicate Known(stored: seq<ScanResult>, id: Uuid)
  {
    exists j :: 0 <= j < |stored| && stored[j].deviceId == id
  }

  /** No two stored results share a device id. */
  predicate DistinctIds(stored: seq<ScanResult>)
  {
    forall i, j :: 0 <= i < j < |stored| ==> stored[i].deviceId != stored[j].deviceId
  }

  /** What `__onScanResult` does to the list: each result in turn, until the list
      length equals the cap, is appended unless its device id is already stored
      (duplicates allowed aside). */
  function Admit(stored: seq<ScanResult>, results: seq<ScanResult>, cap: int, duplicates: bool): seq<ScanResult>
    decreases |results|
  {
    if results == [] || |stored| == cap then stored
    else
      var next := if duplicates || !Known(stored, results[0].deviceId) then stored + [results[0]] else stored;
      Admit(next, results[1..], cap, duplicates)
  }

  /** `a` is `b` with some elements left out, in the same order. */
  predicate Subsequence(a: seq<ScanResult>, b: seq<ScanResult>)
    decreases |b|
  {
    if b == [] then a == []
    else (a != [] && a[0] == b[0] && Subsequence(a[1..], b[1..])) || Subsequence(a, b[1..])
  }

  /** `__onScanResult` only appends to the list, and what it appends are some of
      the reported results, in the order they were reported. */
  lemma {:induction false} AdmitAppends(stored: seq<ScanResult>, results: seq<ScanResult>, cap: int, duplicates: bool)
    ensures var after := Admit(stored, results, cap, duplicates);
      |stored| <= |after| && after[..|stored|] == stored && Subsequence(after[|stored|..], results)
    decreases |results|
  {
    var after := Admit(stored, results, cap, duplicates);
    if results == [] || |stored| == cap {
      assert after[|stored|..] == [];
      NothingIsSubsequence(results);
    } else {
      var x := results[0];
      var added := duplicates || !Known(stored, x.deviceId);
      var next := if added then stored + [x] else stored;
      AdmitAppends(next, results[1..], cap, duplicates);
      assert after == Admit(next, results[1..], cap, duplicates);
      var tail := after[|next|..];
      if added {
        assert after[..|stored|] == next[..|stored|] == stored;
        assert after[|stored|..] == [x] + tail;
        SubsequenceKeep(x, tail, results);
      } else {
        assert after[|stored|..] == tail;
        SubsequenceSkip(tail, results);
      }
    }
  }

  lemma SubsequenceKeep(x: ScanResult, a: seq<ScanResult>, b: seq<ScanResult>)
    requires b != [] && b[0] == x && Subsequence(a, b[1..])
    ensures Subsequence([x] + a, b)
  {
    assert ([x] + a)[1..] == a;
  }

  lemma SubsequenceSkip(a: seq<ScanResult>, b: seq<ScanResult>)
    requires b != [] && Subsequence(a, b[1..])
    ensures Subsequence(a, b)
  {
  }

  lemma {:induction false} NothingIsSubsequence(b: seq<ScanResult>)
    ensures Subsequence([], b)
    decreases |b|
  {
    if b != [] {
      NothingIsSubsequence(b[1..]);
    }
  }

  /** A cap the list has not passed is never passed: from the list `startScan`
      clears, a non-negative cap bounds the list. */
  lemma {:induction false} AdmitCap(stored: seq<ScanResult>, results: seq<ScanResult>, cap: int, duplicates: bool)
    requires 0 <= cap && |stored| <= cap
    ensures |Admit(stored, results, cap, duplicates)| <= cap
    decreases |results|
  {
    if results != [] && |stored| != cap {
      var x := results[0];
      var next := if duplicates || !Known(stored, x.deviceId) then stored + [x] else stored;
      AdmitCap(next, results[1..], cap, duplicates);
    }
  }

  /** The cap is tested with `===`: a list already longer than the cap (the cap
      was lowered after results were stored) is not capped at all. */
  lemma {:induction false} CapBelowListIgnored(stored: seq<ScanResult>, results: seq<ScanResult>, cap: int,
                                               duplicates: bool)
    requires cap < |stored|
    ensures Admit(stored, results, cap, duplicates) == Admit(stored, results, -1, duplicates)
    decreases |results|
  {
    if results != [] {
      var x := results[0];
      var next := if duplicates || !Known(stored, x.deviceId) then stored + [x] else stored;
      CapBelowListIgnored(next, results[1..], cap, duplicates);
    }
  }

  /** Without duplicates, no device id is stored twice. */
  lemma {:induction false} AdmitDistinct(stored: seq<ScanResult>, results: seq<ScanResult>, cap: int)
    requires DistinctIds(stored)
    ensures DistinctIds(Admit(stored, results, cap, false))
    decreases |results|
  {
    if results != [] && |stored| != cap {
      var x := results[0];
      if !Known(stored, x.deviceId) {
        var next := stored + [x];
        forall i, j | 0 <= i < j < |next| ensures next[i].deviceId != next[j].deviceId {
          if j == |stored| {
            assert next[i] == stored[i];
          }
        }
        AdmitDistinct(next, results[1..], cap);
      } else {
        AdmitDistinct(stored, results[1..], cap);
      }
    }
  }

  /** Nothing reported is dropped without cause: without duplicates, every
      reported device is stored unless the list reached the cap. */
  lemma {:induction false} AdmitComplete(stored: seq<ScanResult>, results: seq<ScanResult>, cap: int)
    ensures var after := Admit(stored, results, cap, false);
      forall k :: 0 <= k < |results| ==> Known(after, results[k].deviceId) || |after| == cap
    decreases |results|
  {
    var after := Admit(stored, results, cap, false);
    if results != [] && |stored| != cap {
      var x := results[0];
      var next := if !Known(stored, x.deviceId) then stored + [x] else stored;
      AdmitComplete(next, results[1..], cap);
      AdmitAppends(next, results[1..], cap, false);
      assert Known(next, x.deviceId) by {
        if Known(stored, x.deviceId) {
        } else {
          assert next[|stored|] == x;
        }
      }
      KnownExtends(next, after, x.deviceId);
      forall k | 0 <= k < |results| ensures Known(after, results[k].deviceId) || |after| == cap {
        if k > 0 {
          assert results[k] == results[1..][k - 1];
        }
      }
    }
  }

  lemma KnownExtends(a: seq<ScanResult>, b: seq<ScanResult>, id: Uuid)
    requires |a| <= |b| && b[..|a|] == a && Known(a, id)
    ensures Known(b, id)
  {
    var j :| 0 <= j < |a| && a[j].deviceId == id;
    assert b[j] == a[j];
  }

  /** The fields of `Bluetooth` that its methods change, as one value. */
  datatype Scanner = Scanner(
    discovered: seq<ScanResult>,
    maxDeviceCountToStore: int,
    scanMillis: int,
    scanMinMillis: int,
    scanOptions: nat,
    scanStarted: bool,
    races: seq<Race>)

  /** Whether branch `b` of race `r` can resolve now: the timer at any time once
      it was set up, the count poll once the scan stopped or the list reached the
      cap, and the stop poll once the scan stopped. */
  predicate CanWin(r: Race, b: Branch, st: Scanner)
  {
    match b
    case Timer => r.timer
    case CountReached => r.count && (!st.scanStarted || st.maxDeviceCountToStore <= |st.discovered|)
    case StoppedElsewhere => !st.scanStarted
  }

  /** Every race can end: one whose timer was set up at any time, and any other
      at the latest once the scan is stopped. */
  lemma RaceCanEnd(r: Race, st: Scanner)
    requires r.timer || r.count
    ensures r.timer ==> CanWin(r, Timer, st)
    ensures !st.scanStarted ==> CanWin(r, StoppedElsewhere, st)
    ensures r.count && st.maxDeviceCountToStore <= |st.discovered| ==> CanWin(r, CountReached, st)
  {
  }

  /** `stopScan(throwIfStopped)` on values: a stopped scan gives false, or throws,
      without the driver; a running one calls the driver's `stopScan` and, unless
      that rejects, clears the flag and gives true. */
  function StopOutcome(st: Scanner, rejected: bool, throwIfStopped: bool): (Scanner, seq<Call>, Result<bool, Failure>)
  {
    if !st.scanStarted then (st, [], if throwIfStopped then Err(ScanAlreadyStopped) else Ok(false))
    else if rejected then (st, [Call.StopScan], Err(Rejected(Call.StopScan)))
    else (st.(scanStarted := false), [Call.StopScan], Ok(true))
  }

  /** `stopScan` calls the driver exactly when the scan was running, returns true
      exactly when it stopped it, and leaves the scan stopped unless the driver
      rejected. */
  lemma StopSpec(st: Scanner, rejected: bool, throwIfStopped: bool)
    ensures var o := StopOutcome(st, rejected, throwIfStopped);
      && (|o.1| > 0 <==> st.scanStarted)
      && (o.2 == Ok(true) <==> st.scanStarted && !rejected)
      && (o.2.Err? <==> (st.scanStarted && rejected) || (!st.scanStarted && throwIfStopped))
      && (!o.0.scanStarted <==> !st.scanStarted || !rejected)
      && o.0.discovered == st.discovered && o.0.races == st.races
  {
  }

  /** `startScan` up to its race, on values: a running scan throws at once; else
      the list is cleared and the driver's `startScan` called; once it returns the
      flag is set, and the call either returns (no timer and no cap) or races. */
  function StartOutcome(st: Scanner, rejected: bool): (Scanner, seq<Call>, Result<Started, Failure>)
  {
    if st.scanStarted then (st, [], Err(ScanAlreadyStarted))
    else
      var call := Call.StartScan(st.scanOptions);
      var cleared := st.(discovered := []);
      if rejected then (cleared, [call], Err(Rejected(call)))
      else if st.scanMillis <= 0 && st.maxDeviceCountToStore <= 0 then
        (cleared.(scanStarted := true), [call], Ok(Returned))
      else
        (cleared.(scanStarted := true, races := st.races + [Race(st.scanMillis > 0, st.maxDeviceCountToStore > 0)]),
         [call], Ok(Racing))
  }

  /** `startScan` throws "Scan already started" without calling the driver; else
      the list is cleared before the driver is called, and the flag is set only
      when the driver's call returned; with neither a duration nor a cap it
      returns at once and the scan keeps running. */
  lemma StartSpec(st: Scanner, rejected: bool)
    ensures var o := StartOutcome(st, rejected);
      && (st.scanStarted ==> o == (st, [], Err(ScanAlreadyStarted)))
      && (!st.scanStarted ==>
            && o.0.discovered == [] && o.1 == [Call.StartScan(st.scanOptions)]
            && (o.0.scanStarted <==> !rejected)
            && (o.2 == Ok(Returned) <==> !rejected && st.scanMillis <= 0 && st.maxDeviceCountToStore <= 0)
            && (o.2 == Ok(Racing) <==> !rejected && (st.scanMillis > 0 || st.maxDeviceCountToStore > 0))
            && (o.2 == Ok(Racing) ==> |o.0.races| == |st.races| + 1))
  {
  }

  /** The end of a `startScan` whose race branch resolved: it leaves the race,
      calls `stopScan()`, and gives the devices only when that returned true;
      `undefined` is `None`. */
  function EndOutcome(st: Scanner, i: nat, rejected: bool): (Scanner, seq<Call>, Result<Option<seq<ScanResult>>, Failure>)
    requires i < |st.races|
  {
    var left := st.(races := st.races[..i] + st.races[i + 1..]);
    var o := StopOutcome(left, rejected, false);
    (o.0, o.1,
     if o.2.Err? then Err(o.2.error) else if o.2.value then Ok(Some(o.0.discovered)) else Ok(None))
  }

  /** A race that ends on a running scan stops it (unless the driver rejects)
      and gives the list as it stands; one that ends on a stopped scan (stopped
      by another caller) gives nothing and calls nothing. */
  lemma EndSpec(st: Scanner, i: nat, rejected: bool)
    requires i < |st.races|
    ensures var o := EndOutcome(st, i, rejected);
      && |o.0.races| == |st.races| - 1
      && (st.scanStarted && !rejected ==> o == (st.(scanStarted := false, races := o.0.races), [Call.StopScan],
                                                  Ok(Some(st.discovered))))
      && (st.scanStarted && rejected ==> o.2 == Err(Rejected(Call.StopScan)) && o.0.scanStarted)
      && (!st.scanStarted ==> o.1 == [] && o.2 == Ok(None))
  {
  }

  class Bluetooth {
    const driver: Driver
    const allowDuplicates: bool
    var discovered: seq<ScanResult>
    var maxDeviceCountToStore: int
    var scanMillis: int
    var scanMinMillis: int
    var scanOptions: nat
    var scanStarted: bool
    var races: seq<Race>

    /** The list never holds a device id twice, since duplicates are never
        allowed (`__allowDuplicates` starts false and has no setter). */
    ghost predicate Valid()
      reads this, driver
    {
      driver.Valid() && !allowDuplicates && DistinctIds(discovered)
    }

    function State(): Scanner
      reads this
    {
      Scanner(discovered, maxDeviceCountToStore, scanMillis, scanMinMillis, scanOptions, scanStarted, races)
    }

    constructor (driver: Driver)
      requires driver.Valid()
      ensures Valid() && this.driver == driver
      ensures State() == Scanner([], -1, 5000, 2000, 0, false, [])
    {
      this.driver := driver;
      allowDuplicates := false;
      discovered := [];
      maxDeviceCountToStore := -1;
      scanMillis, scanMinMillis := 5000, 2000;
      scanOptions := 0;
      scanStarted := false;
      races := [];
    }

    /** `getDiscoveredDevices`: a copy of the list; the list is a value here, so
        what the caller does with the copy cannot reach the list. */
    method GetDiscoveredDevices() returns (devices: seq<ScanResult>)
      requires Valid()
      ensures devices == discovered && DistinctIds(devices)
    {
      devices := discovered;
    }

    method SetMaxDeviceCountToStore(count: int)
      requires Valid()
      modifies this
      ensures Valid()
      ensures State() == old(State()).(maxDeviceCountToStore := count)
    {
      maxDeviceCountToStore := count;
    }

    method SetScanMinMillis(millis: int)
      requires Valid()
      modifies this
      ensures Valid()
      ensures State() == old(State()).(scanMinMillis := millis)
    {
      scanMinMillis := millis;
    }

    method SetScanOptions(options: nat)
      requires Valid()
      modifies this
      ensures Valid()
      ensures State() == old(State()).(scanOptions := options)
    {
      scanOptions := options;
    }

    /** `setScanMillis`, clamped against the current minimum. */
    method SetScanMillis(millis: int)
      requires Valid()
      modifies this
      ensures Valid()
      ensures State() == old(State()).(scanMillis := ClampScanMillis(millis, scanMinMillis))
    {
      scanMillis := if millis < 0 then millis else Max(millis, scanMinMillis);
    }

    /** `__onScanResult(data)`: the `for` loop over the reported results, which
        stops once the list length equals the cap. */
    method OnScanResult(results: seq<ScanResult>)
      requires Valid()
      modifies this
      ensures Valid()
      ensures State() == old(State()).(discovered := Admit(old(discovered), results, maxDeviceCountToStore, allowDuplicates))
    {
      ghost var goal := Admit(discovered, results, maxDeviceCountToStore, allowDuplicates);
      AdmitDistinct(discovered, results, maxDeviceCountToStore);
      var i := 0;
      while i < |results|
        invariant 0 <= i <= |results|
        invariant Admit(discovered, results[i..], maxDeviceCountToStore, allowDuplicates) == goal
        invariant DistinctIds(discovered)
        invariant State() == old(State()).(discovered := discovered)
        decreases |results| - i
      {
        if |discovered| == maxDeviceCountToStore {
          break;
        }
        assert results[i..][1..] == results[i + 1..];
        var result := results[i];
        var add := allowDuplicates;
        if !add {
          var found := Contains(discovered, result.deviceId);
          add := !found;
        }
        if add {
          AdmitDistinct(discovered, results[i..], maxDeviceCountToStore);
          discovered := discovered + [result];
        }
        i := i + 1;
      }
    }

    /** `__discoveredDevices.find(scanResult => scanResult.device.id === id)`. */
    static method Contains(stored: seq<ScanResult>, id: Uuid) returns (found: bool)
      ensures found <==> Known(stored, id)
    {
      var j := 0;
      while j < |stored|
        invariant 0 <= j <= |stored|
        invariant forall m :: 0 <= m < j ==> stored[m].deviceId != id
      {
        if stored[j].deviceId == id {
          return true;
        }
        j := j + 1;
      }
      return false;
    }

    /** `stopScan(throwIfStopped)`. */
    method StopScan(throwIfStopped: bool) returns (res: Result<bool, Failure>)
      requires Valid()
      modifies this, driver
      ensures Valid()
      ensures var o := StopOutcome(old(State()), driver.rejects(|old(driver.log)|, Call.StopScan), throwIfStopped);
        State() == o.0 && driver.log == old(driver.log) + o.1 && res == o.2
    {
      if !scanStarted {
        if throwIfStopped {
          return Err(ScanAlreadyStopped);
        }
        return Ok(false);
      }
      var ok := driver.Invoke(Call.StopScan);
      if !ok {
        return Err(Rejected(Call.StopScan));
      }
      scanStarted := false;
      res := Ok(true);
    }

    /** `startScan()` up to its race. */
    method StartScan() returns (res: Result<Started, Failure>)
      requires Valid()
      modifies this, driver
      ensures Valid()
      ensures var o := StartOutcome(old(State()), driver.rejects(|old(driver.log)|, Call.StartScan(old(scanOptions))));
        State() == o.0 && driver.log == old(driver.log) + o.1 && res == o.2
    {
      if scanStarted {
        return Err(ScanAlreadyStarted);
      }
      discovered := [];
      var ok := driver.Invoke(Call.StartScan(scanOptions));
      if !ok {
        return Err(Rejected(Call.StartScan(scanOptions)));
      }
      scanStarted := true;
      if scanMillis > 0 || maxDeviceCountToStore > 0 {
        races := races + [Race(scanMillis > 0, maxDeviceCountToStore > 0)];
        return Ok(Racing);
      }
      return Ok(Returned);
    }

    /** Branch `branch` of the race of the `i`-th waiting `startScan` resolves:
        the rest of `startScan`. */
    method EndRace(i: nat, branch: Branch) returns (res: Result<Option<seq<ScanResult>>, Failure>)
      requires Valid() && i < |races| && CanWin(races[i], branch, State())
      modifies this, driver
      ensures Valid()
      ensures var o := EndOutcome(old(State()), i, driver.rejects(|old(driver.log)|, Call.StopScan));
        State() == o.0 && driver.log == old(driver.log) + o.1 && res == o.2
    {
      races := races[..i] + races[i + 1..];
      var stopped := StopScan(false);
      if stopped.Err? {
        return Err(stopped.error);
      }
      if stopped.value {
        var devices := GetDiscoveredDevices();
        return Ok(Some(devices));
      }
      return Ok(None);
    }
  }
}
