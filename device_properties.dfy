/** What the device session promises across its operations: the one-way shutdown
    latch and the guard it puts in front of the public operations, the event
    filter and the connection flags, the completion path, the shape of a chunked
    write and the notification table. Each lemma is about the outcome functions
    of `DeviceSession.BluetoothDevice`, which its methods are proved to follow. */
module DeviceProperties {
  import opened Wrappers
  import opened Gatt
  import opened DeviceSession
  import Chunking
  import Notifications

  /** The queue a completion of `kind` does not touch. */
  function Other(kind: Kind): Kind
  {
    if kind == Read then Kind.Write else Read
  }

  /** The queue kind an event completes, if it is a completion. */
  function CompletedKind(name: EventName): Option<Kind>
  {
    match name
    case CharacteristicRead => Some(Read)
    case DescriptorRead => Some(Read)
    case CharacteristicWritten => Some(Kind.Write)
    case DescriptorWritten => Some(Kind.Write)
    case _ => None
  }

  /** Everything but the queues, the timers and the failures is unchanged, and the
      failures only grow. */
  ghost predicate Bookkeeping(st: Session, st': Session)
  {
    && st'.connected == st.connected
    && st'.servicesDiscovered == st.servicesDiscovered
    && st'.shutdownRequested == st.shutdownRequested
    && st'.connectionOptions == st.connectionOptions
    && st'.notified == st.notified
    && st'.delivered == st.delivered
    && st'.listening == st.listening
    && st'.innerListening == st.innerListening
    && st'.draining == st.draining
    && st.failures <= st'.failures
  }

  /** A submission touches its own queue and the timers only. */
  lemma SubmitLeavesTheRest(d: BluetoothDevice, st: Session, k: nat, kind: Kind, r: Request, p: Payload)
    ensures var o := d.SubmitOutcome(st, k, kind, r, p);
      && o.0.Queue(Other(kind)) == st.Queue(Other(kind))
      && Bookkeeping(st, o.0) && o.0.failures == st.failures
  {
    var call := DispatchCall(d.id, kind, r, p);
    if |st.Queue(kind)| > 0 {
      SubmitBusy(d, st, k, kind, r, p);
    } else if !d.driver.rejects(k, call) {
      SubmitIdle(d, st, k, kind, r, p);
    }
  }

  lemma SubmitBusy(d: BluetoothDevice, st: Session, k: nat, kind: Kind, r: Request, p: Payload)
    requires |st.Queue(kind)| > 0
    ensures var o := d.SubmitOutcome(st, k, kind, r, p);
      && o.0.Queue(Other(kind)) == st.Queue(Other(kind))
      && Bookkeeping(st, o.0) && o.0.failures == st.failures
  {
    var st1 := st.WithQueue(kind, st.Queue(kind) + [r]);
    assert d.SubmitOutcome(st, k, kind, r, p).0 == st1;
    assert st1.Queue(Other(kind)) == st.Queue(Other(kind));
  }

  lemma SubmitIdle(d: BluetoothDevice, st: Session, k: nat, kind: Kind, r: Request, p: Payload)
    requires |st.Queue(kind)| == 0 && !d.driver.rejects(k, DispatchCall(d.id, kind, r, p))
    ensures var o := d.SubmitOutcome(st, k, kind, r, p);
      && o.0.Queue(Other(kind)) == st.Queue(Other(kind))
      && Bookkeeping(st, o.0) && o.0.failures == st.failures
  {
    var a := st.Armed(r.timeout > 0);
    ArmedKeeps(st, r.timeout > 0);
    WithQueueKeeps(a, kind, [r]);
    assert d.SubmitOutcome(st, k, kind, r, p).0 == a.WithQueue(kind, [r]);
  }

  /** Arming the timer touches the timers only. */
  lemma ArmedKeeps(st: Session, arm: bool)
    ensures var a := st.Armed(arm);
      && Bookkeeping(st, a) && a.failures == st.failures
      && a.readQueue == st.readQueue && a.writeQueue == st.writeQueue
  {
    if arm {
      var a := st.(timerCount := st.timerCount + 1, timeoutId := st.timerCount + 1,
                   timers := st.timers + {st.timerCount + 1});
      assert st.Armed(arm) == a;
    }
  }

  /** Replacing one queue leaves the other and the bookkeeping alone. */
  lemma WithQueueKeeps(st: Session, kind: Kind, q: seq<Request>)
    ensures var st1 := st.WithQueue(kind, q);
      && Bookkeeping(st, st1) && st1.failures == st.failures
      && st1.Queue(kind) == q && st1.Queue(Other(kind)) == st.Queue(Other(kind))
  {
    if kind == Read {
      assert st.WithQueue(kind, q) == st.(readQueue := q);
    } else {
      assert st.WithQueue(kind, q) == st.(writeQueue := q);
    }
  }

  /** A completion touches its own queue and the timers only. */
  lemma CompleteLeavesTheRest(d: BluetoothDevice, st: Session, k: nat, kind: Kind, p: Payload)
    ensures var o := d.CompleteOutcome(st, k, kind, p);
      && o.0.Queue(Other(kind)) == st.Queue(Other(kind))
      && Bookkeeping(st, o.0) && o.0.failures == st.failures
  {
    var q := st.Queue(kind);
    if |q| > 0 {
      var st1 := st.WithQueue(kind, q[1..]).Cleared();
      ShiftLeavesTheRest(st, kind, q[1..]);
      if |q| == 1 {
        assert d.CompleteOutcome(st, k, kind, p).0 == st1;
      } else if d.driver.rejects(k, DispatchCall(d.id, kind, q[1], p)) {
        assert d.CompleteOutcome(st, k, kind, p).0 == st1;
      } else {
        var a := st1.Armed(q[1].timeout > 0);
        assert d.CompleteOutcome(st, k, kind, p).0 == a;
        assert a.Queue(Other(kind)) == st1.Queue(Other(kind));
        assert Bookkeeping(st1, a) && a.failures == st1.failures;
      }
    }
  }

  lemma ShiftLeavesTheRest(st: Session, kind: Kind, q: seq<Request>)
    ensures var st1 := st.WithQueue(kind, q).Cleared();
      && st1.Queue(Other(kind)) == st.Queue(Other(kind))
      && Bookkeeping(st, st1) && st1.failures == st.failures
  {
    var st0 := if kind == Read then st.(readQueue := q) else st.(writeQueue := q);
    assert st.WithQueue(kind, q) == st0;
    var st1 := if st0.timeoutId != 0 then st0.(timers := st0.timers - {st0.timeoutId}, timeoutId := 0) else st0;
    assert st0.Cleared() == st1;
    if kind == Read {
      assert st1.writeQueue == st.writeQueue;
    } else {
      assert st1.readQueue == st.readQueue;
    }
  }

  /** Once the latch is set, every public operation throws before it calls the
      driver or changes the session, and a second shutdown throws too. */
  lemma ShutdownGuards(d: BluetoothDevice, st: Session, k: nat, c: Call, kind: Kind, r: Request, p: Payload,
                       service: Uuid, characteristic: Uuid, enable: bool, options: Option<nat>)
    requires st.shutdownRequested
    ensures var refused: (Session, seq<Call>, Result<(), Failure>) := (st, [], Err(ShutdownRequested(d.id)));
      && d.PassOutcome(st, k, c) == refused
      && d.OpenOutcome(st, k) == refused
      && d.Guard(st, d.SubmitOutcome(st, k, kind, r, p)) == refused
      && d.SetNotificationOutcome(st, k, service, characteristic, enable, options) == refused
      && d.ShutdownOutcome(st, k) == refused
  {
  }

  /** `shutdown` sets the latch, removes the listeners, and never throws a
      driver error: those go to the failure handler. */
  lemma ShutdownLatch(d: BluetoothDevice, st: Session, k: nat)
    ensures var o := d.ShutdownOutcome(st, k);
      && o.0.shutdownRequested && (!st.shutdownRequested ==> !o.0.listening)
      && o.2 == (if st.shutdownRequested then Err(ShutdownRequested(d.id)) else Ok(()))
      && st.failures <= o.0.failures
  {
    if !st.shutdownRequested {
      var st1 := st.(shutdownRequested := true, listening := false);
      if st.connected {
        ConnectedShutdownKeeps(d, st1, k);
        assert d.ShutdownOutcome(st, k).0 == d.ConnectedShutdown(st1, k).0;
      } else {
        var st2 := st1.(innerListening := false);
        TeardownDisconnectedKeeps(d, st2, k);
        assert d.ShutdownOutcome(st, k).0 == d.TeardownDisconnected(st2, k).0;
      }
    }
  }

  /** No event clears the latch. */
  lemma LatchStays(d: BluetoothDevice, st: Session, k: nat, name: EventName, eventId: Uuid, error: bool,
                   nextRead: Payload, nextWrite: Payload)
    ensures d.EventOutcome(st, k, name, eventId, error, nextRead, nextWrite).0.shutdownRequested == st.shutdownRequested
  {
    if st.innerListening && eventId == d.id {
      EventKeepsLatch(d, st, k, name, error, nextRead, nextWrite);
      var h := d.HandleOutcome(st, k, name, error, nextRead, nextWrite);
      DeliverKeeps(h.0, name, error, h.2);
      assert d.EventOutcome(st, k, name, eventId, error, nextRead, nextWrite).0 == h.0.Deliver(name, error, h.2);
    }
  }

  /** Nor does the end of the shutdown wait. */
  lemma DrainKeepsLatch(d: BluetoothDevice, st: Session, k: nat)
    ensures d.DrainedOutcome(st, k).0.shutdownRequested == st.shutdownRequested
  {
    if st.draining {
      TeardownConnectedKeeps(d, st.(draining := false), k);
    }
  }

  lemma EventKeepsLatch(d: BluetoothDevice, st: Session, k: nat, name: EventName, error: bool,
                        nextRead: Payload, nextWrite: Payload)
    ensures d.HandleOutcome(st, k, name, error, nextRead, nextWrite).0.shutdownRequested == st.shutdownRequested
  {
    match name
    case Connected =>
      var st1 := st.(connected := !error);
      if !error && st.connectionOptions.autoDiscoverServices {
        var o := d.PassOutcome(st1, k, Call.DiscoverServices(d.id, st.connectionOptions.autoDiscoverServicesUseCache));
        assert o.0 == st1;
        NoteKeeps(o.0, o.2);
      }
    case Disconnected =>
      var st1 := st.(connected := false, servicesDiscovered := false, readQueue := [], writeQueue := []);
      if st.shutdownRequested && d.platform == Android {
        NoteKeeps(st1.(innerListening := false), d.Outcome(k, Call.CloseGatt(d.id)));
      }
    case ServicesDiscovered =>
    case OtherEvent =>
    case _ =>
      var kind := CompletedKind(name).value;
      var p := if kind == Read then nextRead else nextWrite;
      CompleteLeavesTheRest(d, st, k, kind, p);
      var o := d.CompleteOutcome(st, k, kind, p);
      NoteKeeps(o.0, o.2);
      assert d.HandleOutcome(st, k, name, error, nextRead, nextWrite).0 == o.0.Note(o.2);
  }

  /** Reporting to the failure handler only adds the error. */
  lemma NoteKeeps<T>(st: Session, out: Result<T, Failure>)
    ensures var st1 := st.Note(out);
      && Bookkeeping(st, st1) && st1.readQueue == st.readQueue && st1.writeQueue == st.writeQueue
      && st1.failures == st.failures + (if out.Err? then [out.error] else [])
  {
    if out.Err? {
      var st1 := st.(failures := st.failures + [out.error]);
      assert st.Note(out) == st1;
      assert st.failures <= st1.failures;
    } else {
      assert st.failures + [] == st.failures;
    }
  }

  /** The teardown of a disconnected device changes only the failures. */
  lemma TeardownDisconnectedKeeps(d: BluetoothDevice, st: Session, k: nat)
    ensures var o := d.TeardownDisconnected(st, k);
      && Bookkeeping(st, o.0) && o.0.readQueue == st.readQueue && o.0.writeQueue == st.writeQueue
  {
    var disconnect, close := Call.Disconnect(d.id), Call.CloseGatt(d.id);
    if st.connectionOptions.invokeBTGattDisconnect && d.platform == Android {
      if d.driver.rejects(k, disconnect) {
        NoteKeeps(st, d.Outcome(k, disconnect));
      } else {
        NoteKeeps(st, d.Outcome(k + 1, close));
      }
    } else {
      NoteKeeps(st, d.Outcome(k, close));
    }
  }

  /** The teardown of a connected device keeps the latch and the listeners and
      only adds failures. */
  lemma TeardownConnectedKeeps(d: BluetoothDevice, st: Session, k: nat)
    ensures var o := d.TeardownConnected(st, k);
      && o.0.shutdownRequested == st.shutdownRequested && o.0.listening == st.listening
      && o.0.draining == st.draining && st.failures <= o.0.failures
  {
    var disconnect, close := Call.Disconnect(d.id), Call.CloseGatt(d.id);
    if d.platform == IOS {
      NoteKeeps(st, d.Outcome(k, close));
    } else if st.connectionOptions.invokeBTGattDisconnect {
      NoteKeeps(st, d.Outcome(k, disconnect));
    } else {
      NoteKeeps(st.(innerListening := false), d.Outcome(k, close));
    }
  }

  /** The connected branch of `shutdown` keeps the latch and the listeners as
      it found them, only adds failures, and keeps waiting once it waits. */
  lemma ConnectedShutdownKeeps(d: BluetoothDevice, st: Session, k: nat)
    ensures var o := d.ConnectedShutdown(st, k);
      && o.0.shutdownRequested == st.shutdownRequested && o.0.listening == st.listening
      && st.failures <= o.0.failures
      && (|st.readQueue| > 0 || |st.writeQueue| > 0 ==> o.0.draining)
  {
    VisitingKeeps(d, st, k, Notifications.Pairs(st.notified));
  }

  /** `ConnectedShutdownKeeps` for any visiting order. */
  lemma VisitingKeeps(d: BluetoothDevice, st: Session, k: nat, pairs: seq<(Uuid, Uuid)>)
    ensures var o := d.ShutdownVisiting(st, k, pairs);
      && o.0.shutdownRequested == st.shutdownRequested && o.0.listening == st.listening
      && st.failures <= o.0.failures
      && (|st.readQueue| > 0 || |st.writeQueue| > 0 ==> o.0.draining)
  {
    var disabled := d.DisableAll(k, pairs);
    var st1 := st.(failures := st.failures + disabled.1);
    var k1 := k + |disabled.0|;
    var settled := d.Settle(st1, k1);
    if |st1.readQueue| > 0 || |st1.writeQueue| > 0 {
      assert settled.0 == st1.(draining := true);
    } else {
      TeardownConnectedKeeps(d, st1, k1);
    }
    var k2 := k1 + |settled.1|;
    var continued := d.Continue(settled.0, k2, disabled.2);
    if d.platform == Android {
      CccdAllKeeps(d, settled.0, k2, disabled.2);
    } else {
      assert continued.0 == settled.0;
    }
    assert d.ShutdownVisiting(st, k, pairs).0 == continued.0;
  }

  /** The descriptor writes after the disabling calls change only the write
      queue, the timers and the failures. */
  lemma {:induction false} CccdAllKeeps(d: BluetoothDevice, st: Session, k: nat, pairs: seq<(Uuid, Uuid)>)
    ensures Bookkeeping(st, d.CccdAll(st, k, pairs).0)
    decreases |pairs|
  {
    if pairs != [] {
      var before := d.CccdAll(st, k, pairs[..|pairs| - 1]);
      CccdAllKeeps(d, st, k, pairs[..|pairs| - 1]);
      var step := d.CccdStep(before.0, k + |before.1|, pairs[|pairs| - 1]);
      CccdStepKeeps(d, before.0, k + |before.1|, pairs[|pairs| - 1]);
      assert d.CccdAll(st, k, pairs).0 == step.0;
      BookkeepingTrans(st, before.0, step.0);
    }
  }

  /** One descriptor write changes only the write queue, the timers and the failures. */
  lemma CccdStepKeeps(d: BluetoothDevice, st: Session, k: nat, p: (Uuid, Uuid))
    ensures Bookkeeping(st, d.CccdStep(st, k, p).0)
  {
    var r := CccdRequest(p.0, p.1, false);
    SubmitLeavesTheRest(d, st, k, Kind.Write, r, CccdPayload(false));
    var o := d.SubmitOutcome(st, k, Kind.Write, r, CccdPayload(false));
    NoteKeeps(o.0, o.2);
    assert d.CccdStep(st, k, p).0 == o.0.Note(o.2);
    BookkeepingTrans(st, o.0, o.0.Note(o.2));
  }

  lemma BookkeepingTrans(a: Session, b: Session, c: Session)
    requires Bookkeeping(a, b) && Bookkeeping(b, c)
    ensures Bookkeeping(a, c)
  {
  }

  /** Calling the listeners only records the call. */
  lemma DeliverKeeps(st: Session, name: EventName, error: bool, rw: Option<bool>)
    ensures st.Deliver(name, error, rw) ==
      st.(delivered := st.delivered + if st.listening then [Delivery(name, error, rw)] else [])
  {
    if !st.listening {
      assert st.delivered + [] == st.delivered;
    }
  }

  /** `_innerListener` ignores events about another device, and every event
      once shutdown removed it. */
  lemma EventFilter(d: BluetoothDevice, st: Session, k: nat, name: EventName, eventId: Uuid, error: bool,
                    nextRead: Payload, nextWrite: Payload)
    requires eventId != d.id || !st.innerListening
    ensures d.EventOutcome(st, k, name, eventId, error, nextRead, nextWrite) == (st, [])
  {
  }

  /** CONNECTED for this device: `connected` becomes the opposite of the error
      flag, nothing else but the failures and the listeners' record changes, and
      a successful connection asks for the services when the options say so. */
  lemma ConnectedEvent(d: BluetoothDevice, st: Session, k: nat, error: bool, nextRead: Payload, nextWrite: Payload)
    requires st.innerListening
    ensures var o := d.EventOutcome(st, k, Connected, d.id, error, nextRead, nextWrite);
      var discover := !error && st.connectionOptions.autoDiscoverServices && !st.shutdownRequested;
      && o.0.connected == !error
      && o.0.servicesDiscovered == st.servicesDiscovered
      && o.0.readQueue == st.readQueue && o.0.writeQueue == st.writeQueue
      && o.0.delivered == st.delivered + (if st.listening then [Delivery(Connected, error, None)] else [])
      && o.1 == (if discover then [Call.DiscoverServices(d.id, st.connectionOptions.autoDiscoverServicesUseCache)] else [])
  {
    var c := d.ConnectedOutcome(st, k, error);
    ConnectedHandled(d, st, k, error);
    assert d.HandleOutcome(st, k, Connected, error, nextRead, nextWrite) == (c.0, c.1, None);
    assert d.EventOutcome(st, k, Connected, d.id, error, nextRead, nextWrite) == (c.0.Deliver(Connected, error, None), c.1);
    DeliverKeeps(c.0, Connected, error, None);
  }

  lemma ConnectedHandled(d: BluetoothDevice, st: Session, k: nat, error: bool)
    ensures var c := d.ConnectedOutcome(st, k, error);
      var discover := !error && st.connectionOptions.autoDiscoverServices && !st.shutdownRequested;
      && c.0.connected == !error && c.0.servicesDiscovered == st.servicesDiscovered
      && c.0.readQueue == st.readQueue && c.0.writeQueue == st.writeQueue
      && c.0.delivered == st.delivered && c.0.listening == st.listening
      && c.1 == (if discover then [Call.DiscoverServices(d.id, st.connectionOptions.autoDiscoverServicesUseCache)] else [])
  {
    var st1 := st.(connected := !error);
    if !error && st.connectionOptions.autoDiscoverServices {
      var o := d.PassOutcome(st1, k, Call.DiscoverServices(d.id, st.connectionOptions.autoDiscoverServicesUseCache));
      assert o.0 == st1;
      NoteKeeps(o.0, o.2);
      assert d.ConnectedOutcome(st, k, error) == (o.0.Note(o.2), o.1);
    }
  }

  /** DISCONNECTED for this device: both flags drop and both queues are emptied;
      after a shutdown the inner listener goes and, on Android, the connection
      is closed. */
  lemma DisconnectedEvent(d: BluetoothDevice, st: Session, k: nat, error: bool, nextRead: Payload, nextWrite: Payload)
    requires st.innerListening
    ensures var o := d.EventOutcome(st, k, Disconnected, d.id, error, nextRead, nextWrite);
      && !o.0.connected && !o.0.servicesDiscovered
      && o.0.readQueue == [] && o.0.writeQueue == []
      && o.0.innerListening == !st.shutdownRequested
      && o.0.delivered == st.delivered + (if st.listening then [Delivery(Disconnected, error, None)] else [])
      && o.1 == (if st.shutdownRequested && d.platform == Android then [Call.CloseGatt(d.id)] else [])
  {
    var st1 := st.(connected := false, servicesDiscovered := false, readQueue := [], writeQueue := []);
    var c := d.DisconnectedOutcome(st, k);
    if st.shutdownRequested && d.platform == Android {
      NoteKeeps(st1.(innerListening := false), d.Outcome(k, Call.CloseGatt(d.id)));
    }
    assert !c.0.connected && !c.0.servicesDiscovered && c.0.readQueue == [] && c.0.writeQueue == [];
    assert c.0.innerListening == !st.shutdownRequested && c.0.delivered == st.delivered;
    assert d.HandleOutcome(st, k, Disconnected, error, nextRead, nextWrite) == (c.0, c.1, None);
    assert d.EventOutcome(st, k, Disconnected, d.id, error, nextRead, nextWrite) == (c.0.Deliver(Disconnected, error, None), c.1);
    DeliverKeeps(c.0, Disconnected, error, None);
  }

  /** SERVICES_DISCOVERED for this device: `servicesDiscovered` becomes the
      opposite of the error flag and the driver is not called. */
  lemma ServicesDiscoveredEvent(d: BluetoothDevice, st: Session, k: nat, error: bool, nextRead: Payload,
                                nextWrite: Payload)
    requires st.innerListening
    ensures var o := d.EventOutcome(st, k, ServicesDiscovered, d.id, error, nextRead, nextWrite);
      && o.0.servicesDiscovered == !error && o.0.connected == st.connected
      && o.0.readQueue == st.readQueue && o.0.writeQueue == st.writeQueue
      && o.1 == []
  {
    DeliverKeeps(st.(servicesDiscovered := !error), ServicesDiscovered, error, None);
  }

  /** What a completion throws, if anything: on an empty queue reading the
      head fails, and the dispatch of the next request may be rejected. */
  function Thrown(d: BluetoothDevice, q: seq<Request>, k: nat, kind: Kind, p: Payload): Option<Failure>
  {
    if |q| == 0 then Some(NothingInFlight(kind))
    else if |q| > 1 && d.driver.rejects(k, DispatchCall(d.id, kind, q[1], p)) then
      Some(Rejected(DispatchCall(d.id, kind, q[1], p)))
    else None
  }

  /** A completion of `kind` as `_innerListener` handles it: the head leaves, the
      request behind it is dispatched, what is thrown goes to the failure
      handler, and the head's `lastChunk` is passed on when nothing was thrown. */
  lemma CompletionHandledSpec(d: BluetoothDevice, st: Session, k: nat, kind: Kind, p: Payload)
    ensures var q := st.Queue(kind);
      var o := d.CompletionHandled(st, k, kind, p);
      var thrown := Thrown(d, q, k, kind, p);
      && o.0.Queue(Other(kind)) == st.Queue(Other(kind))
      && o.0.Queue(kind) == (if |q| == 0 then [] else q[1..])
      && o.1 == (if |q| > 1 then [DispatchCall(d.id, kind, q[1], p)] else [])
      && o.0.failures == st.failures + (if thrown.Some? then [thrown.value] else [])
      && o.0.delivered == st.delivered && o.0.listening == st.listening
      && o.2 == (if thrown.None? then Some(q[0].lastChunk) else None)
  {
    var q := st.Queue(kind);
    var c := d.CompleteOutcome(st, k, kind, p);
    CompleteLeavesTheRest(d, st, k, kind, p);
    if |q| > 0 {
      d.CompleteFollowsQueueModel(st, k, kind, p);
    }
    if |q| == 0 {
      assert c.2 == Err(NothingInFlight(kind));
    } else if |q| > 1 && d.driver.rejects(k, DispatchCall(d.id, kind, q[1], p)) {
      assert c.2 == Err(Rejected(DispatchCall(d.id, kind, q[1], p)));
    } else {
      assert c.2 == Ok(q[0].lastChunk);
    }
    NoteKeeps(c.0, c.2);
    assert d.CompletionHandled(st, k, kind, p) == (c.0.Note(c.2), c.1, if c.2.Ok? then Some(c.2.value) else None);
  }

  /** A read or write completion event for this device: the completion above,
      and the listeners are called with the `lastChunk` it passes on. */
  lemma CompletionEvent(d: BluetoothDevice, st: Session, k: nat, name: EventName, error: bool,
                        nextRead: Payload, nextWrite: Payload)
    requires st.innerListening && CompletedKind(name).Some?
    ensures var kind := CompletedKind(name).value;
      var p := if kind == Read then nextRead else nextWrite;
      var o := d.EventOutcome(st, k, name, d.id, error, nextRead, nextWrite);
      var h := d.CompletionHandled(st, k, kind, p);
      && o.0 == h.0.(delivered := st.delivered + if st.listening then [Delivery(name, error, h.2)] else [])
      && o.1 == h.1
  {
    var kind := CompletedKind(name).value;
    var p := if kind == Read then nextRead else nextWrite;
    CompletionHandledSpec(d, st, k, kind, p);
    var h := d.HandleOutcome(st, k, name, error, nextRead, nextWrite);
    assert h == d.CompletionHandled(st, k, kind, p);
    DeliverKeeps(h.0, name, error, h.2);
  }

  /** `shutdown` of a device that is not connected: the inner listener goes at
      once; on Android with `invokeBTGattDisconnect` it disconnects and, unless
      that fails, closes; otherwise it closes. Only the last call's error is
      reported, to the failure handler. */
  lemma ShutdownWhenDisconnected(d: BluetoothDevice, st: Session, k: nat)
    requires !st.shutdownRequested && !st.connected
    ensures var o := d.ShutdownOutcome(st, k);
      var disconnect, close := Call.Disconnect(d.id), Call.CloseGatt(d.id);
      var viaDisconnect := st.connectionOptions.invokeBTGattDisconnect && d.platform == Android;
      && o.2 == Ok(())
      && o.1 == (if !viaDisconnect then [close] else if d.driver.rejects(k, disconnect) then [disconnect]
                 else [disconnect, close])
      && var last := o.1[|o.1| - 1];
         o.0 == st.(shutdownRequested := true, listening := false, innerListening := false,
                    failures := st.failures + if d.driver.rejects(k + |o.1| - 1, last) then [Rejected(last)] else [])
  {
    var st2 := st.(shutdownRequested := true, listening := false, innerListening := false);
    var disconnect, close := Call.Disconnect(d.id), Call.CloseGatt(d.id);
    var o := d.TeardownDisconnected(st2, k);
    assert d.ShutdownOutcome(st, k) == (o.0, o.1, Ok(()));
    if st.connectionOptions.invokeBTGattDisconnect && d.platform == Android {
      if d.driver.rejects(k, disconnect) {
        assert o == (st2.Note(d.Outcome(k, disconnect)), [disconnect]);
        NoteRecords(d, st2, k, disconnect);
      } else {
        assert o == (st2.Note(d.Outcome(k + 1, close)), [disconnect, close]);
        NoteRecords(d, st2, k + 1, close);
      }
    } else {
      assert o == (st2.Note(d.Outcome(k, close)), [close]);
      NoteRecords(d, st2, k, close);
    }
  }

  /** Reporting the outcome of one driver call adds its rejection, if any. */
  lemma NoteRecords(d: BluetoothDevice, st: Session, k: nat, c: Call)
    ensures st.Note(d.Outcome(k, c)) == st.(failures := st.failures + if d.driver.rejects(k, c) then [Rejected(c)] else [])
  {
    if !d.driver.rejects(k, c) {
      assert st.failures + [] == st.failures;
    }
  }

  /** The call that ends a shutdown of a connected device. */
  function TeardownCall(d: BluetoothDevice, st: Session): Call
  {
    if d.platform != IOS && st.connectionOptions.invokeBTGattDisconnect then Call.Disconnect(d.id)
    else Call.CloseGatt(d.id)
  }

  /** `shutdown` of a connected device: the first calls disable every recorded
      notification, services in `Object.keys` order; with requests pending it then waits,
      otherwise the next call tears the connection down. */
  lemma ShutdownWhenConnected(d: BluetoothDevice, st: Session, k: nat)
    requires !st.shutdownRequested && st.connected
    ensures var o := d.ShutdownOutcome(st, k);
      var pairs := Notifications.Pairs(st.notified);
      var pending := |st.readQueue| > 0 || |st.writeQueue| > 0;
      && o.2 == Ok(())
      && |pairs| <= |o.1|
      && (forall i :: 0 <= i < |pairs| ==> o.1[i] == SetNotification(d.id, pairs[i].0, pairs[i].1, false, None))
      && (pending ==> o.0.draining)
      && (!pending ==> |pairs| < |o.1| && o.1[|pairs|] == TeardownCall(d, st))
  {
    var st1 := st.(shutdownRequested := true, listening := false);
    var c := d.ConnectedShutdown(st1, k);
    assert d.ShutdownOutcome(st, k) == (c.0, c.1, Ok(()));
    ConnectedShutdownCalls(d, st1, k);
    ConnectedShutdownKeeps(d, st1, k);
    assert TeardownCall(d, st1) == TeardownCall(d, st);
  }

  /** The calls of the connected branch: the disables first, in `Object.keys` order,
      then, with nothing pending, the teardown call. */
  lemma ConnectedShutdownCalls(d: BluetoothDevice, st: Session, k: nat)
    ensures var o := d.ConnectedShutdown(st, k);
      var pairs := Notifications.Pairs(st.notified);
      && |pairs| <= |o.1|
      && (forall i :: 0 <= i < |pairs| ==> o.1[i] == SetNotification(d.id, pairs[i].0, pairs[i].1, false, None))
      && (!(|st.readQueue| > 0 || |st.writeQueue| > 0) ==> |pairs| < |o.1| && o.1[|pairs|] == TeardownCall(d, st))
  {
    var pairs := Notifications.Pairs(st.notified);
    var disabled := d.DisableAll(k, pairs);
    d.DisableAllShape(k, pairs);
    var st2 := st.(failures := st.failures + disabled.1);
    var k1 := k + |disabled.0|;
    var settled := d.Settle(st2, k1);
    var k2 := k1 + |settled.1|;
    var continued := d.Continue(settled.0, k2, disabled.2);
    d.ConnectedShutdownSteps(st, k, pairs, disabled, st2, k1, settled, k2, continued);
    var calls := disabled.0 + settled.1 + continued.1;
    assert d.ConnectedShutdown(st, k).1 == calls;
    assert calls[..|pairs|] == disabled.0;
    if !(|st.readQueue| > 0 || |st.writeQueue| > 0) {
      assert settled.1 == [TeardownCall(d, st)];
      assert calls[|pairs|] == settled.1[0];
    }
  }

  /** The requests of a chunked write of `v`: one per piece of at most
      `chunkSize` elements, ceil(|v| / chunkSize) of them, in order, only the
      last marked as the last chunk; the pieces put together give `v`. */
  lemma ChunkedRequestsShape(service: Uuid, characteristic: Uuid, opts: WriteOptions, v: seq<int>, timeout: int,
                             copying: bool)
    requires opts.chunkSize.Some? && opts.chunkSize.value > 0
    ensures var size := opts.chunkSize.value;
      var pieces := Chunking.Chunks(v, size);
      var requests := ChunkRequests(service, characteristic, opts, timeout, pieces, copying);
      && |requests| == |pieces| == (|v| + size - 1) / size
      && Chunking.Concat(pieces) == v
      && (forall j :: 0 <= j < |requests| ==>
            && 0 < |pieces[j]| <= size
            && requests[j].body == ChunkBody(opts, pieces[j], copying)
            && requests[j].service == service && requests[j].characteristic == characteristic
            && requests[j].descriptor.None? && requests[j].timeout == timeout
            && (requests[j].lastChunk <==> j == |requests| - 1))
  {
    var size := opts.chunkSize.value;
    var pieces := Chunking.Chunks(v, size);
    Chunking.ChunksCount(v, size);
    Chunking.ChunksConcat(v, size);
    Chunking.ChunksSizes(v, size);
    ChunkRequestsLength(service, characteristic, opts, timeout, pieces, copying);
    forall j | 0 <= j < |pieces|
      ensures ChunkRequests(service, characteristic, opts, timeout, pieces, copying)[j] ==
              Request(service, characteristic, None, ChunkBody(opts, pieces[j], copying), timeout, j == |pieces| - 1)
    {
      ChunkRequestAt(service, characteristic, opts, timeout, pieces, copying, j);
    }
  }

  /** `setCharacteristicNotification` on the table: an enable that succeeded
      appends the characteristic under its service (creating the list), one that
      failed records nothing; a disable under a missing service throws before
      the driver is called, and otherwise one occurrence leaves the list, whose
      key goes when it empties, whatever the driver then does. No other service
      is touched, and the table stays well formed. */
  lemma SetNotificationTable(d: BluetoothDevice, st: Session, k: nat, service: Uuid, characteristic: Uuid,
                             enable: bool, options: Option<nat>)
    requires Notifications.WellFormed(st.notified) && !st.shutdownRequested
    ensures var o := d.SetNotificationOutcome(st, k, service, characteristic, enable, options);
      var before := Notifications.Lookup(st.notified, service);
      var t := o.0.notified;
      && Notifications.WellFormed(t)
      && (forall s' :: s' != service ==> Notifications.Lookup(t, s') == Notifications.Lookup(st.notified, s'))
      && (enable && o.2.Ok? ==>
            Notifications.Lookup(t, service) == Some((if before.Some? then before.value else []) + [characteristic]))
      && (enable && o.2.Err? ==> t == st.notified)
      && (!enable && before.None? ==> o == (st, [], Err(NoNotificationEntry(service))))
      && (!enable && before.Some? ==>
            var rest := Notifications.RemoveFirst(before.value, characteristic);
            Notifications.Lookup(t, service) == (if rest == [] then None else Some(rest)))
  {
    d.SetNotificationKeepsTable(st, k, service, characteristic, enable, options);
    var removed := Notifications.Disable(st.notified, service, characteristic);
    if enable {
      d.NotifyKeepsTable(st, k, service, characteristic, enable, options);
      Notifications.EnableSpec(st.notified, service, characteristic);
    } else {
      Notifications.DisableSpec(st.notified, service, characteristic);
      if removed.Ok? {
        d.NotifyKeepsTable(st.(notified := removed.value), k, service, characteristic, enable, options);
      }
    }
  }
}
