/** The per-device session of js/BluetoothDevice.js: connection flags, the two
    request queues with at most one request of each kind at the driver, chunked
    writes, the notification table and the one-way shutdown.

    Each public method and each driver event is one atomic step. The driver is a
    `Gatt.Driver`; the platform is a constant of the device; `_failureHandler`
    is represented by the list `failures` of what it received, and the external
    listeners by the list `delivered` of what they were called with. */
module DeviceSession {
  import opened Wrappers
  import opened Gatt
  import RequestQueue
  import Chunking
  import Notifications

  /** `_connectionOptions`. */
  datatype ConnectionOptions = ConnectionOptions(
    autoConnect: bool,
    autoDiscoverServices: bool,
    autoDiscoverServicesUseCache: bool,
    invokeBTGattConnect: bool,
    invokeBTGattDisconnect: bool)

  /** The object given to `setConnectionOptions`: a key that is absent or
      `undefined` is `None`, any other value is `Some` of its truthiness. */
  datatype OptionKeys = OptionKeys(
    autoConnect: Option<bool>,
    autoDiscoverServices: Option<bool>,
    autoDiscoverServicesUseCache: Option<bool>,
    invokeBTGattConnect: Option<bool>,
    invokeBTGattDisconnect: Option<bool>)

  function Or(o: Option<bool>, default: bool): bool
  {
    if o.Some? then o.value else default
  }

  /** The destructuring defaults of js/BluetoothDevice.js:157-171: a connection
      option is on when it is given as true, and otherwise when it is missing and
      is not `autoConnect`. */
  function WithDefaults(keys: OptionKeys): (o: ConnectionOptions)
    ensures o.autoConnect <==> keys.autoConnect == Some(true)
    ensures o.autoDiscoverServices <==> keys.autoDiscoverServices != Some(false)
    ensures o.autoDiscoverServicesUseCache <==> keys.autoDiscoverServicesUseCache != Some(false)
    ensures o.invokeBTGattConnect <==> keys.invokeBTGattConnect != Some(false)
    ensures o.invokeBTGattDisconnect <==> keys.invokeBTGattDisconnect != Some(false)
  {
    ConnectionOptions(
      Or(keys.autoConnect, false),
      Or(keys.autoDiscoverServices, true),
      Or(keys.autoDiscoverServicesUseCache, true),
      Or(keys.invokeBTGattConnect, true),
      Or(keys.invokeBTGattDisconnect, true))
  }

  /** A queued read or write; `descriptor` is present for descriptor operations. */
  datatype Request = Request(
    service: Uuid,
    characteristic: Uuid,
    descriptor: Option<Uuid>,
    body: Body,
    timeout: int,
    lastChunk: bool)

  /** The driver events the session listens to; `OtherEvent` stands for the rest
      of the gatt group (a characteristic change), which only reaches listeners. */
  datatype EventName =
    | Connected | Disconnected | ServicesDiscovered
    | CharacteristicRead | DescriptorRead | CharacteristicWritten | DescriptorWritten
    | OtherEvent

  /** One call of the external listeners: the event, and the `lastChunk` of the
      request a completion removed, when it returned one. */
  datatype Delivery = Delivery(name: EventName, error: bool, lastChunk: Option<bool>)

  /** The Client Characteristic Configuration descriptor (Bluetooth Core
      Specification, Vol 3, Part G, section 3.3.3.3). */
  const CccdUuid: Uuid := "00002902-0000-1000-8000-00805f9b34fb"

  /** The write by which Android switches notifications: `[+enable, 0]` to the
      configuration descriptor, with no timeout. */
  function CccdRequest(service: Uuid, characteristic: Uuid, enable: bool): Request
  {
    Request(service, characteristic, Some(CccdUuid),
      Fixed(CccdPayload(enable)), 0, true)
  }

  function CccdPayload(enable: bool): Payload
  {
    Data(SentArray([if enable then 1 else 0, 0]), None, 0)
  }

  /** The driver method a request goes to: `bt[operation + ("Descriptor" | "Characteristic")]`. */
  function DispatchCall(id: Uuid, kind: Kind, r: Request, p: Payload): Call
  {
    match (kind, r.descriptor)
    case (Read, None) => ReadCharacteristic(id, r.service, r.characteristic, p)
    case (Read, Some(d)) => ReadDescriptor(id, r.service, r.characteristic, d, p)
    case (Write, None) => WriteCharacteristic(id, r.service, r.characteristic, p)
    case (Write, Some(d)) => WriteDescriptor(id, r.service, r.characteristic, d, p)
  }

  /** Whether `writeCharacteristic` splits: a chunk size is set, the value is an
      array, and the array is longer than the chunk size. */
  predicate SplitsValue(v: Sent, chunkSize: Option<int>)
  {
    chunkSize.Some? && v.SentArray? && |v.elems| > chunkSize.value
  }

  /** What the `k`-th chunk request of a write holds: the caller's object itself
      as written (`copying` false), or a copy of it carrying only its own piece. */
  function ChunkBody(opts: WriteOptions, piece: seq<int>, copying: bool): Body
  {
    if copying then Fixed(Data(SentArray(piece), opts.chunkSize, opts.extra)) else Shared(opts)
  }

  /** The requests a chunked write queues, one per piece, only the last marked
      as the last chunk. */
  function ChunkRequests(service: Uuid, characteristic: Uuid, opts: WriteOptions, timeout: int,
                         pieces: seq<seq<int>>, copying: bool): seq<Request>
    decreases |pieces|
  {
    if pieces == [] then []
    else
      [Request(service, characteristic, None, ChunkBody(opts, pieces[0], copying), timeout, |pieces| == 1)]
      + ChunkRequests(service, characteristic, opts, timeout, pieces[1..], copying)
  }

  /** One request per piece. */
  lemma {:induction false} ChunkRequestsLength(service: Uuid, characteristic: Uuid, opts: WriteOptions, timeout: int,
                                               pieces: seq<seq<int>>, copying: bool)
    ensures |ChunkRequests(service, characteristic, opts, timeout, pieces, copying)| == |pieces|
    decreases |pieces|
  {
    if pieces != [] {
      ChunkRequestsLength(service, characteristic, opts, timeout, pieces[1..], copying);
    }
  }

  /** The `j`-th chunk request carries the `j`-th piece, and it alone is marked
      as the last chunk when it is the last one. */
  lemma {:induction false} ChunkRequestAt(service: Uuid, characteristic: Uuid, opts: WriteOptions, timeout: int,
                                          pieces: seq<seq<int>>, copying: bool, j: nat)
    requires j < |pieces|
    ensures var requests := ChunkRequests(service, characteristic, opts, timeout, pieces, copying);
      && |requests| == |pieces|
      && requests[j] == Request(service, characteristic, None, ChunkBody(opts, pieces[j], copying), timeout,
                                j == |pieces| - 1)
    decreases |pieces|
  {
    if j > 0 {
      ChunkRequestAt(service, characteristic, opts, timeout, pieces[1..], copying, j - 1);
    } else if |pieces| > 1 {
      ChunkRequestAt(service, characteristic, opts, timeout, pieces[1..], copying, 0);
    }
  }

  /** The length of the piece `splice(0, size)` takes off `v`. */
  function PieceLength(v: seq<int>, size: int): nat
    requires size > 0
  {
    if |v| <= size then |v| else size
  }

  /** The request of the piece cut off the front of `v`; it is the last chunk
      when nothing is left behind it. */
  function PieceRequest(service: Uuid, characteristic: Uuid, opts: WriteOptions, v: seq<int>, timeout: int,
                        copying: bool): Request
    requires opts.chunkSize.Some? && opts.chunkSize.value > 0
  {
    var n := PieceLength(v, opts.chunkSize.value);
    Request(service, characteristic, None, ChunkBody(opts, v[..n], copying), timeout, n == |v|)
  }

  /** What the driver receives for the piece cut off the front of `v`. */
  function PiecePayload(opts: WriteOptions, v: seq<int>): Payload
    requires opts.chunkSize.Some? && opts.chunkSize.value > 0
  {
    Data(SentArray(v[..PieceLength(v, opts.chunkSize.value)]), opts.chunkSize, opts.extra)
  }

  /** The requests of a chunked write are the request for the first piece, then
      those for the pieces of what is left. */
  lemma ChunkRequestsFirst(service: Uuid, characteristic: Uuid, opts: WriteOptions, v: seq<int>, timeout: int,
                           copying: bool)
    requires opts.chunkSize.Some? && opts.chunkSize.value > 0 && |v| > 0
    ensures var size := opts.chunkSize.value;
      && Chunking.Chunks(v, size)[0] == v[..PieceLength(v, size)]
      && ChunkRequests(service, characteristic, opts, timeout, Chunking.Chunks(v, size), copying)
         == [PieceRequest(service, characteristic, opts, v, timeout, copying)]
            + ChunkRequests(service, characteristic, opts, timeout, Chunking.Chunks(v[PieceLength(v, size)..], size), copying)
  {
    var size := opts.chunkSize.value;
    Chunking.ChunksTail(v, size);
    Chunking.ChunksEmpty(v[PieceLength(v, size)..], size);
  }

  /** One round of the chunking loop, on values: with the pieces of what is left
      being `rest[i..]`, the round cuts `rest[i]`, submits the `i`-th chunk
      request, and leaves `rest[i + 1..]`. */
  lemma PieceStep(service: Uuid, characteristic: Uuid, opts: WriteOptions, timeout: int, copying: bool,
                  rest: seq<seq<int>>, i: nat, before: seq<int>)
    requires opts.chunkSize.Some? && opts.chunkSize.value > 0 && |before| > 0
    requires i <= |rest| && Chunking.Chunks(before, opts.chunkSize.value) == rest[i..]
    ensures var size := opts.chunkSize.value;
      var n := PieceLength(before, size);
      var requests := ChunkRequests(service, characteristic, opts, timeout, rest, copying);
      && i < |rest| && i < |requests|
      && Chunking.Chunks(before[n..], size) == rest[i + 1..]
      && before[..n] == rest[i]
      && PieceRequest(service, characteristic, opts, before, timeout, copying) == requests[i]
      && requests[..i + 1] == requests[..i] + [requests[i]]
  {
    var size := opts.chunkSize.value;
    Chunking.ChunksTail(before, size);
    assert rest[i..][1..] == rest[i + 1..];
    Chunking.ChunksEmpty(before[PieceLength(before, size)..], size);
    ChunkRequestAt(service, characteristic, opts, timeout, rest, copying, i);
  }

  /** The caller's array a write object holds, if any. */
  function Owned(v: Value): set<object>
  {
    if v.Array? then {v.arr} else {}
  }

  /** The session's state as one value: every field of `BluetoothDevice` that
      its methods change. */
  datatype Session = Session(
    connected: bool,
    servicesDiscovered: bool,
    shutdownRequested: bool,
    connectionOptions: ConnectionOptions,
    readQueue: seq<Request>,
    writeQueue: seq<Request>,
    notified: Notifications.Table,
    failures: seq<Failure>,
    delivered: seq<Delivery>,
    listening: bool,
    innerListening: bool,
    timeoutId: nat,
    timers: set<nat>,
    timerCount: nat,
    timeoutHandlerSet: bool,
    timeoutSignals: nat,
    shutdownTimeout: int,
    draining: bool)
  {
    function Queue(kind: Kind): seq<Request>
    {
      if kind == Read then readQueue else writeQueue
    }

    function WithQueue(kind: Kind, q: seq<Request>): Session
    {
      if kind == Read then this.(readQueue := q) else this.(writeQueue := q)
    }

    /** `setTimeout` after a dispatch: a fresh timer, whose id overwrites the one
        field both queues share. */
    function Armed(arm: bool): Session
    {
      if arm then this.(timerCount := timerCount + 1, timeoutId := timerCount + 1,
                        timers := timers + {timerCount + 1})
      else this
    }

    /** Arming the timer and replacing a queue commute. */
    lemma ArmedWithQueue(kind: Kind, q: seq<Request>, arm: bool)
      ensures WithQueue(kind, q).Armed(arm) == Armed(arm).WithQueue(kind, q)
    {
    }

    /** Arming the timer does not touch the write queue. */
    lemma ArmedAfterWriteQueue(q: seq<Request>, q': seq<Request>, arm: bool)
      ensures this.(writeQueue := q).Armed(arm).(writeQueue := q') == Armed(arm).(writeQueue := q')
    {
      if arm {
        var a := this.(writeQueue := q).Armed(arm);
        assert a.timerCount == timerCount + 1 && a.timers == timers + {timerCount + 1};
      }
    }

    /** `clearTimeout` on a completion of either kind: whichever timer the shared
        field names is cancelled. */
    function Cleared(): Session
    {
      if timeoutId != 0 then this.(timers := timers - {timeoutId}, timeoutId := 0) else this
    }

    /** `_failureHandler(error)` when `out` is an error. */
    function Note<T>(out: Result<T, Failure>): Session
    {
      if out.Err? then this.(failures := failures + [out.error]) else this
    }

    /** `invokeListeners`, which reaches no one once shutdown removed the listeners. */
    function Deliver(name: EventName, error: bool, lastChunk: Option<bool>): Session
    {
      if listening then this.(delivered := delivered + [Delivery(name, error, lastChunk)]) else this
    }
  }

  class BluetoothDevice {
    const id: Uuid
    const platform: Platform
    const driver: Driver

    var connected: bool
    var servicesDiscovered: bool
    var shutdownRequested: bool
    var connectionOptions: ConnectionOptions
    var readQueue: seq<Request>
    var writeQueue: seq<Request>
    var notified: Notifications.Table
    var failures: seq<Failure>
    var delivered: seq<Delivery>
    var listening: bool
    var innerListening: bool
    var timeoutId: nat
    var timers: set<nat>
    var timerCount: nat
    var timeoutHandlerSet: bool
    var timeoutSignals: nat
    var shutdownTimeout: int
    var draining: bool

    ghost predicate Valid()
      reads this, driver
    {
      driver.Valid()
    }

    function State(): Session
      reads this
    {
      Session(connected, servicesDiscovered, shutdownRequested, connectionOptions,
              readQueue, writeQueue, notified, failures, delivered, listening, innerListening,
              timeoutId, timers, timerCount, timeoutHandlerSet, timeoutSignals,
              shutdownTimeout, draining)
    }

    /** The effect of an outcome (new session, driver calls, result) on this device. */
    twostate predicate Did<T>(new o: (Session, seq<Call>, Result<T, Failure>), new res: Result<T, Failure>)
      reads this, driver
    {
      State() == o.0 && driver.log == old(driver.log) + o.1 && res == o.2
    }

    /** `_throwIfShutdownRequested` in front of an operation. */
    function Guard<T>(st: Session, o: (Session, seq<Call>, Result<T, Failure>)): (Session, seq<Call>, Result<T, Failure>)
    {
      if st.shutdownRequested then (st, [], Err(ShutdownRequested(id))) else o
    }

    /** A driver call made at position `k` of the log, and what it returns. */
    function Outcome(k: nat, c: Call): Result<(), Failure>
    {
      if driver.rejects(k, c) then Err(Rejected(c)) else Ok(())
    }

    /** A pass-through to the driver. */
    function PassOutcome(st: Session, k: nat, c: Call): (Session, seq<Call>, Result<(), Failure>)
    {
      Guard(st, (st, [c], Outcome(k, c)))
    }

    /** `_safeReadWrite(kind, params)`, the submission path (js/BluetoothDevice.js:381-395,
        421): appended, and dispatched when the queue was empty; a dispatch the driver
        rejects throws before the push. */
    function SubmitOutcome(st: Session, k: nat, kind: Kind, r: Request, p: Payload): (Session, seq<Call>, Result<(), Failure>)
    {
      var call := DispatchCall(id, kind, r, p);
      if |st.Queue(kind)| > 0 then (st.WithQueue(kind, st.Queue(kind) + [r]), [], Ok(()))
      else if driver.rejects(k, call) then (st, [call], Err(Rejected(call)))
      else (st.Armed(r.timeout > 0).WithQueue(kind, [r]), [call], Ok(()))
    }

    /** A submission does to its queue what the queue model's `Enqueue` does, and
        calls the driver exactly when `Enqueue` dispatches. */
    lemma SubmitFollowsQueueModel(st: Session, k: nat, kind: Kind, r: Request, p: Payload)
      ensures var call := DispatchCall(id, kind, r, p);
        var accepted := !driver.rejects(k, call);
        var (q, sent) := RequestQueue.Enqueue(st.Queue(kind), r, accepted);
        var o := SubmitOutcome(st, k, kind, r, p);
        && o.0.Queue(kind) == q
        && o.1 == (if sent.Some? then [call] else [])
        && (o.2.Err? <==> sent.Some? && !accepted)
    {
    }

    /** Submitting to a queue with a request in flight only appends. */
    lemma SubmitToBusyQueue(st: Session, k: nat, kind: Kind, r: Request, p: Payload)
      requires |st.Queue(kind)| > 0
      ensures SubmitOutcome(st, k, kind, r, p) == (st.WithQueue(kind, st.Queue(kind) + [r]), [], Ok(()))
    {
    }

    /** Submitting to an idle queue dispatches at once; the request is queued, and
        the timer armed, only when the driver accepts it. */
    lemma SubmitToIdleQueue(st: Session, k: nat, kind: Kind, r: Request, p: Payload)
      requires |st.Queue(kind)| == 0
      ensures var call := DispatchCall(id, kind, r, p);
        SubmitOutcome(st, k, kind, r, p) ==
          if driver.rejects(k, call) then (st, [call], Err(Rejected(call)))
          else (st.Armed(r.timeout > 0).WithQueue(kind, [r]), [call], Ok(()))
    {
    }

    /** The objects the request behind the head of a queue reads when it is dispatched. */
    static function NextFootprint(q: seq<Request>): set<object>
      reads if |q| > 1 && q[1].body.Shared? then {q[1].body.opts} else {}
    {
      if |q| > 1 then Footprint(q[1].body) else {}
    }

    /** What the request behind the head of a queue sends when it is dispatched now. */
    static function NextPayload(q: seq<Request>): Payload
      reads NextFootprint(q)
    {
      if |q| > 1 then Resolve(q[1].body) else Options(0)
    }

    /** `_safeReadWrite(kind)`, the completion path (js/BluetoothDevice.js:372-380,
        395-419): the head leaves and its `lastChunk` is returned, the shared timer is
        cleared, and the new head, if any, is dispatched. On an empty queue `shift()`
        yields undefined and reading its `lastChunk` throws. */
    function CompleteOutcome(st: Session, k: nat, kind: Kind, p: Payload): (Session, seq<Call>, Result<bool, Failure>)
    {
      var q := st.Queue(kind);
      if |q| == 0 then (st, [], Err(NothingInFlight(kind)))
      else
        var st1 := st.WithQueue(kind, q[1..]).Cleared();
        if |q| == 1 then (st1, [], Ok(q[0].lastChunk))
        else
          var call := DispatchCall(id, kind, q[1], p);
          if driver.rejects(k, call) then (st1, [call], Err(Rejected(call)))
          else (st1.Armed(q[1].timeout > 0), [call], Ok(q[0].lastChunk))
    }

    /** A completion does to its queue what the queue model's `Advance` does, and
        calls the driver exactly for the request `Advance` dispatches; the head's
        `lastChunk` is returned unless that call is rejected. */
    lemma CompleteFollowsQueueModel(st: Session, k: nat, kind: Kind, p: Payload)
      requires |st.Queue(kind)| > 0
      ensures var next := RequestQueue.Advance(st.Queue(kind)).1;
        var o := CompleteOutcome(st, k, kind, p);
        && o.0.Queue(kind) == RequestQueue.Advance(st.Queue(kind)).0
        && o.1 == (if next.Some? then [DispatchCall(id, kind, next.value, p)] else [])
        && (o.2.Ok? <==> next.None? || !driver.rejects(k, DispatchCall(id, kind, next.value, p)))
        && (o.2.Ok? ==> o.2.value == st.Queue(kind)[0].lastChunk)
    {
      var q := st.Queue(kind);
      var st1 := st.WithQueue(kind, q[1..]).Cleared();
      assert st1.Queue(kind) == q[1..];
      if |q| > 1 {
        assert st1.Armed(q[1].timeout > 0).Queue(kind) == q[1..];
      }
    }

    constructor (id: Uuid, platform: Platform, driver: Driver)
      requires driver.Valid()
      ensures Valid()
      ensures this.id == id && this.platform == platform && this.driver == driver
      ensures State() == Session(false, false, false, WithDefaults(OptionKeys(None, None, None, None, None)),
                         [], [], [], [], [], true, true, 0, {}, 0, false, 0, 0, false)
    {
      this.id := id;
      this.platform := platform;
      this.driver := driver;
      connected, servicesDiscovered, shutdownRequested := false, false, false;
      connectionOptions := WithDefaults(OptionKeys(None, None, None, None, None));
      readQueue, writeQueue, notified := [], [], [];
      failures, delivered := [], [];
      listening, innerListening := true, true;
      timeoutId, timers, timerCount := 0, {}, 0;
      timeoutHandlerSet, timeoutSignals, shutdownTimeout, draining := false, 0, 0, false;
    }

    /** Hands `r` to the driver and arms the shared timer when the driver accepted
        and the request has a positive timeout. */
    method Dispatch(kind: Kind, r: Request) returns (ok: bool)
      requires Valid()
      modifies this, driver
      ensures Valid()
      ensures var call := DispatchCall(id, kind, r, Resolve(r.body));
        && driver.log == old(driver.log) + [call]
        && ok == !driver.rejects(|old(driver.log)|, call)
        && State() == old(State()).Armed(ok && r.timeout > 0)
    {
      var call := DispatchCall(id, kind, r, Resolve(r.body));
      ok := driver.Invoke(call);
      if ok && r.timeout > 0 {
        ArmTimer();
      }
    }

    /** `setTimeout`: a fresh timer id, recorded in the shared field. */
    method ArmTimer()
      modifies this
      ensures State() == old(State()).Armed(true)
    {
      timerCount := timerCount + 1;
      timeoutId := timerCount;
      timers := timers + {timerCount};
    }

    method Submit(kind: Kind, r: Request) returns (res: Result<(), Failure>)
      requires Valid()
      modifies this, driver
      ensures Valid()
      ensures Did(SubmitOutcome(old(State()), |old(driver.log)|, kind, r, old(Resolve(r.body))), res)
    {
      var q := if kind == Read then readQueue else writeQueue;
      res := Ok(());
      if |q| > 0 {
        SetQueue(kind, q + [r]);
        return;
      }
      var ok := Dispatch(kind, r);
      if !ok {
        return Err(Rejected(DispatchCall(id, kind, r, Resolve(r.body))));
      }
      SetQueue(kind, [r]);
    }

    /** Replaces the queue of `kind`. */
    method SetQueue(kind: Kind, q: seq<Request>)
      modifies this
      ensures State() == old(State()).WithQueue(kind, q)
    {
      if kind == Read {
        readQueue := q;
      } else {
        writeQueue := q;
      }
    }

    /** `queue.shift()` followed by clearing the shared timer. */
    method Shift(kind: Kind) returns (head: Request)
      requires Valid()
      requires |State().Queue(kind)| > 0
      modifies this
      ensures Valid()
      ensures head == old(State()).Queue(kind)[0]
      ensures State() == old(State()).WithQueue(kind, old(State()).Queue(kind)[1..]).Cleared()
    {
      var q := if kind == Read then readQueue else writeQueue;
      head := q[0];
      SetQueue(kind, q[1..]);
      timers, timeoutId := if timeoutId != 0 then timers - {timeoutId} else timers, 0;
    }

    method Complete(kind: Kind) returns (res: Result<bool, Failure>)
      requires Valid()
      modifies this, driver
      ensures Valid()
      ensures Did(CompleteOutcome(old(State()), |old(driver.log)|, kind, old(NextPayload(State().Queue(kind)))), res)
    {
      var q := if kind == Read then readQueue else writeQueue;
      if |q| == 0 {
        return Err(NothingInFlight(kind));
      }
      ghost var p := NextPayload(q);
      ghost var st0, k := State(), |driver.log|;
      var head := Shift(kind);
      res := Ok(head.lastChunk);
      ghost var st1 := State();
      assert st1 == st0.WithQueue(kind, q[1..]).Cleared();
      if |q| > 1 {
        assert Resolve(q[1].body) == p;
        var ok := Dispatch(kind, q[1]);
        if !ok {
          res := Err(Rejected(DispatchCall(id, kind, q[1], Resolve(q[1].body))));
        }
        assert CompleteOutcome(st0, k, kind, p) == (st1.Armed(ok && q[1].timeout > 0), [DispatchCall(id, kind, q[1], p)], res);
      } else {
        assert CompleteOutcome(st0, k, kind, p) == (st1, [], res);
      }
    }

    /** The driver calls of an event's handling, its new session, and the
        `rwCompleted` value it passes on to the listeners. */
    function HandleOutcome(st: Session, k: nat, name: EventName, error: bool, nextRead: Payload, nextWrite: Payload)
      : (Session, seq<Call>, Option<bool>)
    {
      match name
      case Connected =>
        var o := ConnectedOutcome(st, k, error);
        (o.0, o.1, None)
      case Disconnected =>
        var o := DisconnectedOutcome(st, k);
        (o.0, o.1, None)
      case ServicesDiscovered => (st.(servicesDiscovered := !error), [], None)
      case CharacteristicRead => CompletionHandled(st, k, Read, nextRead)
      case DescriptorRead => CompletionHandled(st, k, Read, nextRead)
      case CharacteristicWritten => CompletionHandled(st, k, Kind.Write, nextWrite)
      case DescriptorWritten => CompletionHandled(st, k, Kind.Write, nextWrite)
      case OtherEvent => (st, [], None)
    }

    /** The CONNECTED event: the flag follows the event's error flag, and a
        successful connection discovers the services when the options say so. */
    function ConnectedOutcome(st: Session, k: nat, error: bool): (Session, seq<Call>)
    {
      var st1 := st.(connected := !error);
      if !error && st.connectionOptions.autoDiscoverServices then
        var o := PassOutcome(st1, k, Call.DiscoverServices(id, st.connectionOptions.autoDiscoverServicesUseCache));
        (o.0.Note(o.2), o.1)
      else (st1, [])
    }

    /** The DISCONNECTED event: both flags drop and both queues are flushed; once
        a shutdown was requested the inner listener goes, and on Android the
        connection is closed. */
    function DisconnectedOutcome(st: Session, k: nat): (Session, seq<Call>)
    {
      var st1 := st.(connected := false, servicesDiscovered := false, readQueue := [], writeQueue := []);
      if !st.shutdownRequested then (st1, [])
      else if platform == Android then
        (st1.(innerListening := false).Note(Outcome(k, Call.CloseGatt(id))), [Call.CloseGatt(id)])
      else (st1.(innerListening := false), [])
    }

    /** A completion event: an error of `_safeReadWrite` goes to the failure
        handler, and only a returned `lastChunk` reaches the listeners. */
    function CompletionHandled(st: Session, k: nat, kind: Kind, p: Payload): (Session, seq<Call>, Option<bool>)
    {
      var o := CompleteOutcome(st, k, kind, p);
      (o.0.Note(o.2), o.1, if o.2.Ok? then Some(o.2.value) else None)
    }

    /** `_innerListener(data)`: events of another device, and every event once the
        inner listener was removed, change nothing. */
    function EventOutcome(st: Session, k: nat, name: EventName, eventId: Uuid, error: bool,
                          nextRead: Payload, nextWrite: Payload): (Session, seq<Call>)
    {
      if !st.innerListening || eventId != id then (st, [])
      else
        var h := HandleOutcome(st, k, name, error, nextRead, nextWrite);
        (h.0.Deliver(name, error, h.2), h.1)
    }

    /** `openConnection`: connectGatt, then connect on Android when `invokeBTGattConnect`. */
    function OpenOutcome(st: Session, k: nat): (Session, seq<Call>, Result<(), Failure>)
    {
      var (st1, calls, out) := PassOutcome(st, k, Call.ConnectGatt(id, st.connectionOptions.autoConnect));
      if out.Err? || !(st.connectionOptions.invokeBTGattConnect && platform == Android) then (st1, calls, out)
      else
        var (st2, more, out2) := PassOutcome(st1, k + |calls|, Call.Connect(id));
        (st2, calls + more, out2)
    }

    /** `_setCharacteristicNotification`: the driver call and, on Android once it
        succeeded, the configuration descriptor write through the write queue. */
    function NotifyOutcome(st: Session, k: nat, service: Uuid, characteristic: Uuid, enable: bool,
                           options: Option<nat>): (Session, seq<Call>, Result<(), Failure>)
    {
      var call := SetNotification(id, service, characteristic, enable, options);
      if driver.rejects(k, call) then (st, [call], Err(Rejected(call)))
      else if platform == Android then
        var (st1, more, out) :=
          SubmitOutcome(st, k + 1, Kind.Write, CccdRequest(service, characteristic, enable), CccdPayload(enable));
        (st1, [call] + more, out)
      else (st, [call], Ok(()))
    }

    /** `setCharacteristicNotification`: a disable is taken out of the table before
        the driver is called and throws when the service has no entry; an enable is
        recorded only once the driver call and its descriptor write succeeded. */
    function SetNotificationOutcome(st: Session, k: nat, service: Uuid, characteristic: Uuid, enable: bool,
                                    options: Option<nat>): (Session, seq<Call>, Result<(), Failure>)
    {
      var removed := Notifications.Disable(st.notified, service, characteristic);
      Guard(st,
        if !enable && removed.Err? then (st, [], Err(removed.error))
        else
          var st1 := if enable then st else st.(notified := removed.value);
          var (st2, calls, out) := NotifyOutcome(st1, k, service, characteristic, enable, options);
          (if enable && out.Ok? then st2.(notified := Notifications.Enable(st2.notified, service, characteristic))
           else st2,
           calls, out))
    }

    /** `setCharacteristicNotification` keeps the table of notified pairs well
        formed: no service twice, none with an empty list. */
    lemma SetNotificationKeepsTable(st: Session, k: nat, service: Uuid, characteristic: Uuid, enable: bool,
                                    options: Option<nat>)
      requires Notifications.WellFormed(st.notified)
      ensures Notifications.WellFormed(SetNotificationOutcome(st, k, service, characteristic, enable, options).0.notified)
    {
      var removed := Notifications.Disable(st.notified, service, characteristic);
      if st.shutdownRequested {
      } else if enable {
        NotifyKeepsTable(st, k, service, characteristic, enable, options);
        Notifications.EnableSpec(st.notified, service, characteristic);
      } else {
        Notifications.DisableSpec(st.notified, service, characteristic);
        if removed.Ok? {
          NotifyKeepsTable(st.(notified := removed.value), k, service, characteristic, enable, options);
        }
      }
    }

    /** The driver call and its descriptor write leave the table alone. */
    lemma NotifyKeepsTable(st: Session, k: nat, service: Uuid, characteristic: Uuid, enable: bool, options: Option<nat>)
      ensures NotifyOutcome(st, k, service, characteristic, enable, options).0.notified == st.notified
    {
      if platform == Android {
        SubmitKeepsTable(st, k + 1, Kind.Write, CccdRequest(service, characteristic, enable), CccdPayload(enable));
      }
    }

    lemma SubmitKeepsTable(st: Session, k: nat, kind: Kind, r: Request, p: Payload)
      ensures SubmitOutcome(st, k, kind, r, p).0.notified == st.notified
    {
      var call := DispatchCall(id, kind, r, p);
      if |st.Queue(kind)| > 0 {
        var st1 := st.WithQueue(kind, st.Queue(kind) + [r]);
        assert SubmitOutcome(st, k, kind, r, p).0 == st1;
        assert st1.notified == st.notified;
      } else if !driver.rejects(k, call) {
        var st1 := st.Armed(r.timeout > 0).WithQueue(kind, [r]);
        assert SubmitOutcome(st, k, kind, r, p).0 == st1;
        assert st.Armed(r.timeout > 0).notified == st.notified;
      }
    }

    /** A chunked write of `v` in pieces of `opts.chunkSize`: the submission of the
        first piece, then, unless that throws, the requests for the pieces of what
        is left appended to the write queue. */
    function ChunkedOutcome(st: Session, k: nat, service: Uuid, characteristic: Uuid, opts: WriteOptions,
                            v: seq<int>, timeout: int, copying: bool): (Session, seq<Call>, Result<(), Failure>)
      requires opts.chunkSize.Some? && opts.chunkSize.value > 0 && |v| > 0
    {
      var size := opts.chunkSize.value;
      var first := SubmitOutcome(st, k, Kind.Write, PieceRequest(service, characteristic, opts, v, timeout, copying),
                                 PiecePayload(opts, v));
      if first.2.Err? then first
      else
        var rest := ChunkRequests(service, characteristic, opts, timeout, Chunking.Chunks(v[PieceLength(v, size)..], size),
                                  copying);
        (first.0.(writeQueue := first.0.writeQueue + rest), first.1, Ok(()))
    }

    /** The calls `shutdown` makes without waiting to disable every recorded pair,
        in the table's order, with the failures they report and the pairs whose
        call succeeded. */
    function DisableAll(k: nat, pairs: seq<(Uuid, Uuid)>): (seq<Call>, seq<Failure>, seq<(Uuid, Uuid)>)
      decreases |pairs|
    {
      if pairs == [] then ([], [], [])
      else
        var (calls, fails, ok) := DisableAll(k, pairs[..|pairs| - 1]);
        var p := pairs[|pairs| - 1];
        var call := SetNotification(id, p.0, p.1, false, None);
        if driver.rejects(k + |calls|, call) then (calls + [call], fails + [Rejected(call)], ok)
        else (calls + [call], fails, ok + [p])
    }

    /** The Android continuations of those calls: a descriptor write per pair whose
        disable succeeded, its error going to the failure handler. */
    function CccdAll(st: Session, k: nat, pairs: seq<(Uuid, Uuid)>): (Session, seq<Call>)
      decreases |pairs|
    {
      if pairs == [] then (st, [])
      else
        var before := CccdAll(st, k, pairs[..|pairs| - 1]);
        var step := CccdStep(before.0, k + |before.1|, pairs[|pairs| - 1]);
        (step.0, before.1 + step.1)
    }

    /** The descriptor write for one pair, its error going to the failure handler. */
    function CccdStep(st: Session, k: nat, p: (Uuid, Uuid)): (Session, seq<Call>)
    {
      var o := SubmitOutcome(st, k, Kind.Write, CccdRequest(p.0, p.1, false), CccdPayload(false));
      (o.0.Note(o.2), o.1)
    }

    /** One disabling call per recorded pair, in order; each pair either fails or is
        kept for its descriptor write, and the kept ones keep their order. */
    lemma {:induction false} DisableAllShape(k: nat, pairs: seq<(Uuid, Uuid)>)
      ensures var (calls, fails, ok) := DisableAll(k, pairs);
        && |calls| == |pairs|
        && (forall i :: 0 <= i < |pairs| ==> calls[i] == SetNotification(id, pairs[i].0, pairs[i].1, false, None))
        && |fails| + |ok| == |pairs|
        && (forall p :: p in ok ==> p in pairs)
      decreases |pairs|
    {
      if pairs != [] {
        DisableAllShape(k, pairs[..|pairs| - 1]);
      }
    }

    lemma DisableAllStep(k: nat, pairs: seq<(Uuid, Uuid)>, p: (Uuid, Uuid),
                         d: (seq<Call>, seq<Failure>, seq<(Uuid, Uuid)>), call: Call, ok: bool)
      requires d == DisableAll(k, pairs)
      requires call == SetNotification(id, p.0, p.1, false, None) && ok == !driver.rejects(k + |d.0|, call)
      ensures DisableAll(k, pairs + [p]) ==
        if ok then (d.0 + [call], d.1, d.2 + [p]) else (d.0 + [call], d.1 + [Rejected(call)], d.2)
    {
      assert (pairs + [p])[..|pairs|] == pairs;
    }

    lemma CccdAllStep(st: Session, k: nat, pairs: seq<(Uuid, Uuid)>, p: (Uuid, Uuid),
                      before: (Session, seq<Call>), k1: nat, step: (Session, seq<Call>))
      requires before == CccdAll(st, k, pairs)
      requires k1 == k + |before.1| && step == CccdStep(before.0, k1, p)
      ensures CccdAll(st, k, pairs + [p]) == (step.0, before.1 + step.1)
    {
      assert (pairs + [p])[..|pairs|] == pairs;
    }

    /** The end of a shutdown of a connected device: closeGatt on iOS, else disconnect
        when `invokeBTGattDisconnect`, else remove the inner listener and closeGatt;
        an error goes to the failure handler. */
    function TeardownConnected(st: Session, k: nat): (Session, seq<Call>)
    {
      if platform == IOS then (st.Note(Outcome(k, Call.CloseGatt(id))), [Call.CloseGatt(id)])
      else if st.connectionOptions.invokeBTGattDisconnect then (st.Note(Outcome(k, Call.Disconnect(id))), [Call.Disconnect(id)])
      else (st.(innerListening := false).Note(Outcome(k, Call.CloseGatt(id))), [Call.CloseGatt(id)])
    }

    /** The shutdown of a disconnected device: disconnect on Android when
        `invokeBTGattDisconnect`, then closeGatt unless the disconnect failed. */
    function TeardownDisconnected(st: Session, k: nat): (Session, seq<Call>)
    {
      if st.connectionOptions.invokeBTGattDisconnect && platform == Android then
        if driver.rejects(k, Call.Disconnect(id)) then (st.Note(Outcome(k, Call.Disconnect(id))), [Call.Disconnect(id)])
        else (st.Note(Outcome(k + 1, Call.CloseGatt(id))), [Call.Disconnect(id), Call.CloseGatt(id)])
      else (st.Note(Outcome(k, Call.CloseGatt(id))), [Call.CloseGatt(id)])
    }

    /** `shutdown()` up to its wait for pending requests: the latch is set and the
        listeners removed; a connected device disables its notifications and either
        tears down at once or, with requests pending, waits (`draining`). The
        descriptor writes of the disables run after the synchronous part. */
    function ShutdownOutcome(st: Session, k: nat): (Session, seq<Call>, Result<(), Failure>)
    {
      if st.shutdownRequested then (st, [], Err(ShutdownRequested(id)))
      else
        var st1 := st.(shutdownRequested := true, listening := false);
        if !st.connected then
          var o := TeardownDisconnected(st1.(innerListening := false), k);
          (o.0, o.1, Ok(()))
        else
          var o := ConnectedShutdown(st1, k);
          (o.0, o.1, Ok(()))
    }

    /** The connected branch of `shutdown()` once the latch is set: disable every
        recorded notification, then wait or tear down, then the Android descriptor
        writes of the disables that succeeded. */
    function ConnectedShutdown(st: Session, k: nat): (Session, seq<Call>)
    {
      ShutdownVisiting(st, k, Notifications.Pairs(st.notified))
    }

    /** `ConnectedShutdown` with the pairs to disable given, in visiting order. */
    function ShutdownVisiting(st: Session, k: nat, pairs: seq<(Uuid, Uuid)>): (Session, seq<Call>)
    {
      var disabled := DisableAll(k, pairs);
      var settled := Settle(st.(failures := st.failures + disabled.1), k + |disabled.0|);
      var continued := Continue(settled.0, k + |disabled.0| + |settled.1|, disabled.2);
      (continued.0, disabled.0 + settled.1 + continued.1)
    }

    /** Wait for pending requests (`draining`) or tear down at once. */
    function Settle(st: Session, k: nat): (Session, seq<Call>)
    {
      if |st.readQueue| > 0 || |st.writeQueue| > 0 then (st.(draining := true), [])
      else TeardownConnected(st, k)
    }

    /** On Android, the descriptor write of each pair whose disable succeeded. */
    function Continue(st: Session, k: nat, accepted: seq<(Uuid, Uuid)>): (Session, seq<Call>)
    {
      if platform == Android then CccdAll(st, k, accepted) else (st, [])
    }

    /** `bt.<operation>(this.getId(), ...)`, unguarded (`_closeGatt`, `_disconnect`). */
    method Issue(c: Call) returns (res: Result<(), Failure>)
      requires Valid()
      modifies driver
      ensures Valid()
      ensures driver.log == old(driver.log) + [c] && res == Outcome(|old(driver.log)|, c)
    {
      var ok := driver.Invoke(c);
      res := if ok then Ok(()) else Err(Rejected(c));
    }

    /** A public pass-through: `_throwIfShutdownRequested`, then the driver call. */
    method Pass(c: Call) returns (res: Result<(), Failure>)
      requires Valid()
      modifies driver
      ensures Valid()
      ensures Did(PassOutcome(old(State()), |old(driver.log)|, c), res)
    {
      if shutdownRequested {
        return Err(ShutdownRequested(id));
      }
      res := Issue(c);
    }

    /** `_failureHandler(error)` for an error result. */
    method Report<T>(out: Result<T, Failure>)
      modifies this
      ensures State() == old(State()).Note(out)
    {
      if out.Err? {
        failures := failures + [out.error];
      }
    }

    method ConnectGatt() returns (res: Result<(), Failure>)
      requires Valid()
      modifies driver
      ensures Valid()
      ensures Did(PassOutcome(old(State()), |old(driver.log)|, Call.ConnectGatt(id, connectionOptions.autoConnect)), res)
    {
      res := Pass(Call.ConnectGatt(id, connectionOptions.autoConnect));
    }

    method Connect() returns (res: Result<(), Failure>)
      requires Valid()
      modifies driver
      ensures Valid()
      ensures Did(PassOutcome(old(State()), |old(driver.log)|, Call.Connect(id)), res)
    {
      res := Pass(Call.Connect(id));
    }

    method Disconnect() returns (res: Result<(), Failure>)
      requires Valid()
      modifies driver
      ensures Valid()
      ensures Did(PassOutcome(old(State()), |old(driver.log)|, Call.Disconnect(id)), res)
    {
      res := Pass(Call.Disconnect(id));
    }

    method CloseGatt() returns (res: Result<(), Failure>)
      requires Valid()
      modifies driver
      ensures Valid()
      ensures Did(PassOutcome(old(State()), |old(driver.log)|, Call.CloseGatt(id)), res)
    {
      res := Pass(Call.CloseGatt(id));
    }

    method DiscoverServices(useCache: bool) returns (res: Result<(), Failure>)
      requires Valid()
      modifies driver
      ensures Valid()
      ensures Did(PassOutcome(old(State()), |old(driver.log)|, Call.DiscoverServices(id, useCache)), res)
    {
      res := Pass(Call.DiscoverServices(id, useCache));
    }

    method OpenConnection() returns (res: Result<(), Failure>)
      requires Valid()
      modifies driver
      ensures Valid()
      ensures Did(OpenOutcome(old(State()), |old(driver.log)|), res)
    {
      res := ConnectGatt();
      if res.Ok? && connectionOptions.invokeBTGattConnect && platform == Android {
        res := Connect();
      }
    }

    method ReadCharacteristic(service: Uuid, characteristic: Uuid, options: nat) returns (res: Result<(), Failure>)
      requires Valid()
      modifies this, driver
      ensures Valid()
      ensures Did(Guard(old(State()), SubmitOutcome(old(State()), |old(driver.log)|, Read,
                    Request(service, characteristic, None, Fixed(Options(options)), 0, true), Options(options))), res)
    {
      if shutdownRequested {
        return Err(ShutdownRequested(id));
      }
      res := Submit(Read, Request(service, characteristic, None, Fixed(Options(options)), 0, true));
    }

    method ReadDescriptor(service: Uuid, characteristic: Uuid, descriptor: Uuid, options: nat)
      returns (res: Result<(), Failure>)
      requires Valid()
      modifies this, driver
      ensures Valid()
      ensures Did(Guard(old(State()), SubmitOutcome(old(State()), |old(driver.log)|, Read,
                    Request(service, characteristic, Some(descriptor), Fixed(Options(options)), 0, true),
                    Options(options))), res)
    {
      if shutdownRequested {
        return Err(ShutdownRequested(id));
      }
      res := Submit(Read, Request(service, characteristic, Some(descriptor), Fixed(Options(options)), 0, true));
    }

    method WriteDescriptor(service: Uuid, characteristic: Uuid, descriptor: Uuid, opts: WriteOptions)
      returns (res: Result<(), Failure>)
      requires Valid()
      modifies this, driver
      ensures Valid()
      ensures Did(Guard(old(State()), SubmitOutcome(old(State()), |old(driver.log)|, Kind.Write,
                    Request(service, characteristic, Some(descriptor), Shared(opts), 0, true),
                    old(Resolve(Shared(opts))))), res)
    {
      if shutdownRequested {
        return Err(ShutdownRequested(id));
      }
      res := Submit(Kind.Write, Request(service, characteristic, Some(descriptor), Shared(opts), 0, true));
    }

    /** `flushRequests(read)`: `None` is a call without an argument; `Some(b)` an
        argument of truthiness `b`. Timers are left alone. */
    method FlushRequests(read: Option<bool>)
      requires Valid()
      modifies this
      ensures Valid()
      ensures readQueue == (if read != Some(false) then [] else old(readQueue))
      ensures writeQueue == (if read != Some(true) then [] else old(writeQueue))
      ensures State() == old(State()).(readQueue := readQueue, writeQueue := writeQueue)
    {
      if read.None? {
        readQueue, writeQueue := [], [];
      } else if read.value {
        readQueue := [];
      } else {
        writeQueue := [];
      }
    }

    method SetConnectionOptions(keys: OptionKeys)
      requires Valid()
      modifies this
      ensures Valid()
      ensures State() == old(State()).(connectionOptions := WithDefaults(keys))
    {
      connectionOptions := WithDefaults(keys);
    }

    /** `setReadWriteTimeoutHandler`: only whether a handler is set matters here. */
    method SetReadWriteTimeoutHandler(present: bool)
      requires Valid()
      modifies this
      ensures Valid()
      ensures State() == old(State()).(timeoutHandlerSet := present)
    {
      timeoutHandlerSet := present;
    }

    method SetShutdownTimeout(millis: int)
      requires Valid()
      modifies this
      ensures Valid()
      ensures State() == old(State()).(shutdownTimeout := millis)
    {
      shutdownTimeout := millis;
    }

    /** A request timer fires: the handler is told, and nothing else happens; a
        cleared timer never fires. */
    method TimerFired(t: nat)
      requires Valid()
      modifies this
      ensures Valid()
      ensures State() == if t in old(timers) then
          old(State()).(timers := old(timers) - {t},
                        timeoutSignals := old(timeoutSignals) + if old(timeoutHandlerSet) then 1 else 0)
        else old(State())
    {
      if t in timers {
        timers := timers - {t};
        if timeoutHandlerSet {
          timeoutSignals := timeoutSignals + 1;
        }
      }
    }

    method Completion(kind: Kind) returns (rw: Option<bool>)
      requires Valid()
      modifies this, driver
      ensures Valid()
      ensures old(driver.log) <= driver.log
      ensures var (st, calls, passed) :=
          CompletionHandled(old(State()), |old(driver.log)|, kind, old(NextPayload(State().Queue(kind))));
        State() == st && driver.log == old(driver.log) + calls && rw == passed
    {
      var out := Complete(kind);
      Report(out);
      rw := if out.Ok? then Some(out.value) else None;
    }

    /** The CONNECTED branch of `_innerListener`. */
    method HandleConnected(error: bool)
      requires Valid()
      modifies this, driver
      ensures Valid()
      ensures var o := ConnectedOutcome(old(State()), |old(driver.log)|, error);
        State() == o.0 && driver.log == old(driver.log) + o.1
    {
      connected := !error;
      if connected && connectionOptions.autoDiscoverServices {
        var out := DiscoverServices(connectionOptions.autoDiscoverServicesUseCache);
        Report(out);
      }
    }

    /** The DISCONNECTED branch of `_innerListener`. */
    method HandleDisconnected()
      requires Valid()
      modifies this, driver
      ensures Valid()
      ensures var o := DisconnectedOutcome(old(State()), |old(driver.log)|);
        State() == o.0 && driver.log == old(driver.log) + o.1
    {
      ClearConnection();
      FlushRequests(None);
      if shutdownRequested {
        RemoveInnerListener();
        if platform == Android {
          var out := Issue(Call.CloseGatt(id));
          Report(out);
        }
      }
    }

    method ClearConnection()
      modifies this
      ensures State() == old(State()).(connected := false, servicesDiscovered := false)
    {
      connected, servicesDiscovered := false, false;
    }

    method RemoveInnerListener()
      modifies this
      ensures State() == old(State()).(innerListening := false)
    {
      innerListening := false;
    }

    /** The `switch` of `_innerListener`, with the `rwCompleted` it leaves. */
    method Handle(name: EventName, error: bool) returns (rw: Option<bool>)
      requires Valid()
      modifies this, driver
      ensures Valid()
      ensures var (st, calls, passed) := HandleOutcome(old(State()), |old(driver.log)|, name, error,
                                                         old(NextPayload(readQueue)), old(NextPayload(writeQueue)));
        State() == st && driver.log == old(driver.log) + calls && rw == passed
    {
      rw := None;
      match name {
        case Connected =>
          HandleConnected(error);
        case Disconnected =>
          HandleDisconnected();
        case ServicesDiscovered =>
          servicesDiscovered := !error;
        case CharacteristicRead =>
          rw := Completion(Read);
        case DescriptorRead =>
          rw := Completion(Read);
        case CharacteristicWritten =>
          rw := Completion(Kind.Write);
        case DescriptorWritten =>
          rw := Completion(Kind.Write);
        case OtherEvent =>
      }
    }

    /** `_innerListener(data)` for an event `name` about device `eventId`. */
    method OnEvent(name: EventName, eventId: Uuid, error: bool)
      requires Valid()
      modifies this, driver
      ensures Valid()
      ensures old(driver.log) <= driver.log
      ensures (State(), driver.log[|old(driver.log)|..]) ==
              EventOutcome(old(State()), |old(driver.log)|, name, eventId, error,
                           old(NextPayload(readQueue)), old(NextPayload(writeQueue)))
    {
      if !innerListening || eventId != id {
        assert driver.log[|driver.log|..] == [];
        return;
      }
      var rw := Handle(name, error);
      if listening {
        delivered := delivered + [Delivery(name, error, rw)];
      }
    }

    /** `_setCharacteristicNotification`. */
    method Notify(service: Uuid, characteristic: Uuid, enable: bool, options: Option<nat>)
      returns (res: Result<(), Failure>)
      requires Valid()
      modifies this, driver
      ensures Valid()
      ensures Did(NotifyOutcome(old(State()), |old(driver.log)|, service, characteristic, enable, options), res)
    {
      res := Issue(SetNotification(id, service, characteristic, enable, options));
      if res.Ok? && platform == Android {
        res := Submit(Kind.Write, CccdRequest(service, characteristic, enable));
      }
    }

    method SetCharacteristicNotification(service: Uuid, characteristic: Uuid, enable: bool, options: Option<nat>)
      returns (res: Result<(), Failure>)
      requires Valid()
      modifies this, driver
      ensures Valid()
      ensures Did(SetNotificationOutcome(old(State()), |old(driver.log)|, service, characteristic, enable, options), res)
    {
      if shutdownRequested {
        return Err(ShutdownRequested(id));
      }
      if !enable {
        var removed := Notifications.Disable(notified, service, characteristic);
        if removed.Err? {
          return Err(removed.error);
        }
        notified := removed.value;
      }
      res := Notify(service, characteristic, enable, options);
      if enable && res.Ok? {
        notified := Notifications.Enable(notified, service, characteristic);
      }
    }

    /** The `while (value.length)` loop of `writeCharacteristic`: each round splices
        the next piece off the caller's array and submits it; a submission that
        throws ends the write. */
    method SubmitChunks(service: Uuid, characteristic: Uuid, opts: WriteOptions, timeout: int, copying: bool)
      returns (res: Result<(), Failure>)
      requires Valid()
      requires opts.value.Array? && opts.chunkSize.Some? && opts.chunkSize.value > 0 && |opts.value.arr.elems| > 0
      modifies this, driver, opts, opts.value.arr
      ensures Valid()
      ensures Did(ChunkedOutcome(old(State()), |old(driver.log)|, service, characteristic, opts,
                                 old(opts.value.arr.elems), timeout, copying), res)
      ensures var pieces := Chunking.Chunks(old(opts.value.arr.elems), opts.chunkSize.value);
        && old(opts.value.arr).elems == (if res.Ok? then [] else old(opts.value.arr.elems)[|pieces[0]|..])
        && (copying ==> opts.value == old(opts.value))
        && (!copying ==> opts.value.Array? && opts.value.arr != old(opts.value.arr)
                         && opts.value.arr.elems == if res.Ok? then pieces[|pieces| - 1] else pieces[0])
    {
      var arr := opts.value.arr;
      var size := opts.chunkSize.value;
      ghost var v := arr.elems;
      ghost var st0, k0 := State(), |driver.log|;
      Chunking.ChunksTail(v, size);
      res := SubmitPiece(service, characteristic, opts, arr, timeout, copying);
      if res.Err? {
        return;
      }
      AppendChunks(service, characteristic, opts, arr, timeout, copying);
    }

    /** What a chunked write does as a whole: with a request in flight, the
        requests for all pieces are appended and the driver is not called;
        otherwise the driver is called once, with the first piece, and only when
        it accepts are the requests for all pieces queued and the timer armed. */
    lemma ChunkedWrite(st: Session, k: nat, service: Uuid, characteristic: Uuid, opts: WriteOptions, v: seq<int>,
                       timeout: int, copying: bool)
      requires opts.chunkSize.Some? && opts.chunkSize.value > 0 && |v| > 0
      ensures var pieces := Chunking.Chunks(v, opts.chunkSize.value);
        var requests := ChunkRequests(service, characteristic, opts, timeout, pieces, copying);
        var first := Call.WriteCharacteristic(id, service, characteristic,
                                              Data(SentArray(pieces[0]), opts.chunkSize, opts.extra));
        ChunkedOutcome(st, k, service, characteristic, opts, v, timeout, copying) ==
          if |st.writeQueue| > 0 then (st.(writeQueue := st.writeQueue + requests), [], Ok(()))
          else if driver.rejects(k, first) then (st, [first], Err(Rejected(first)))
          else (st.Armed(timeout > 0).(writeQueue := requests), [first], Ok(()))
    {
      var size := opts.chunkSize.value;
      ChunkRequestsFirst(service, characteristic, opts, v, timeout, copying);
      var req, payload := PieceRequest(service, characteristic, opts, v, timeout, copying), PiecePayload(opts, v);
      var rest := ChunkRequests(service, characteristic, opts, timeout, Chunking.Chunks(v[PieceLength(v, size)..], size),
                                copying);
      if |st.writeQueue| > 0 {
        FirstToBusyQueue(st, k, req, payload, rest);
      } else {
        FirstToIdleQueue(st, k, req, payload, rest);
      }
    }

    /** Submitting a first request, then appending `rest`, with a request in
        flight. */
    lemma FirstToBusyQueue(st: Session, k: nat, r: Request, p: Payload, rest: seq<Request>)
      requires |st.writeQueue| > 0
      ensures var first := SubmitOutcome(st, k, Kind.Write, r, p);
        && first.2.Ok?
        && (first.0.(writeQueue := first.0.writeQueue + rest), first.1) == (st.(writeQueue := st.writeQueue + ([r] + rest)), [])
    {
      SubmitToBusyQueue(st, k, Kind.Write, r, p);
      assert st.writeQueue + [r] + rest == st.writeQueue + ([r] + rest);
    }

    /** Submitting a first request, then appending `rest` unless it threw, with
        the write queue idle. */
    lemma FirstToIdleQueue(st: Session, k: nat, r: Request, p: Payload, rest: seq<Request>)
      requires |st.writeQueue| == 0
      ensures var first := SubmitOutcome(st, k, Kind.Write, r, p);
        var call := DispatchCall(id, Kind.Write, r, p);
        && (first.2.Err? <==> driver.rejects(k, call))
        && (first.2.Err? ==> first == (st, [call], Err(Rejected(call))))
        && (first.2.Ok? ==> (first.0.(writeQueue := first.0.writeQueue + rest), first.1)
                            == (st.Armed(r.timeout > 0).(writeQueue := [r] + rest), [call]))
    {
      SubmitToIdleQueue(st, k, Kind.Write, r, p);
      if !driver.rejects(k, DispatchCall(id, Kind.Write, r, p)) {
        assert st.WithQueue(Kind.Write, [r]) == st.(writeQueue := [r]);
        st.ArmedAfterWriteQueue([r], [r] + rest, r.timeout > 0);
      }
    }

    /** The rounds after the first, which only append to the write queue since a
        request is in flight. */
    method AppendChunks(service: Uuid, characteristic: Uuid, opts: WriteOptions, arr: Bytes, timeout: int, copying: bool)
      requires Valid()
      requires opts.chunkSize.Some? && opts.chunkSize.value > 0 && |writeQueue| > 0
      requires !copying ==> opts.value.Array? && opts.value.arr != arr
      modifies this, driver, opts, arr
      ensures Valid()
      ensures var rest := Chunking.Chunks(old(arr.elems), opts.chunkSize.value);
        && State() == old(State()).(writeQueue := old(writeQueue) +
                                      ChunkRequests(service, characteristic, opts, timeout, rest, copying))
        && driver.log == old(driver.log)
        && arr.elems == []
        && (copying ==> opts.value == old(opts.value))
        && (!copying ==> opts.value.Array? && opts.value.arr != arr
                         && opts.value.arr.elems == if rest == [] then old(opts.value.arr.elems) else rest[|rest| - 1])
    {
      ghost var rest := Chunking.Chunks(arr.elems, opts.chunkSize.value);
      ghost var requests := ChunkRequests(service, characteristic, opts, timeout, rest, copying);
      ChunkRequestsLength(service, characteristic, opts, timeout, rest, copying);
      ghost var st0, log0, value0 := State(), driver.log, opts.value;
      ghost var elems0 := if opts.value.Array? then opts.value.arr.elems else [];
      ghost var i := 0;
      while |arr.elems| > 0
        invariant Valid()
        invariant Appending(service, characteristic, opts, arr, timeout, copying, st0, log0, value0, elems0, rest, requests, i)
        decreases |rest| - i
      {
        AppendStep(service, characteristic, opts, arr, timeout, copying, st0, log0, value0, elems0, rest, requests, i);
        i := i + 1;
      }
      Chunking.ChunksEmpty(arr.elems, opts.chunkSize.value);
      assert requests[..i] == requests;
    }

    /** Where the rounds of `AppendChunks` stand after `i` of the pieces `rest`:
        what is left of the value cuts into the other pieces, the first `i`
        requests are appended to the write queue and nothing else changed, and
        as written the caller's object holds the last piece cut. */
    ghost predicate Appending(service: Uuid, characteristic: Uuid, opts: WriteOptions, arr: Bytes, timeout: int,
                              copying: bool, st0: Session, log0: seq<Call>, value0: Value, elems0: seq<int>,
                              rest: seq<seq<int>>, requests: seq<Request>, i: int)
      reads this, driver, opts, arr, if opts.value.Array? then {opts.value.arr} else {}
    {
      && opts.chunkSize.Some? && opts.chunkSize.value > 0
      && 0 <= i <= |rest| == |requests|
      && requests == ChunkRequests(service, characteristic, opts, timeout, rest, copying)
      && Chunking.Chunks(arr.elems, opts.chunkSize.value) == rest[i..]
      && |st0.writeQueue| > 0
      && State() == st0.(writeQueue := st0.writeQueue + requests[..i])
      && driver.log == log0
      && (copying ==> opts.value == value0)
      && (!copying ==> && opts.value.Array? && opts.value.arr != arr
                       && opts.value.arr.elems == if i == 0 then elems0 else rest[i - 1])
    }

    /** One round of `AppendChunks`, from `i` pieces done to `i + 1`. */
    method AppendStep(service: Uuid, characteristic: Uuid, opts: WriteOptions, arr: Bytes, timeout: int, copying: bool,
                      ghost st0: Session, ghost log0: seq<Call>, ghost value0: Value, ghost elems0: seq<int>,
                      ghost rest: seq<seq<int>>, ghost requests: seq<Request>, ghost i: int)
      requires Valid() && |arr.elems| > 0
      requires Appending(service, characteristic, opts, arr, timeout, copying, st0, log0, value0, elems0, rest, requests, i)
      modifies this, driver, opts, arr
      ensures Valid()
      ensures Appending(service, characteristic, opts, arr, timeout, copying, st0, log0, value0, elems0, rest, requests, i + 1)
    {
      PieceStep(service, characteristic, opts, timeout, copying, rest, i, arr.elems);
      AppendPiece(service, characteristic, opts, arr, timeout, copying, st0, st0.writeQueue + requests[..i], requests[i]);
      assert st0.writeQueue + requests[..i + 1] == st0.writeQueue + requests[..i] + [requests[i]];
    }

    /** A round of that loop with a request in flight: the piece's request is
        appended and the driver is not called. */
    method AppendPiece(service: Uuid, characteristic: Uuid, opts: WriteOptions, arr: Bytes, timeout: int, copying: bool,
                       ghost st0: Session, ghost queued: seq<Request>, ghost req: Request)
      requires Valid()
      requires opts.chunkSize.Some? && opts.chunkSize.value > 0 && |arr.elems| > 0 && |writeQueue| > 0
      requires State() == st0.(writeQueue := queued)
      requires req == PieceRequest(service, characteristic, opts, arr.elems, timeout, copying)
      modifies this, driver, opts, arr
      ensures Valid()
      ensures var n := PieceLength(old(arr.elems), opts.chunkSize.value);
        && arr.elems == old(arr.elems)[n..]
        && (copying ==> opts.value == old(opts.value))
        && (!copying ==> opts.value.Array? && fresh(opts.value.arr) && opts.value.arr.elems == old(arr.elems)[..n])
        && State() == st0.(writeQueue := queued + [req])
        && |writeQueue| > 0
        && driver.log == old(driver.log)
    {
      SubmitToBusyQueue(State(), |driver.log|, Kind.Write,
                        PieceRequest(service, characteristic, opts, arr.elems, timeout, copying), PiecePayload(opts, arr.elems));
      var r := SubmitPiece(service, characteristic, opts, arr, timeout, copying);
    }

    /** One round of that loop: `value.splice(0, chunkSize)`, then the submission
        of a request for that piece. As written (`copying` false) the piece
        replaces the value of the caller's object and the request refers to that
        object; with `copying` the request carries its own copy. */
    method SubmitPiece(service: Uuid, characteristic: Uuid, opts: WriteOptions, arr: Bytes, timeout: int, copying: bool)
      returns (res: Result<(), Failure>)
      requires Valid()
      requires opts.chunkSize.Some? && opts.chunkSize.value > 0 && |arr.elems| > 0
      modifies this, driver, opts, arr
      ensures Valid()
      ensures var n := PieceLength(old(arr.elems), opts.chunkSize.value);
        && arr.elems == old(arr.elems)[n..]
        && (copying ==> opts.value == old(opts.value))
        && (!copying ==> opts.value.Array? && fresh(opts.value.arr) && opts.value.arr.elems == old(arr.elems)[..n])
        && Did(SubmitOutcome(old(State()), |old(driver.log)|, Kind.Write,
                             PieceRequest(service, characteristic, opts, old(arr.elems), timeout, copying),
                             PiecePayload(opts, old(arr.elems))), res)
    {
      var size := opts.chunkSize.value;
      var take := if |arr.elems| <= size then |arr.elems| else size;
      var piece := arr.elems[..take];
      arr.elems := arr.elems[take..];
      if !copying {
        var chunk := new Bytes(piece);
        opts.value := Array(chunk);
      }
      res := Submit(Kind.Write, Request(service, characteristic, None, ChunkBody(opts, piece, copying), timeout,
                                        |arr.elems| == 0));
    }

    /** What `writeCharacteristic` does, as written (`copying` false) or with a copy
        of the write object per chunk: a single request unless the value splits,
        an error before any request for a chunk size that is not positive, and
        otherwise the chunked submission. */
    twostate predicate Wrote(service: Uuid, characteristic: Uuid, new opts: WriteOptions, given: Value, timeout: int,
                             copying: bool, new res: Result<(), Failure>)
      reads this, driver, opts, Owned(given), Owned(opts.value)
    {
      var st, k := old(State()), |old(driver.log)|;
      var v0 := old(Snapshot(given));
      if st.shutdownRequested || !SplitsValue(v0, opts.chunkSize) then
        && Did(Guard(st, SubmitOutcome(st, k, Kind.Write, Request(service, characteristic, None, Shared(opts), timeout, true),
                                       Data(v0, opts.chunkSize, opts.extra))), res)
        && opts.value == given
        && (given.Array? ==> given.arr.elems == v0.elems)
      else if opts.chunkSize.value <= 0 then
        && Did((st, [], Err(ChunkSizeNotPositive(opts.chunkSize.value))), res)
        && opts.value == given && given.arr.elems == v0.elems
      else
        var pieces := Chunking.Chunks(v0.elems, opts.chunkSize.value);
        && Did(ChunkedOutcome(st, k, service, characteristic, opts, v0.elems, timeout, copying), res)
        && given.arr.elems == (if res.Ok? then [] else v0.elems[|pieces[0]|..])
        && (copying ==> opts.value == given)
        && (!copying ==> opts.value.Array? && opts.value.arr.elems == if res.Ok? then pieces[|pieces| - 1] else pieces[0])
    }

    method WriteAs(service: Uuid, characteristic: Uuid, opts: WriteOptions, timeout: int, copying: bool)
      returns (res: Result<(), Failure>)
      requires Valid()
      modifies this, driver, opts, Owned(opts.value)
      ensures Valid()
      ensures Wrote(service, characteristic, opts, old(opts.value), timeout, copying, res)
    {
      if shutdownRequested {
        return Err(ShutdownRequested(id));
      }
      if !SplitsValue(Snapshot(opts.value), opts.chunkSize) {
        res := Submit(Kind.Write, Request(service, characteristic, None, Shared(opts), timeout, true));
        return;
      }
      if opts.chunkSize.value <= 0 {
        return Err(ChunkSizeNotPositive(opts.chunkSize.value));
      }
      res := SubmitChunks(service, characteristic, opts, timeout, copying);
    }

    /** `writeCharacteristic(serviceUuid, characteristicUuid, dataAndOptions, timeout)`
        as written: it returns once the requests are submitted. */
    method WriteCharacteristic(service: Uuid, characteristic: Uuid, opts: WriteOptions, timeout: int)
      returns (res: Result<(), Failure>)
      requires Valid()
      modifies this, driver, opts, Owned(opts.value)
      ensures Valid()
      ensures Wrote(service, characteristic, opts, old(opts.value), timeout, false, res)
    {
      res := WriteAs(service, characteristic, opts, timeout, false);
    }

    /** `writeCharacteristic` with each chunk request holding its own copy of the
        write object, so that every queued chunk sends its own piece. */
    method WriteCharacteristicCopying(service: Uuid, characteristic: Uuid, opts: WriteOptions, timeout: int)
      returns (res: Result<(), Failure>)
      requires Valid()
      modifies this, driver, opts, Owned(opts.value)
      ensures Valid()
      ensures Wrote(service, characteristic, opts, old(opts.value), timeout, true, res)
    {
      res := WriteAs(service, characteristic, opts, timeout, true);
    }

    /** The disabling calls of a shutdown, made without waiting for one another. */
    method DisableNotifications(pairs: seq<(Uuid, Uuid)>) returns (accepted: seq<(Uuid, Uuid)>)
      requires Valid()
      modifies this, driver
      ensures Valid()
      ensures var disabled := DisableAll(|old(driver.log)|, pairs);
        && driver.log == old(driver.log) + disabled.0
        && State() == old(State()).(failures := old(failures) + disabled.1)
        && accepted == disabled.2
    {
      ghost var k, st0, log0 := |driver.log|, State(), driver.log;
      ghost var calls: seq<Call>, fails: seq<Failure> := [], [];
      accepted := [];
      var i := 0;
      while i < |pairs|
        invariant Valid()
        invariant Disabling(k, st0, log0, pairs, i, calls, fails, accepted)
        decreases |pairs| - i
      {
        calls, fails, accepted := DisableStep(k, st0, log0, pairs, i, calls, fails, accepted);
        i := i + 1;
      }
      assert pairs[..i] == pairs;
    }

    /** Where the disabling calls stand after the first `i` pairs. */
    ghost predicate Disabling(k: nat, st0: Session, log0: seq<Call>, pairs: seq<(Uuid, Uuid)>, i: int,
                              calls: seq<Call>, fails: seq<Failure>, accepted: seq<(Uuid, Uuid)>)
      reads this, driver
    {
      && 0 <= i <= |pairs| && k == |log0|
      && DisableAll(k, pairs[..i]) == (calls, fails, accepted)
      && driver.log == log0 + calls
      && State() == st0.(failures := st0.failures + fails)
    }

    /** The disabling call for the pair `i`. */
    method DisableStep(ghost k: nat, ghost st0: Session, ghost log0: seq<Call>, pairs: seq<(Uuid, Uuid)>, i: int,
                       ghost calls: seq<Call>, ghost fails: seq<Failure>, accepted: seq<(Uuid, Uuid)>)
      returns (ghost calls': seq<Call>, ghost fails': seq<Failure>, accepted': seq<(Uuid, Uuid)>)
      requires Valid() && i < |pairs|
      requires Disabling(k, st0, log0, pairs, i, calls, fails, accepted)
      modifies this, driver
      ensures Valid()
      ensures Disabling(k, st0, log0, pairs, i + 1, calls', fails', accepted')
    {
      var call := SetNotification(id, pairs[i].0, pairs[i].1, false, None);
      var ok := DisableOne(pairs[i]);
      DisableAllStep(k, pairs[..i], pairs[i], (calls, fails, accepted), call, ok);
      assert pairs[..i + 1] == pairs[..i] + [pairs[i]];
      calls' := calls + [call];
      if ok {
        fails', accepted' := fails, accepted + [pairs[i]];
      } else {
        fails', accepted' := fails + [Rejected(call)], accepted;
      }
    }

    /** One disabling call of a shutdown; its error goes to the failure handler. */
    method DisableOne(p: (Uuid, Uuid)) returns (ok: bool)
      requires Valid()
      modifies this, driver
      ensures Valid()
      ensures var call := SetNotification(id, p.0, p.1, false, None);
        && driver.log == old(driver.log) + [call]
        && ok == !driver.rejects(|old(driver.log)|, call)
        && State() == if ok then old(State()) else old(State()).(failures := old(failures) + [Rejected(call)])
    {
      var out := Issue(SetNotification(id, p.0, p.1, false, None));
      Report(out);
      ok := out.Ok?;
    }

    /** The Android descriptor writes that follow the disabling calls that succeeded. */
    method ResetDescriptors(pairs: seq<(Uuid, Uuid)>)
      requires Valid()
      modifies this, driver
      ensures Valid()
      ensures var (st, calls) := CccdAll(old(State()), |old(driver.log)|, pairs);
        State() == st && driver.log == old(driver.log) + calls
    {
      ghost var k, st0, log0 := |driver.log|, State(), driver.log;
      ghost var calls: seq<Call> := [];
      var i := 0;
      while i < |pairs|
        invariant Valid()
        invariant Resetting(k, st0, log0, pairs, i, calls)
        decreases |pairs| - i
      {
        calls := ResetStep(k, st0, log0, pairs, i, calls);
        i := i + 1;
      }
      assert pairs[..i] == pairs;
    }

    /** Where the descriptor writes stand after the first `i` pairs. */
    ghost predicate Resetting(k: nat, st0: Session, log0: seq<Call>, pairs: seq<(Uuid, Uuid)>, i: int, calls: seq<Call>)
      reads this, driver
    {
      && 0 <= i <= |pairs| && k == |log0|
      && CccdAll(st0, k, pairs[..i]) == (State(), calls)
      && driver.log == log0 + calls
    }

    /** The descriptor write for the pair `i`. */
    method ResetStep(ghost k: nat, ghost st0: Session, ghost log0: seq<Call>, pairs: seq<(Uuid, Uuid)>, i: int,
                     ghost calls: seq<Call>)
      returns (ghost calls': seq<Call>)
      requires Valid() && i < |pairs|
      requires Resetting(k, st0, log0, pairs, i, calls)
      modifies this, driver
      ensures Valid()
      ensures Resetting(k, st0, log0, pairs, i + 1, calls')
    {
      ghost var st1, k1 := State(), |driver.log|;
      ResetOne(pairs[i]);
      ghost var step := CccdStep(st1, k1, pairs[i]);
      calls' := calls + step.1;
      ResetAdvances(k, st0, log0, pairs, i, calls, st1, k1, step, driver.log);
    }

    /** The loop invariant of `ResetDescriptors` moves one pair on. */
    lemma ResetAdvances(k: nat, st0: Session, log0: seq<Call>, pairs: seq<(Uuid, Uuid)>, i: int, calls: seq<Call>,
                        st1: Session, k1: nat, step: (Session, seq<Call>), log: seq<Call>)
      requires 0 <= i < |pairs| && k == |log0| && k1 == |log0 + calls|
      requires CccdAll(st0, k, pairs[..i]) == (st1, calls)
      requires step == CccdStep(st1, k1, pairs[i]) && log == log0 + calls + step.1
      ensures CccdAll(st0, k, pairs[..i + 1]) == (step.0, calls + step.1)
      ensures log == log0 + (calls + step.1)
    {
      CccdAllStep(st0, k, pairs[..i], pairs[i], (st1, calls), k1, step);
      assert pairs[..i + 1] == pairs[..i] + [pairs[i]];
    }

    /** One descriptor write of a shutdown, through the write queue. */
    method ResetOne(p: (Uuid, Uuid))
      requires Valid()
      modifies this, driver
      ensures Valid()
      ensures var step := CccdStep(old(State()), |old(driver.log)|, p);
        State() == step.0 && driver.log == old(driver.log) + step.1
    {
      var out := Submit(Kind.Write, CccdRequest(p.0, p.1, false));
      Report(out);
    }

    method TeardownWhenConnected()
      requires Valid()
      modifies this, driver
      ensures Valid()
      ensures var (st, calls) := TeardownConnected(old(State()), |old(driver.log)|);
        State() == st && driver.log == old(driver.log) + calls
    {
      if platform == IOS {
        var out := Issue(Call.CloseGatt(id));
        Report(out);
      } else if connectionOptions.invokeBTGattDisconnect {
        var out := Issue(Call.Disconnect(id));
        Report(out);
      } else {
        innerListening := false;
        var out := Issue(Call.CloseGatt(id));
        Report(out);
      }
    }

    method TeardownWhenDisconnected()
      requires Valid()
      modifies this, driver
      ensures Valid()
      ensures var (st, calls) := TeardownDisconnected(old(State()), |old(driver.log)|);
        State() == st && driver.log == old(driver.log) + calls
    {
      if connectionOptions.invokeBTGattDisconnect && platform == Android {
        var out := Issue(Call.Disconnect(id));
        if out.Err? {
          Report(out);
          return;
        }
      }
      var out := Issue(Call.CloseGatt(id));
      Report(out);
    }

    method Shutdown() returns (res: Result<(), Failure>)
      requires Valid()
      modifies this, driver
      ensures Valid()
      ensures Did(ShutdownOutcome(old(State()), |old(driver.log)|), res)
    {
      if shutdownRequested {
        return Err(ShutdownRequested(id));
      }
      RequestShutdown();
      res := Ok(());
      if !connected {
        RemoveInnerListener();
        TeardownWhenDisconnected();
        return;
      }
      ShutdownConnected();
    }

    method RequestShutdown()
      modifies this
      ensures State() == old(State()).(shutdownRequested := true, listening := false)
    {
      shutdownRequested, listening := true, false;
    }

    lemma Regroup<T>(a: seq<T>, b: seq<T>, c: seq<T>, d: seq<T>)
      ensures a + b + c + d == a + (b + c + d)
    {
    }

    lemma ConnectedShutdownSteps(st: Session, k: nat, pairs: seq<(Uuid, Uuid)>, d: (seq<Call>, seq<Failure>, seq<(Uuid, Uuid)>),
                                 st1: Session, k1: nat, s: (Session, seq<Call>), k2: nat, c: (Session, seq<Call>))
      requires d == DisableAll(k, pairs)
      requires st1 == st.(failures := st.failures + d.1) && k1 == k + |d.0|
      requires s == Settle(st1, k1)
      requires k2 == k1 + |s.1| && c == Continue(s.0, k2, d.2)
      ensures ShutdownVisiting(st, k, pairs) == (c.0, d.0 + s.1 + c.1)
    {
    }

    method ShutdownConnected()
      requires Valid()
      modifies this, driver
      ensures Valid()
      ensures var o := ConnectedShutdown(old(State()), |old(driver.log)|);
        State() == o.0 && driver.log == old(driver.log) + o.1
    {
      ghost var k, st0 := |driver.log|, State();
      var accepted := DisableNotifications(Notifications.Pairs(notified));
      ghost var disabled := DisableAll(k, Notifications.Pairs(st0.notified));
      ghost var k1, st1 := |driver.log|, State();
      SettleShutdown();
      ghost var settled := Settle(st1, k1);
      ghost var k2 := |driver.log|;
      Continuations(accepted);
      ghost var continued := Continue(settled.0, k2, accepted);
      ConnectedShutdownSteps(st0, k, Notifications.Pairs(st0.notified), disabled, st1, k1, settled, k2, continued);
      Regroup(old(driver.log), disabled.0, settled.1, continued.1);
    }

    method SettleShutdown()
      requires Valid()
      modifies this, driver
      ensures Valid()
      ensures var o := Settle(old(State()), |old(driver.log)|);
        State() == o.0 && driver.log == old(driver.log) + o.1
    {
      if |readQueue| > 0 || |writeQueue| > 0 {
        draining := true;
      } else {
        TeardownWhenConnected();
      }
    }

    /** The Android continuations of the disabling calls of a shutdown. */
    method Continuations(accepted: seq<(Uuid, Uuid)>)
      requires Valid()
      modifies this, driver
      ensures Valid()
      ensures var o := Continue(old(State()), |old(driver.log)|, accepted);
        State() == o.0 && driver.log == old(driver.log) + o.1
    {
      if platform == Android {
        ResetDescriptors(accepted);
      }
    }

    /** The end of the wait for pending requests a shutdown started. */
    function DrainedOutcome(st: Session, k: nat): (Session, seq<Call>)
    {
      if st.draining then TeardownConnected(st.(draining := false), k) else (st, [])
    }

    /** The timer of `shutdown()` fires: the teardown it postponed runs now. */
    method ShutdownWaitEnded()
      requires Valid()
      modifies this, driver
      ensures Valid()
      ensures var (st, calls) := DrainedOutcome(old(State()), |old(driver.log)|);
        State() == st && driver.log == old(driver.log) + calls
    {
      if draining {
        draining := false;
        TeardownWhenConnected();
      }
    }
  }
}
