/** The earlier device of BluetoothDevice.js: characteristics only, no timers, no
    shutdown. It keeps the same two queues with one request of each kind at the
    driver, its chunked write copies each piece into a fresh object, and its
    listener bindings track only the `connected` flag. */
module EarlyDevice {
  import opened Wrappers
  import opened Gatt
  import RequestQueue
  import Chunking

  /** The event types a `Builder` can register listeners for. */
  datatype EventType =
    | Connected | Disconnected | ServicesDiscovered
    | CharacteristicRead | CharacteristicWritten | CharacteristicChanged

  /** The argument of `flushRequests`, as far as `==` against `true`, `false`
      and `undefined` can tell values apart: `Number` stands for any value that
      converts to that integer (a numeric string too), `Other` for a value that is
      loosely equal to none of the three. */
  datatype FlushArg = Undefined | Null | Boolean(b: bool) | Number(n: int) | Other

  /** The object a queued request hands to the driver: the caller's own write
      object (`arguments` passed on), a fixed payload (a read's options, or a
      chunk's fresh copy). */
  datatype Obj = Caller(opts: WriteOptions) | Own(payload: Payload)

  datatype Request = Request(service: Uuid, characteristic: Uuid, obj: Obj)

  /** One call of a registered listener: which binding, and the event's error flag. */
  datatype Delivery = Delivery(binding: nat, error: bool)

  /** The fields the device's methods change, as one value. */
  datatype Early = Early(connected: bool, readQueue: seq<Request>, writeQueue: seq<Request>, delivered: seq<Delivery>)
  {
    function Queue(kind: Kind): seq<Request>
    {
      if kind == Read then readQueue else writeQueue
    }

    function WithQueue(kind: Kind, q: seq<Request>): Early
    {
      if kind == Read then this.(readQueue := q) else this.(writeQueue := q)
    }
  }

  /** `read == true || read == undefined`. */
  predicate ClearsRead(a: FlushArg)
  {
    a == Boolean(true) || a == Number(1) || a == Undefined || a == Null
  }

  /** `read == false || read == undefined`. */
  predicate ClearsWrite(a: FlushArg)
  {
    a == Boolean(false) || a == Number(0) || a == Undefined || a == Null
  }

  /** `flushRequests(read)` on values. */
  function FlushOutcome(st: Early, a: FlushArg): Early
  {
    st.(readQueue := if ClearsRead(a) then [] else st.readQueue,
        writeQueue := if ClearsWrite(a) then [] else st.writeQueue)
  }

  /** No argument clears both queues, `true` only the read queue and `false`
      only the write queue; with loose equality `1` and `0` act as `true` and
      `false`, and any other value clears nothing. Nothing else changes. */
  lemma FlushVariants(st: Early, a: FlushArg)
    ensures FlushOutcome(st, Undefined) == st.(readQueue := [], writeQueue := [])
    ensures FlushOutcome(st, Boolean(true)) == st.(readQueue := [])
    ensures FlushOutcome(st, Boolean(false)) == st.(writeQueue := [])
    ensures (a == Other || (a.Number? && a.n != 0 && a.n != 1)) ==> FlushOutcome(st, a) == st
    ensures FlushOutcome(st, a).connected == st.connected && FlushOutcome(st, a).delivered == st.delivered
  {
  }

  /** The driver method a request goes to: `bt[operation + "Characteristic"]`. */
  function DispatchCall(id: Uuid, kind: Kind, r: Request, p: Payload): Call
  {
    if kind == Read then ReadCharacteristic(id, r.service, r.characteristic, p)
    else WriteCharacteristic(id, r.service, r.characteristic, p)
  }

  /** The request for one `slice` of the value: a copy of the write object with
      only its value replaced. */
  function SliceRequest(service: Uuid, characteristic: Uuid, opts: WriteOptions, piece: seq<int>): Request
  {
    Request(service, characteristic, Own(SlicePayload(opts, piece)))
  }

  function SlicePayload(opts: WriteOptions, piece: seq<int>): Payload
  {
    Data(SentArray(piece), opts.chunkSize, opts.extra)
  }

  function SliceRequests(service: Uuid, characteristic: Uuid, opts: WriteOptions, pieces: seq<seq<int>>): seq<Request>
    decreases |pieces|
  {
    if pieces == [] then []
    else [SliceRequest(service, characteristic, opts, pieces[0])] + SliceRequests(service, characteristic, opts, pieces[1..])
  }

  /** The `j`-th slice request carries the `j`-th piece. */
  lemma {:induction false} SliceRequestAt(service: Uuid, characteristic: Uuid, opts: WriteOptions,
                                          pieces: seq<seq<int>>, j: nat)
    requires j < |pieces|
    ensures var requests := SliceRequests(service, characteristic, opts, pieces);
      |requests| == |pieces| && requests[j] == SliceRequest(service, characteristic, opts, pieces[j])
    decreases |pieces|
  {
    if j > 0 {
      SliceRequestAt(service, characteristic, opts, pieces[1..], j - 1);
    } else if |pieces| > 1 {
      SliceRequestAt(service, characteristic, opts, pieces[1..], 0);
    }
  }

  /** The chunked write of `v` submits ceil(|v| / chunkSize) slices, in order,
      each of at most `chunkSize` elements, each carrying its own piece, and the
      pieces put together give `v`. */
  lemma SlicesShape(service: Uuid, characteristic: Uuid, opts: WriteOptions, v: seq<int>)
    requires opts.chunkSize.Some? && opts.chunkSize.value > 0
    ensures var size := opts.chunkSize.value;
      var pieces := Chunking.Chunks(v, size);
      var requests := SliceRequests(service, characteristic, opts, pieces);
      && |requests| == |pieces| == (|v| + size - 1) / size
      && Chunking.Concat(pieces) == v
      && forall j :: 0 <= j < |requests| ==>
           && 0 < |pieces[j]| <= size
           && requests[j].obj == Own(Data(SentArray(pieces[j]), opts.chunkSize, opts.extra))
  {
    var size := opts.chunkSize.value;
    var pieces := Chunking.Chunks(v, size);
    Chunking.ChunksCount(v, size);
    Chunking.ChunksConcat(v, size);
    Chunking.ChunksSizes(v, size);
    if pieces != [] {
      SliceRequestAt(service, characteristic, opts, pieces, 0);
    }
    forall j | 0 <= j < |pieces|
      ensures SliceRequests(service, characteristic, opts, pieces)[j] == SliceRequest(service, characteristic, opts, pieces[j])
    {
      SliceRequestAt(service, characteristic, opts, pieces, j);
    }
  }

  /** `value.slice(i, i + chunkSize)` for `i` a multiple of the chunk size below
      the length is the next piece. */
  lemma SliceIsPiece(v: seq<int>, size: nat, i: nat)
    requires size > 0 && i < |v|
    ensures var end := if i + size <= |v| then i + size else |v|;
      && Chunking.Chunks(v[i..], size) != []
      && Chunking.Chunks(v[i..], size)[0] == v[i..end]
      && Chunking.Chunks(v[i..], size)[1..] == Chunking.Chunks(Rest(v, i + size), size)
  {
    var w := v[i..];
    Chunking.ChunksTail(w, size);
    var n := if |w| <= size then |w| else size;
    assert w[..n] == v[i..i + n];
    if i + size <= |v| {
      assert w[n..] == v[i + size..];
    } else {
      assert w[n..] == [];
    }
  }

  /** What is left of `v` from index `i`: `slice(i)`, empty past the end. */
  function Rest(v: seq<int>, i: nat): seq<int>
  {
    if i <= |v| then v[i..] else []
  }

  class BluetoothDevice {
    const id: Uuid
    const driver: Driver
    /** The event type of each listener the builder registered; each gets its
        own binding of `_innerListener`. */
    const bindings: seq<EventType>

    var connected: bool
    var readQueue: seq<Request>
    var writeQueue: seq<Request>
    var delivered: seq<Delivery>

    ghost predicate Valid()
      reads this, driver
    {
      driver.Valid()
    }

    function State(): Early
      reads this
    {
      Early(connected, readQueue, writeQueue, delivered)
    }

    /** `_safeReadWrite(read, params)` with arguments: the request is appended and
        goes to the driver when its queue was empty; a rejected call throws before
        the push. */
    function SubmitOutcome(st: Early, k: nat, kind: Kind, r: Request, p: Payload): (Early, seq<Call>, Result<(), Failure>)
    {
      var call := DispatchCall(id, kind, r, p);
      if |st.Queue(kind)| > 0 then (st.WithQueue(kind, st.Queue(kind) + [r]), [], Ok(()))
      else if driver.rejects(k, call) then (st, [call], Err(Rejected(call)))
      else (st.WithQueue(kind, [r]), [call], Ok(()))
    }

    /** A submission does to its queue what the queue model's `Enqueue` does, and
        calls the driver exactly when `Enqueue` dispatches; the other queue, the
        flag and the listeners' record are untouched. */
    lemma SubmitFollowsQueueModel(st: Early, k: nat, kind: Kind, r: Request, p: Payload)
      ensures var call := DispatchCall(id, kind, r, p);
        var accepted := !driver.rejects(k, call);
        var e := RequestQueue.Enqueue(st.Queue(kind), r, accepted);
        var o := SubmitOutcome(st, k, kind, r, p);
        && o.0.Queue(kind) == e.0
        && o.0 == st.WithQueue(kind, e.0)
        && o.1 == (if e.1.Some? then [call] else [])
        && (o.2.Err? <==> e.1.Some? && !accepted)
    {
    }

    /** `_safeReadWrite(read, [])`, the completion path: `shift()` then dispatch
        of the new head, if any. An empty queue is left as it is and nothing is
        sent. `p` is what the new head sends now. */
    function CompleteOutcome(st: Early, k: nat, kind: Kind, p: Payload): (Early, seq<Call>, Result<(), Failure>)
    {
      var q := st.Queue(kind);
      if |q| == 0 then (st, [], Ok(()))
      else
        var st1 := st.WithQueue(kind, q[1..]);
        if |q| == 1 then (st1, [], Ok(()))
        else
          var call := DispatchCall(id, kind, q[1], p);
          if driver.rejects(k, call) then (st1, [call], Err(Rejected(call))) else (st1, [call], Ok(()))
    }

    /** A completion does to a non-empty queue what the queue model's `Advance`
        does and dispatches what `Advance` dispatches; on an empty queue nothing
        happens. */
    lemma CompleteFollowsQueueModel(st: Early, k: nat, kind: Kind, p: Payload)
      ensures var q := st.Queue(kind);
        var o := CompleteOutcome(st, k, kind, p);
        && (|q| == 0 ==> o == (st, [], Ok(())))
        && (|q| > 0 ==>
              var next := RequestQueue.Advance(q).1;
              && o.0 == st.WithQueue(kind, RequestQueue.Advance(q).0)
              && o.1 == (if next.Some? then [DispatchCall(id, kind, next.value, p)] else [])
              && (o.2.Err? <==> next.Some? && driver.rejects(k, DispatchCall(id, kind, next.value, p))))
    {
    }

    /** The submissions of the slices of a chunked write, in order, ending at
        the first one that throws. */
    function SubmitAll(st: Early, k: nat, service: Uuid, characteristic: Uuid, opts: WriteOptions,
                       pieces: seq<seq<int>>): (Early, seq<Call>, Result<(), Failure>)
      decreases |pieces|
    {
      if pieces == [] then (st, [], Ok(()))
      else
        var first := SubmitOutcome(st, k, Kind.Write, SliceRequest(service, characteristic, opts, pieces[0]),
                                   SlicePayload(opts, pieces[0]));
        if first.2.Err? then first
        else
          var rest := SubmitAll(first.0, k + |first.1|, service, characteristic, opts, pieces[1..]);
          (rest.0, first.1 + rest.1, rest.2)
    }

    /** A chunked write with a request in flight appends every slice request and
        calls nothing. */
    lemma {:induction false} SubmitAllToBusyQueue(st: Early, k: nat, service: Uuid, characteristic: Uuid,
                                                  opts: WriteOptions, pieces: seq<seq<int>>)
      requires |st.writeQueue| > 0
      ensures SubmitAll(st, k, service, characteristic, opts, pieces)
           == (st.(writeQueue := st.writeQueue + SliceRequests(service, characteristic, opts, pieces)), [], Ok(()))
      decreases |pieces|
    {
      if pieces == [] {
        assert st.writeQueue + [] == st.writeQueue;
      } else {
        var r := SliceRequest(service, characteristic, opts, pieces[0]);
        var tail := SliceRequests(service, characteristic, opts, pieces[1..]);
        var st1 := st.(writeQueue := st.writeQueue + [r]);
        AppendToBusyQueue(st, k, r, SlicePayload(opts, pieces[0]));
        var rest := SubmitAll(st1, k, service, characteristic, opts, pieces[1..]);
        assert SubmitAll(st, k, service, characteristic, opts, pieces) == (rest.0, [] + rest.1, rest.2);
        SubmitAllToBusyQueue(st1, k, service, characteristic, opts, pieces[1..]);
        AppendTwice(st, r, tail);
        assert rest == (st1.(writeQueue := st1.writeQueue + tail), [], Ok(()));
        assert SliceRequests(service, characteristic, opts, pieces) == [r] + tail;
        assert [] + rest.1 == [];
      }
    }

    /** A write submitted behind a request in flight is only appended. */
    lemma AppendToBusyQueue(st: Early, k: nat, r: Request, p: Payload)
      requires |st.writeQueue| > 0
      ensures SubmitOutcome(st, k, Kind.Write, r, p) == (st.(writeQueue := st.writeQueue + [r]), [], Ok(()))
    {
    }

    static lemma AppendTwice(st: Early, r: Request, tail: seq<Request>)
      ensures var st1 := st.(writeQueue := st.writeQueue + [r]);
        st1.(writeQueue := st1.writeQueue + tail) == st.(writeQueue := st.writeQueue + ([r] + tail))
    {
      assert st.writeQueue + [r] + tail == st.writeQueue + ([r] + tail);
    }

    /** A chunked write to an idle write queue calls the driver once, with the
        first slice; only when it accepts are all the slice requests queued. */
    lemma SubmitAllToIdleQueue(st: Early, k: nat, service: Uuid, characteristic: Uuid,
                               opts: WriteOptions, pieces: seq<seq<int>>)
      requires |st.writeQueue| == 0 && pieces != []
      ensures var call := Call.WriteCharacteristic(id, service, characteristic, SlicePayload(opts, pieces[0]));
        SubmitAll(st, k, service, characteristic, opts, pieces) ==
          if driver.rejects(k, call) then (st, [call], Err(Rejected(call)))
          else (st.(writeQueue := SliceRequests(service, characteristic, opts, pieces)), [call], Ok(()))
    {
      var r := SliceRequest(service, characteristic, opts, pieces[0]);
      var call := Call.WriteCharacteristic(id, service, characteristic, SlicePayload(opts, pieces[0]));
      if !driver.rejects(k, call) {
        var st1 := st.(writeQueue := [r]);
        var first := SubmitOutcome(st, k, Kind.Write, r, SlicePayload(opts, pieces[0]));
        assert first == (st1, [call], Ok(()));
        var rest := SubmitAll(st1, k + 1, service, characteristic, opts, pieces[1..]);
        assert SubmitAll(st, k, service, characteristic, opts, pieces) == (rest.0, first.1 + rest.1, rest.2);
        SubmitAllToBusyQueue(st1, k + 1, service, characteristic, opts, pieces[1..]);
        assert SliceRequests(service, characteristic, opts, pieces) == [r] + SliceRequests(service, characteristic, opts, pieces[1..]);
        assert st1.writeQueue + SliceRequests(service, characteristic, opts, pieces[1..])
            == SliceRequests(service, characteristic, opts, pieces);
        assert first.1 + rest.1 == [call];
      }
    }

    /** `_innerListener(listener, data)` for binding `b`: an event of another
        device is ignored; CONNECTED sets the flag and DISCONNECTED clears it,
        whatever the error flag; then the listener is called. */
    function EventOutcome(st: Early, b: nat, eventId: Uuid, error: bool): Early
      requires b < |bindings|
    {
      if eventId != id then st
      else
        var flag := match bindings[b]
          case Connected => true
          case Disconnected => false
          case _ => st.connected;
        st.(connected := flag, delivered := st.delivered + [Delivery(b, error)])
    }

    /** The flag follows CONNECTED and DISCONNECTED regardless of the error flag,
        no other event moves it, no event touches the queues, and events of
        another device change nothing. */
    lemma EventFlags(st: Early, b: nat, eventId: Uuid, error: bool)
      requires b < |bindings|
      ensures var o := EventOutcome(st, b, eventId, error);
        && (eventId != id ==> o == st)
        && (eventId == id ==>
              && o.connected == (if bindings[b] == Connected then true
                                 else if bindings[b] == Disconnected then false else st.connected)
              && o.readQueue == st.readQueue && o.writeQueue == st.writeQueue
              && o.delivered == st.delivered + [Delivery(b, error)])
    {
    }

    /** Nothing in this device calls the completion path: its listeners only
        move the `connected` flag. So once a request is at the driver, a second
        one of the same kind is only queued, and no event sends it. */
    lemma SecondRequestWaits(st: Early, k: nat, kind: Kind, r1: Request, p1: Payload, r2: Request, p2: Payload,
                             b: nat, eventId: Uuid, error: bool)
      requires b < |bindings|
      requires |st.Queue(kind)| == 0 && !driver.rejects(k, DispatchCall(id, kind, r1, p1))
      ensures var s1 := SubmitOutcome(st, k, kind, r1, p1).0;
        var s2 := EventOutcome(s1, b, eventId, error);
        var o := SubmitOutcome(s2, k + 1, kind, r2, p2);
        && SubmitOutcome(st, k, kind, r1, p1).1 == [DispatchCall(id, kind, r1, p1)]
        && o.1 == [] && o.2 == Ok(())
        && o.0.Queue(kind) == [r1, r2]
    {
      var s1 := SubmitOutcome(st, k, kind, r1, p1).0;
      assert s1.Queue(kind) == [r1];
      assert EventOutcome(s1, b, eventId, error).Queue(kind) == [r1];
    }

    constructor (id: Uuid, driver: Driver, bindings: seq<EventType>)
      requires driver.Valid()
      ensures Valid() && this.id == id && this.driver == driver && this.bindings == bindings
      ensures State() == Early(false, [], [], [])
    {
      this.id := id;
      this.driver := driver;
      this.bindings := bindings;
      connected := false;
      readQueue, writeQueue, delivered := [], [], [];
    }

    method FlushRequests(read: FlushArg)
      requires Valid()
      modifies this
      ensures Valid()
      ensures State() == FlushOutcome(old(State()), read)
    {
      if read == Boolean(true) || read == Number(1) || read == Undefined || read == Null {
        readQueue := [];
      }
      if read == Boolean(false) || read == Number(0) || read == Undefined || read == Null {
        writeQueue := [];
      }
    }

    /** `_innerListener` bound to the listener at index `b`. */
    method OnEvent(b: nat, eventId: Uuid, error: bool)
      requires Valid() && b < |bindings|
      modifies this
      ensures Valid()
      ensures State() == EventOutcome(old(State()), b, eventId, error)
    {
      if eventId == id {
        if bindings[b] == Connected {
          connected := true;
        } else if bindings[b] == Disconnected {
          connected := false;
        }
        delivered := delivered + [Delivery(b, error)];
      }
    }

    /** `_safeReadWrite(read, params)` with arguments. */
    method Submit(kind: Kind, r: Request) returns (res: Result<(), Failure>)
      requires Valid()
      modifies this, driver
      ensures Valid()
      ensures var o := SubmitOutcome(old(State()), |old(driver.log)|, kind, r, old(Resolve(r.obj)));
        State() == o.0 && driver.log == old(driver.log) + o.1 && res == o.2
    {
      res := Ok(());
      if |Queue(kind)| == 0 {
        var call := DispatchCall(id, kind, r, Resolve(r.obj));
        var ok := driver.Invoke(call);
        if !ok {
          return Err(Rejected(call));
        }
      }
      if kind == Read {
        readQueue := readQueue + [r];
      } else {
        writeQueue := writeQueue + [r];
      }
    }

    /** `_safeReadWrite(read, [])`. */
    method Complete(kind: Kind) returns (res: Result<(), Failure>)
      requires Valid()
      modifies this, driver
      ensures Valid()
      ensures var o := CompleteOutcome(old(State()), |old(driver.log)|, kind, old(NextPayload(Queue(kind))));
        State() == o.0 && driver.log == old(driver.log) + o.1 && res == o.2
    {
      res := Ok(());
      var q := Queue(kind);
      if |q| == 0 {
        return;
      }
      if kind == Read {
        readQueue := readQueue[1..];
      } else {
        writeQueue := writeQueue[1..];
      }
      if |q| > 1 {
        var call := DispatchCall(id, kind, q[1], Resolve(q[1].obj));
        var ok := driver.Invoke(call);
        if !ok {
          res := Err(Rejected(call));
        }
      }
    }

    function Queue(kind: Kind): seq<Request>
      reads this
    {
      if kind == Read then readQueue else writeQueue
    }

    /** The objects the request behind the head of a queue reads when it is
        dispatched. */
    static function NextFootprint(q: seq<Request>): set<object>
      reads if |q| > 1 && q[1].obj.Caller? then {q[1].obj.opts} else {}
    {
      if |q| > 1 && q[1].obj.Caller? then {q[1].obj.opts} + Owned(q[1].obj.opts.value) else {}
    }

    static function NextPayload(q: seq<Request>): Payload
      reads NextFootprint(q)
    {
      if |q| > 1 then Resolve(q[1].obj) else Options(0)
    }

    static function Owned(v: Value): set<object>
    {
      if v.Array? then {v.arr} else {}
    }

    static function Resolve(o: Obj): Payload
      reads if o.Caller? then {o.opts} + Owned(o.opts.value) else {}
    {
      match o
      case Caller(opts) => Data(Snapshot(opts.value), opts.chunkSize, opts.extra)
      case Own(p) => p
    }

    method ReadCharacteristic(service: Uuid, characteristic: Uuid, options: nat) returns (res: Result<(), Failure>)
      requires Valid()
      modifies this, driver
      ensures Valid()
      ensures var o := SubmitOutcome(old(State()), |old(driver.log)|, Read,
                                     Request(service, characteristic, Own(Options(options))), Options(options));
        State() == o.0 && driver.log == old(driver.log) + o.1 && res == o.2
    {
      res := Submit(Read, Request(service, characteristic, Own(Options(options))));
    }

    /** `writeCharacteristic`: one request holding the caller's object unless the
        value is an array longer than a given chunk size; then a chunk size that
        is not positive throws before any request, and otherwise the slices are
        submitted in order. The caller's object and array are left alone. */
    method WriteCharacteristic(service: Uuid, characteristic: Uuid, opts: WriteOptions) returns (res: Result<(), Failure>)
      requires Valid()
      modifies this, driver
      ensures Valid()
      ensures var st, k := old(State()), |old(driver.log)|;
        var v := old(Snapshot(opts.value));
        var o :=
          if !(opts.chunkSize.Some? && v.SentArray? && |v.elems| > opts.chunkSize.value) then
            SubmitOutcome(st, k, Kind.Write, Request(service, characteristic, Caller(opts)), Data(v, opts.chunkSize, opts.extra))
          else if opts.chunkSize.value <= 0 then (st, [], Err(ChunkSizeNotPositive(opts.chunkSize.value)))
          else SubmitAll(st, k, service, characteristic, opts, Chunking.Chunks(v.elems, opts.chunkSize.value));
        State() == o.0 && driver.log == old(driver.log) + o.1 && res == o.2
    {
      if !(opts.chunkSize.Some? && opts.value.Array? && |opts.value.arr.elems| > opts.chunkSize.value) {
        res := Submit(Kind.Write, Request(service, characteristic, Caller(opts)));
        return;
      }
      if opts.chunkSize.value <= 0 {
        return Err(ChunkSizeNotPositive(opts.chunkSize.value));
      }
      res := SubmitSlices(service, characteristic, opts);
    }

    /** One round of the slice loop: submitting the first remaining piece moves
        its calls from what is still to come to what the driver has received. */
    lemma SliceStep(goal: (Early, seq<Call>, Result<(), Failure>), log0: seq<Call>, log1: seq<Call>, log2: seq<Call>,
                    st1: Early, service: Uuid, characteristic: Uuid, opts: WriteOptions, pieces: seq<seq<int>>)
      requires pieces != [] && |log0| <= |log1|
      requires var rest := SubmitAll(st1, |log1|, service, characteristic, opts, pieces);
        goal == (rest.0, log1[|log0|..] + rest.1, rest.2)
      requires var first := SubmitOutcome(st1, |log1|, Kind.Write, SliceRequest(service, characteristic, opts, pieces[0]),
                                          SlicePayload(opts, pieces[0]));
        log2 == log1 + first.1
      ensures var first := SubmitOutcome(st1, |log1|, Kind.Write, SliceRequest(service, characteristic, opts, pieces[0]),
                                         SlicePayload(opts, pieces[0]));
        var rest := SubmitAll(first.0, |log2|, service, characteristic, opts, pieces[1..]);
        && |log0| <= |log2|
        && (first.2.Err? ==> goal == (first.0, log2[|log0|..], first.2))
        && (first.2.Ok? ==> goal == (rest.0, log2[|log0|..] + rest.1, rest.2))
    {
      var first := SubmitOutcome(st1, |log1|, Kind.Write, SliceRequest(service, characteristic, opts, pieces[0]),
                                 SlicePayload(opts, pieces[0]));
      var rest := SubmitAll(first.0, |log2|, service, characteristic, opts, pieces[1..]);
      var all := SubmitAll(st1, |log1|, service, characteristic, opts, pieces);
      assert all == if first.2.Err? then first else (rest.0, first.1 + rest.1, rest.2);
      ShiftLog(goal, log0, log1, log2, first, rest, all);
    }

    /** The sequence arithmetic of `SliceStep`: the calls of a first step move
        from the rest of the outcome into the log. */
    static lemma ShiftLog<S, R>(goal: (S, seq<Call>, Result<R, Failure>), log0: seq<Call>, log1: seq<Call>, log2: seq<Call>,
                                first: (S, seq<Call>, Result<R, Failure>), rest: (S, seq<Call>, Result<R, Failure>),
                                all: (S, seq<Call>, Result<R, Failure>))
      requires |log0| <= |log1| && log2 == log1 + first.1
      requires all == if first.2.Err? then first else (rest.0, first.1 + rest.1, rest.2)
      requires goal == (all.0, log1[|log0|..] + all.1, all.2)
      ensures |log0| <= |log2|
      ensures first.2.Err? ==> goal == (first.0, log2[|log0|..], first.2)
      ensures first.2.Ok? ==> goal == (rest.0, log2[|log0|..] + rest.1, rest.2)
    {
      assert log2[|log0|..] == log1[|log0|..] + first.1;
      if first.2.Ok? {
        assert log1[|log0|..] + (first.1 + rest.1) == log2[|log0|..] + rest.1;
      }
    }

    /** The loop invariant of the slice loop: what the driver has received since
        `log0`, followed by what submitting the slices from `i` on will do, is the
        whole chunked write `goal`. */
    ghost predicate SlicesOnTrack(goal: (Early, seq<Call>, Result<(), Failure>), log0: seq<Call>,
                                  service: Uuid, characteristic: Uuid, opts: WriteOptions, v: seq<int>, size: nat, i: nat)
      reads this, driver
      requires size > 0
    {
      && |log0| <= |driver.log| && driver.log[..|log0|] == log0
      && var rest := SubmitAll(State(), |driver.log|, service, characteristic, opts, Chunking.Chunks(Rest(v, i), size));
         goal == (rest.0, driver.log[|log0|..] + rest.1, rest.2)
    }

    /** The `for` loop of `writeCharacteristic`: `i` steps by the chunk size, and
        each round submits a copy of the write object holding `slice(i, i + chunkSize)`. */
    method SubmitSlices(service: Uuid, characteristic: Uuid, opts: WriteOptions) returns (res: Result<(), Failure>)
      requires Valid()
      requires opts.chunkSize.Some? && opts.chunkSize.value > 0 && opts.value.Array?
      modifies this, driver
      ensures Valid()
      ensures var o := SubmitAll(old(State()), |old(driver.log)|, service, characteristic, opts,
                                 Chunking.Chunks(opts.value.arr.elems, opts.chunkSize.value));
        State() == o.0 && driver.log == old(driver.log) + o.1 && res == o.2
    {
      var size := opts.chunkSize.value;
      var v := opts.value.arr.elems;
      ghost var log0 := driver.log;
      ghost var goal := SubmitAll(State(), |driver.log|, service, characteristic, opts, Chunking.Chunks(v, size));
      assert Rest(v, 0) == v;
      assert driver.log[|log0|..] == [];
      assert driver.log[|log0|..] + goal.1 == goal.1;
      var i := 0;
      while i < |v|
        invariant Valid()
        invariant SlicesOnTrack(goal, log0, service, characteristic, opts, v, size, i)
        decreases |v| - i
      {
        var r := SliceRound(goal, log0, service, characteristic, opts, v, size, i);
        if r.Err? {
          assert driver.log == log0 + driver.log[|log0|..];
          return r;
        }
        i := i + size;
      }
      assert Rest(v, i) == [];
      assert driver.log == log0 + driver.log[|log0|..];
      res := Ok(());
    }

    /** One round of the slice loop. */
    method SliceRound(ghost goal: (Early, seq<Call>, Result<(), Failure>), ghost log0: seq<Call>,
                      service: Uuid, characteristic: Uuid, opts: WriteOptions, v: seq<int>, size: nat, i: nat)
      returns (r: Result<(), Failure>)
      requires Valid() && size > 0 && i < |v|
      requires SlicesOnTrack(goal, log0, service, characteristic, opts, v, size, i)
      modifies this, driver
      ensures Valid()
      ensures r.Ok? ==> SlicesOnTrack(goal, log0, service, characteristic, opts, v, size, i + size)
      ensures r.Err? ==> |log0| <= |driver.log| && driver.log[..|log0|] == log0
                         && goal == (State(), driver.log[|log0|..], r)
    {
      var end := if i + size <= |v| then i + size else |v|;
      var piece := v[i..end];
      SliceIsPiece(v, size, i);
      ghost var log1, st1 := driver.log, State();
      r := Submit(Kind.Write, SliceRequest(service, characteristic, opts, piece));
      SliceStep(goal, log0, log1, driver.log, st1, service, characteristic, opts, Chunking.Chunks(v[i..], size));
      assert driver.log[..|log0|] == log1[..|log0|];
    }
  }
}
