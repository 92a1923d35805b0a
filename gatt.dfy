/** The vocabulary shared by the device session, its earlier snapshot and the scan
    coordinator: identifiers, the JavaScript objects a write hands over, the native
    driver every operation ends in, and the errors the engines raise. */
module Gatt {
  import opened Wrappers

  /** Peripheral, service, characteristic and descriptor identifiers. */
  type Uuid = string

  /** What `StaticUtils.isAndroid()` / `StaticUtils.isIOS()` report about the host. */
  datatype Platform = Android | IOS | OtherPlatform

  /** The two independent request queues of a device. */
  datatype Kind = Read | Write

  /** A JavaScript array owned by the caller; `splice` drains it in place. */
  class Bytes {
    var elems: seq<int>

    constructor (elems: seq<int>)
      ensures this.elems == elems
    {
      this.elems := elems;
    }
  }

  /** The `value` key of a write's `dataAndOptions` object: an array, or anything
      else (`Array.isArray` fails), which the engine never splits. */
  datatype Value = Array(arr: Bytes) | NotArray(text: string)

  /** The `dataAndOptions` object of a write: its value, its optional `chunkSize`
      and the remaining keys, which the engine only passes on (`extra`). */
  class WriteOptions {
    var value: Value
    const chunkSize: Option<int>
    const extra: nat

    constructor (value: Value, chunkSize: Option<int>, extra: nat)
      ensures this.value == value && this.chunkSize == chunkSize && this.extra == extra
    {
      this.value := value;
      this.chunkSize := chunkSize;
      this.extra := extra;
    }
  }

  /** A value as the native bridge copies it when a driver method is called. */
  datatype Sent = SentArray(elems: seq<int>) | SentText(text: string)

  /** The last argument of a driver read, write or notification call: opaque
      options, or a write's value together with the other keys of its object. */
  datatype Payload = Options(tag: nat) | Data(value: Sent, chunkSize: Option<int>, extra: nat)

  /** What a queued request holds for the driver: the caller's write object itself,
      read only when the request is dispatched, or a payload fixed when the
      request was built. */
  datatype Body = Shared(opts: WriteOptions) | Fixed(payload: Payload)

  function Snapshot(v: Value): Sent
    reads if v.Array? then {v.arr} else {}
  {
    match v
    case Array(a) => SentArray(a.elems)
    case NotArray(t) => SentText(t)
  }

  /** The objects whose contents decide what a body sends. */
  function Footprint(b: Body): set<object>
    reads if b.Shared? then {b.opts} else {}
  {
    match b
    case Shared(o) => {o} + (if o.value.Array? then {o.value.arr} else {})
    case Fixed(_) => {}
  }

  /** What the driver receives when a request with body `b` is dispatched now. */
  function Resolve(b: Body): Payload
    reads Footprint(b)
  {
    match b
    case Shared(o) => Data(Snapshot(o.value), o.chunkSize, o.extra)
    case Fixed(p) => p
  }

  /** One call made on the native module. */
  datatype Call =
    | ConnectGatt(id: Uuid, autoConnect: bool)
    | Connect(id: Uuid)
    | Disconnect(id: Uuid)
    | CloseGatt(id: Uuid)
    | DiscoverServices(id: Uuid, useCache: bool)
    | ReadCharacteristic(id: Uuid, service: Uuid, characteristic: Uuid, payload: Payload)
    | ReadDescriptor(id: Uuid, service: Uuid, characteristic: Uuid, descriptor: Uuid, payload: Payload)
    | WriteCharacteristic(id: Uuid, service: Uuid, characteristic: Uuid, payload: Payload)
    | WriteDescriptor(id: Uuid, service: Uuid, characteristic: Uuid, descriptor: Uuid, payload: Payload)
    | SetNotification(id: Uuid, service: Uuid, characteristic: Uuid, enable: bool, options: Option<nat>)
    | StartScan(scanOptions: nat)
    | StopScan

  /** Everything the engines raise: to their callers or to `_failureHandler`. */
  datatype Failure =
    | ShutdownRequested(id: Uuid)         // "Connection shutdown was requested for ..."
    | Rejected(call: Call)                // the driver's promise for `call` rejected
    | NothingInFlight(kind: Kind)         // completion on an empty queue: `shift()` gave undefined
    | NoNotificationEntry(service: Uuid)  // disabling under a service the table does not hold
    | ChunkSizeNotPositive(size: int)     // "dataAndOptions.chunkSize (..) can't be <= 0"
    | ScanAlreadyStarted                  // "Scan already started"
    | ScanAlreadyStopped                  // "Scan already stopped"

  /** The native module, seen only through the calls made on it. Whether a call's
      promise rejects is left to `rejects`, which is given the call's position in
      the log, so every pattern of failures is some driver. */
  class Driver {
    ghost var log: seq<Call>
    var issued: nat
    const rejects: (nat, Call) -> bool

    ghost predicate Valid()
      reads this
    {
      issued == |log|
    }

    constructor (rejects: (nat, Call) -> bool)
      ensures Valid() && log == [] && this.rejects == rejects
    {
      log := [];
      issued := 0;
      this.rejects := rejects;
    }

    /** Makes call `c`; `ok` is false when its promise rejects. */
    method Invoke(c: Call) returns (ok: bool)
      requires Valid()
      modifies this
      ensures Valid() && log == old(log) + [c]
      ensures ok == !rejects(|old(log)|, c)
    {
      ok := !rejects(issued, c);
      log := log + [c];
      issued := issued + 1;
    }
  }
}
