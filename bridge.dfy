/**
 * The cgo bridge between libhackrf's streaming threads and Go handlers
 * (hackrf/device.go): the process-wide callback slot table, the per-transfer
 * dispatch entry point cbGo, and the Device methods that register handlers
 * and start, stop and close the native device.
 *
 * Calls into libhackrf are not modelled: the status code such a call returns
 * is a parameter, and the arguments handed to hackrf_start_rx/tx are returned
 * as a StartRequest so that callers can see them.
 */
module Bridge {
  import opened Wrappers
  import opened Errors

  newtype byte = b: int | 0 <= b < 256

  /** A Go uintptr on a 64-bit platform. */
  const UintptrLimit: int := 0x1_0000_0000_0000_0000
  type Uintptr = u: int | 0 <= u < UintptrLimit

  /** Go's int(u) for a 64-bit uintptr: values from 2^63 on wrap to negative ints. */
  function IntOfUintptr(u: Uintptr): (i: int)
    ensures -UintptrLimit / 2 <= i < UintptrLimit / 2
    ensures i == u || i == u - UintptrLimit
  {
    if u < UintptrLimit / 2 then u else u - UintptrLimit
  }

  /** The length of the array type `*[1 << 30]byte` that cbGo casts the buffer to. */
  const MaxView: int := 0x4000_0000

  /**
   * The slice handed to a handler: its elements and its capacity. The Go
   * slice is cut as [:n:n], so length and capacity are both n.
   */
  datatype View = View(bytes: seq<byte>, cap: nat)

  /** A handler, Go's Callback: true when it returns a non-nil error. */
  type Callback = View -> bool

  /** callbackContext: one registered handler; a fresh object per start. */
  class CallbackContext {
    const cb: Callback
    const tx: bool
    const dev: Device

    constructor (cb: Callback, tx: bool, dev: Device)
      ensures this.cb == cb && this.tx == tx && this.dev == dev
    {
      this.cb := cb;
      this.tx := tx;
      this.dev := dev;
    }
  }

  /**
   * A hackrf_transfer as cbGo reads it: the sample buffer libhackrf owns,
   * the number of valid bytes in it, and the two opaque context tokens.
   */
  datatype Transfer = Transfer(buffer: seq<byte>, validLength: int, rxCtx: Uintptr, txCtx: Uintptr)

  /** libhackrf fills at most the buffer it owns. */
  predicate WellFormed(t: Transfer)
  {
    0 <= t.validLength <= |t.buffer|
  }

  /** A handler invocation: which context ran, and on which view. */
  datatype Call = Call(ctx: CallbackContext, view: View)

  /**
   * What one cbGo invocation does: return a code to libhackrf, having called
   * at most one handler; or panic, when the slot index is negative or when
   * valid_length is beyond the bound of the array type the buffer is cast to.
   */
  datatype Dispatch = Returned(code: int, call: Option<Call>) | IndexPanic | SlicePanic

  /** The slot cbGo reads: rx_ctx under direction flag 0, tx_ctx otherwise. */
  function SlotIndex(t: Transfer, tx: int): (s: int)
    ensures tx == 0 ==> s == IntOfUintptr(t.rxCtx)
    ensures tx != 0 ==> s == IntOfUintptr(t.txCtx)
  {
    IntOfUintptr(if tx == 0 then t.rxCtx else t.txCtx)
  }

  /** True when slot s of the table holds no context (out of range or nil). */
  predicate Vacant(callbacks: seq<CallbackContext?>, s: int)
  {
    s >= |callbacks| || (0 <= s && callbacks[s] == null)
  }

  /**
   * cbGo, given the slot table it reads under the read lock, one transfer and
   * the trampoline's direction flag.
   */
  function CbGo(callbacks: seq<CallbackContext?>, t: Transfer, tx: int): (r: Dispatch)
    requires WellFormed(t)
    ensures r.IndexPanic? <==> SlotIndex(t, tx) < 0
    ensures r.SlicePanic? <==>
              SlotIndex(t, tx) >= 0 && !Vacant(callbacks, SlotIndex(t, tx)) && t.validLength > MaxView
    ensures r.Returned? ==> r.code == -1 || r.code == 0
    ensures r.Returned? ==> (r.call.None? <==> Vacant(callbacks, SlotIndex(t, tx)))
    ensures r.Returned? && r.call.None? ==> r.code == -1
    ensures r.Returned? && r.call.Some? ==>
              var s, call := SlotIndex(t, tx), r.call.value;
              && 0 <= s < |callbacks|
              && call.ctx == callbacks[s]
              && call.view.bytes == t.buffer[..t.validLength]
              && |call.view.bytes| == call.view.cap == t.validLength <= MaxView
              && (r.code == 0 <==> !call.ctx.cb(call.view))
  {
    var s := SlotIndex(t, tx);
    if s >= |callbacks| then Returned(-1, None)
    else if s < 0 then IndexPanic
    else if callbacks[s] == null then Returned(-1, None)
    else
      var ctx: CallbackContext := callbacks[s];
      if t.validLength > MaxView then SlicePanic
      else
        var view := View(t.buffer[..t.validLength], t.validLength);
        Returned(if ctx.cb(view) then -1 else 0, Some(Call(ctx, view)))
  }

  /** The slot registerCallback picks: the lowest nil entry, or the length when none is nil. */
  function FirstFree(callbacks: seq<CallbackContext?>): (i: nat)
    ensures i <= |callbacks|
    ensures i < |callbacks| ==> callbacks[i] == null
    ensures forall j :: 0 <= j < i ==> callbacks[j] != null
    ensures i == |callbacks| <==> null !in callbacks
  {
    if callbacks == [] then 0
    else if callbacks[0] == null then 0
    else 1 + FirstFree(callbacks[1..])
  }

  /** The table after registerCallback stores ctx. */
  function Insert(callbacks: seq<CallbackContext?>, ctx: CallbackContext): (r: seq<CallbackContext?>)
    ensures null in callbacks ==> |r| == |callbacks|
    ensures null !in callbacks ==> |r| == |callbacks| + 1
    ensures r[FirstFree(callbacks)] == ctx
    ensures forall j :: 0 <= j < |callbacks| && j != FirstFree(callbacks) ==> r[j] == callbacks[j]
  {
    var i := FirstFree(callbacks);
    if i < |callbacks| then callbacks[i := ctx] else callbacks + [ctx]
  }

  /** The table after a run of registrations, in order. */
  function RegisterAll(callbacks: seq<CallbackContext?>, ctxs: seq<CallbackContext>): seq<CallbackContext?>
    decreases |ctxs|
  {
    if ctxs == [] then callbacks else RegisterAll(Insert(callbacks, ctxs[0]), ctxs[1..])
  }

  /**
   * Registration never frees anything: over any run of registrations the
   * table grows by at most one entry per registration, never shrinks, and no
   * entry that held a context is reset to nil or replaced.
   */
  lemma {:induction false} RegistrationsNeverFree(callbacks: seq<CallbackContext?>, ctxs: seq<CallbackContext>)
    ensures |callbacks| <= |RegisterAll(callbacks, ctxs)| <= |callbacks| + |ctxs|
    ensures forall j :: 0 <= j < |callbacks| && callbacks[j] != null ==>
              RegisterAll(callbacks, ctxs)[j] == callbacks[j]
    decreases |ctxs|
  {
    if ctxs != [] {
      var next := Insert(callbacks, ctxs[0]);
      RegistrationsNeverFree(next, ctxs[1..]);
    }
  }

  /**
   * Registering into a table with no nil entry appends: the returned slot is
   * the old length, and registering n contexts into a nil-free table places
   * them at consecutive slots after the old ones.
   */
  lemma {:induction false} RegisterAllAppends(callbacks: seq<CallbackContext?>, ctxs: seq<CallbackContext>)
    requires null !in callbacks
    ensures RegisterAll(callbacks, ctxs) == callbacks + ctxs
    decreases |ctxs|
  {
    if ctxs != [] {
      var next := Insert(callbacks, ctxs[0]);
      assert next == callbacks + [ctxs[0]];
      RegisterAllAppends(next, ctxs[1..]);
      assert callbacks + [ctxs[0]] + ctxs[1..] == callbacks + ctxs;
    }
  }

  /**
   * Register then dispatch: a transfer that carries the slot registerCallback
   * returned reaches the new context, with a view of exactly the valid bytes,
   * and its code is 0 exactly when the handler succeeds.
   */
  lemma DispatchAfterRegister(callbacks: seq<CallbackContext?>, ctx: CallbackContext, t: Transfer, tx: int)
    requires WellFormed(t) && t.validLength <= MaxView
    requires |callbacks| < UintptrLimit / 2
    requires (if tx == 0 then t.rxCtx else t.txCtx) == FirstFree(callbacks)
    ensures var view := View(t.buffer[..t.validLength], t.validLength);
            CbGo(Insert(callbacks, ctx), t, tx)
              == Returned(if ctx.cb(view) then -1 else 0, Some(Call(ctx, view)))
  {
  }

  /** Under flag 0 (the rx trampoline) the tx_ctx token is never consulted. */
  lemma RxTrampolineIgnoresTxCtx(callbacks: seq<CallbackContext?>, t: Transfer, other: Uintptr)
    requires WellFormed(t)
    ensures CbGo(callbacks, t, 0) == CbGo(callbacks, t.(txCtx := other), 0)
  {
  }

  /** Under any non-zero flag (the tx trampoline) the rx_ctx token is never consulted. */
  lemma TxTrampolineIgnoresRxCtx(callbacks: seq<CallbackContext?>, t: Transfer, tx: int, other: Uintptr)
    requires WellFormed(t)
    requires tx != 0
    ensures CbGo(callbacks, t, tx) == CbGo(callbacks, t.(rxCtx := other), tx)
  {
  }

  /** The number of bytes handed to handlers over a run of dispatches. */
  function Delivered(callbacks: seq<CallbackContext?>, ts: seq<Transfer>, tx: int): nat
    requires forall k :: 0 <= k < |ts| ==> WellFormed(ts[k])
    decreases |ts|
  {
    if ts == [] then 0
    else
      var r := CbGo(callbacks, ts[0], tx);
      (if r.Returned? && r.call.Some? then |r.call.value.view.bytes| else 0)
      + Delivered(callbacks, ts[1..], tx)
  }

  /** The total of the valid lengths of a run of transfers. */
  function SumValid(ts: seq<Transfer>): int
    decreases |ts|
  {
    if ts == [] then 0 else ts[0].validLength + SumValid(ts[1..])
  }

  /**
   * A handler registered at slot s sees every valid byte of every transfer
   * that carries s: the bytes delivered add up to the sum of the valid lengths.
   */
  lemma {:induction false} DeliveredToRegisteredSlot(callbacks: seq<CallbackContext?>, ts: seq<Transfer>, tx: int, s: nat)
    requires s < |callbacks| && callbacks[s] != null
    requires forall k :: 0 <= k < |ts| ==>
               WellFormed(ts[k]) && ts[k].validLength <= MaxView && SlotIndex(ts[k], tx) == s
    ensures Delivered(callbacks, ts, tx) == SumValid(ts)
    decreases |ts|
  {
    if ts != [] {
      DeliveredToRegisteredSlot(callbacks, ts[1..], tx, s);
    }
  }

  /**
   * The hardware test's byte counter: three receive transfers of 4096, 4096
   * and 2048 valid bytes on the slot of the first registration hand exactly
   * 10240 bytes to its handler.
   */
  lemma ByteCountScenario(ctx: CallbackContext, buffer: seq<byte>)
    requires |buffer| == 4096
    ensures var ts := [Transfer(buffer, 4096, 0, 0), Transfer(buffer, 4096, 0, 0), Transfer(buffer, 2048, 0, 0)];
            Delivered(Insert([], ctx), ts, 0) == 10240
  {
    var ts := [Transfer(buffer, 4096, 0, 0), Transfer(buffer, 4096, 0, 0), Transfer(buffer, 2048, 0, 0)];
    DeliveredToRegisteredSlot(Insert([], ctx), ts, 0, 0);
    assert SumValid(ts) == 4096 + SumValid(ts[1..]);
    assert SumValid(ts[1..]) == 4096 + SumValid(ts[2..]);
  }

  /** Two registrations in a row get different slots, the second one higher. */
  lemma NextSlotIsHigher(callbacks: seq<CallbackContext?>, ctx: CallbackContext)
    ensures FirstFree(Insert(callbacks, ctx)) > FirstFree(callbacks)
  {
  }

  /** The process-wide slot table, Go's package variable callbacks. */
  class Registry {
    var callbacks: seq<CallbackContext?>

    constructor ()
      ensures callbacks == []
    {
      callbacks := [];
    }
  }

  /** The trampolines of exports.c: rxCB calls cbGo with flag 0, txCB with flag 1. */
  datatype Trampoline = RxCB | TxCB

  function Flag(t: Trampoline): (f: int)
    ensures f == 0 <==> t == RxCB
    ensures f == 0 || f == 1
  {
    match t
    case RxCB => 0
    case TxCB => 1
  }

  /** A native device pointer: nil, or a handle libhackrf returned. */
  datatype Handle = Nil | Native(id: nat)

  /** The two libhackrf entry points that start streaming. */
  datatype NativeStart = HackrfStartRx | HackrfStartTx

  /** A call Go makes to start streaming: which entry point, and its arguments. */
  datatype StartRequest = StartRequest(call: NativeStart, dev: Handle, trampoline: Trampoline, ctx: Uintptr)

  /** Device: the native handle and the slots its starts have registered. */
  class Device {
    var cdev: Handle
    var callbacks: seq<int>

    constructor (cdev: Handle)
      ensures this.cdev == cdev && callbacks == []
    {
      this.cdev := cdev;
      callbacks := [];
    }

    /**
     * Close: `status` is what hackrf_close returned; the handle is cleared
     * only on success. No registered slot is touched.
     */
    method Close(codes: Codes, status: int) returns (e: Option<Error>)
      modifies this
      ensures e == ToError(codes, status)
      ensures cdev == (if status == codes.success then Nil else old(cdev))
      ensures callbacks == old(callbacks)
    {
      e := ToError(codes, status);
      if e == None {
        cdev := Nil;
      }
    }

    /**
     * registerCallback: store ctx in the lowest nil slot, or append one, and
     * record the slot in this device's list.
     */
    method RegisterCallback(reg: Registry, ctx: CallbackContext) returns (cbIx: int)
      modifies reg, this
      ensures cbIx == FirstFree(old(reg.callbacks))
      ensures reg.callbacks == Insert(old(reg.callbacks), ctx)
      ensures callbacks == old(callbacks) + [cbIx]
      ensures cdev == old(cdev)
    {
      cbIx := -1;
      var i := 0;
      while i < |reg.callbacks|
        invariant 0 <= i <= |reg.callbacks|
        invariant reg.callbacks == old(reg.callbacks)
        invariant forall j :: 0 <= j < i ==> reg.callbacks[j] != null
        invariant cbIx == -1
      {
        if reg.callbacks[i] == null {
          cbIx := i;
          reg.callbacks := reg.callbacks[i := ctx];
          break;
        }
        i := i + 1;
      }
      if cbIx < 0 {
        cbIx := |reg.callbacks|;
        reg.callbacks := reg.callbacks + [ctx];
      }
      callbacks := callbacks + [cbIx];
    }

    /**
     * StartRX: register a receive context, then ask libhackrf to start
     * receiving through the rx trampoline with the slot as context. `status`
     * is what hackrf_start_rx returned; a failure leaves the slot registered.
     */
    method StartRX(reg: Registry, cb: Callback, codes: Codes, status: int) returns (e: Option<Error>, req: StartRequest)
      requires |reg.callbacks| < UintptrLimit / 2
      modifies reg, this
      ensures var slot := FirstFree(old(reg.callbacks));
              && slot < |reg.callbacks|
              && var ctx := reg.callbacks[slot];
              && ctx != null && fresh(ctx)
              && ctx.cb == cb && !ctx.tx && ctx.dev == this
              && reg.callbacks == Insert(old(reg.callbacks), ctx)
              && callbacks == old(callbacks) + [slot]
              && req == StartRequest(HackrfStartRx, old(cdev), RxCB, slot)
      ensures cdev == old(cdev)
      ensures e == ToError(codes, status)
    {
      var ctx := new CallbackContext(cb, false, this);
      var cbIx := RegisterCallback(reg, ctx);
      req := StartRequest(HackrfStartRx, cdev, RxCB, cbIx);
      e := ToError(codes, status);
    }

    /** StopRX: `status` is what hackrf_stop_rx returned; the slot stays registered. */
    method StopRX(codes: Codes, status: int) returns (e: Option<Error>)
      ensures e.None? <==> status == codes.success
      ensures e == ToError(codes, status)
    {
      e := ToError(codes, status);
    }

    /**
     * StartTX: as StartRX with a transmit context, except that the trampoline
     * handed to hackrf_start_tx is the rx one, as the Go code passes rxCBPtr.
     */
    method StartTX(reg: Registry, cb: Callback, codes: Codes, status: int) returns (e: Option<Error>, req: StartRequest)
      requires |reg.callbacks| < UintptrLimit / 2
      modifies reg, this
      ensures var slot := FirstFree(old(reg.callbacks));
              && slot < |reg.callbacks|
              && var ctx := reg.callbacks[slot];
              && ctx != null && fresh(ctx)
              && ctx.cb == cb && ctx.tx && ctx.dev == this
              && reg.callbacks == Insert(old(reg.callbacks), ctx)
              && callbacks == old(callbacks) + [slot]
              && req == StartRequest(HackrfStartTx, old(cdev), RxCB, slot)
      ensures cdev == old(cdev)
      ensures e == ToError(codes, status)
    {
      var ctx := new CallbackContext(cb, true, this);
      var cbIx := RegisterCallback(reg, ctx);
      req := StartRequest(HackrfStartTx, cdev, RxCB, cbIx);
      e := ToError(codes, status);
    }

    /** StopTX: `status` is what hackrf_stop_tx returned; the slot stays registered. */
    method StopTX(codes: Codes, status: int) returns (e: Option<Error>)
      ensures e.None? <==> status == codes.success
      ensures e == ToError(codes, status)
    {
      e := ToError(codes, status);
    }
  }

  /**
   * Start RX, then TX, then stop RX on one device, with any native statuses:
   * the two starts get distinct slots, and after the stop the receive slot
   * still resolves to its handler, whatever the start and stop calls returned.
   */
  method StartBothStopRX(reg: Registry, d: Device, codes: Codes, rxCb: Callback, txCb: Callback,
                         rxStatus: int, txStatus: int, stopStatus: int, t: Transfer)
    returns (rxSlot: int, txSlot: int, r: Dispatch)
    requires |reg.callbacks| + 2 < UintptrLimit / 2
    requires WellFormed(t) && t.validLength <= MaxView && t.rxCtx == FirstFree(reg.callbacks)
    modifies reg, d
    ensures 0 <= rxSlot < txSlot < |reg.callbacks|
    ensures d.callbacks == old(d.callbacks) + [rxSlot, txSlot]
    ensures var view := View(t.buffer[..t.validLength], t.validLength);
            && r.Returned? && r.call.Some?
            && r.call.value.view == view
            && r.call.value.ctx.cb == rxCb && !r.call.value.ctx.tx
  {
    var e1, rq1 := d.StartRX(reg, rxCb, codes, rxStatus);
    rxSlot := rq1.ctx;
    var afterRx := reg.callbacks;
    NextSlotIsHigher(old(reg.callbacks), afterRx[rxSlot]);
    var e2, rq2 := d.StartTX(reg, txCb, codes, txStatus);
    txSlot := rq2.ctx;
    var e3 := d.StopRX(codes, stopStatus);
    assert reg.callbacks[rxSlot] == afterRx[rxSlot];
    r := CbGo(reg.callbacks, t, Flag(RxCB));
  }

  /**
   * Open: `status` and `handle` are what hackrf_open returned. A failure
   * yields no device and the translated (never nil) error.
   */
  method Open(codes: Codes, status: int, handle: Handle) returns (d: Device?, e: Option<Error>)
    ensures d == null <==> status != codes.success
    ensures d != null ==> fresh(d) && d.cdev == handle && d.callbacks == [] && e == None
    ensures d == null ==> e.Some? && e == ToError(codes, status)
  {
    if status != codes.success {
      return null, ToError(codes, status);
    }
    d := new Device(handle);
    e := None;
  }
}
