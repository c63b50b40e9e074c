# go-hackrf callback bridge, modelled in Dafny

This project models the core of `go-hackrf`, the Go binding for libhackrf.
It covers the two pieces of that binding that hold logic of their own.

- **The streaming callback bridge** (`hackrf/device.go`).
  - libhackrf's streaming threads can carry only an opaque pointer-sized token back into Go.
  - So the binding keeps a process-wide table `callbacks` of `*callbackContext`, indexed by slot.
  - `registerCallback` puts a new context into the lowest nil slot, or appends one when there is none.
  - `StartRX`/`StartTX` register a context and hand its slot to `hackrf_start_rx`/`hackrf_start_tx`.
  - `cbGo` is the entry point that libhackrf calls once per transfer.
    It looks the slot up, gives the handler a slice of exactly `valid_length` bytes, and turns the handler's error into -1 (stop).
- **The status translator** (`hackrf/hackrf.go`).
  - `toError` maps a libhackrf status code to nil, to one of ten sentinel errors, or to `ErrUnknown(code)`.

Files:

- `wrappers.dfy`: module `Wrappers`, an `Option` type. `None` plays Go's nil.
- `errors.dfy`: module `Errors`.
  - The numeric values of libhackrf's `HACKRF_*` constants come from libhackrf's header.
    That header is not part of this model, so the values are a parameter `Codes`.
  - `ToError` is defined for every assignment of values. Like the Go `if` and `switch`, the first matching name wins.
  - `Distinct(c)` states what the header guarantees: each name has its own value. Only the lemmas that need it assume it.
- `bridge.dfy`: module `Bridge`, the model of `device.go`.
  - The package variable `callbacks` is a `Registry` object with a `seq<CallbackContext?>` field.
    It is passed explicitly to the `Device` methods that touch it.
  - `callbackContext` is a class, because Go allocates a fresh context on every start; the table's nil is `null`.
  - `Device` is a class with the fields `cdev` and `callbacks`.
  - `cbGo` is the pure function `CbGo`. It takes the table it reads under the read lock, one transfer and the trampoline's direction flag.
  - The libhackrf calls are left out. The status each call returns is an input parameter.
    `StartRX`/`StartTX` also return, as a `StartRequest`, the libhackrf entry point they call and the handle, trampoline and token they pass to it.

The model follows what the code does, also where that differs from what the design of such a bridge intends:

- `StopRX`/`StopTX` only call the native stop; no slot is ever freed. The table never shrinks and no entry returns to nil.
  `RegistrationsNeverFree` and `StartBothStopRX` state this.
- A failed native start does not roll the registration back. `StartRX`/`StartTX` keep the slot whatever status they return.
- `StartTX` hands libhackrf the receive trampoline `rxCBPtr`, not `txCBPtr`.
  Its `StartRequest` therefore reads "`hackrf_start_tx` with `RxCB`".
  Transmit transfers thus reach `cbGo` with flag 0, so the slot is read from `rx_ctx` (`RxTrampolineIgnoresTxCtx`).
- There is no per-direction idle/streaming state. A second `StartRX` while receiving registers a second context and calls the native start again.
  `StartRX`/`StartTX` have no precondition on the device's state, and `StopRX`/`StopTX` on an idle stream are not refused.
- A closed device is not refused. After `Close` clears the handle, `StartRX`/`StartTX` still register a slot and pass the nil handle to libhackrf (their `StartRequest` carries the handle as it is).
- Faults in `cbGo` are not turned into the stop status. A handler that panics is outside the model, since handlers are total functions.
  `cbGo`'s own panics, a negative slot (`IndexPanic`) and a `valid_length` beyond 2^30 (`SlicePanic`), are results of `CbGo`, not a -1.

`cbGo` converts the token as `int(uintptr(...))`. The model takes a 64-bit platform.
A token of 2^63 or more becomes a negative int, which passes the `>= len` test and then makes `callbacks[cbIdx]` panic.
`CbGo` returns `IndexPanic` for that case.
The tokens that `StartRX`/`StartTX` issue are slots below the table length, which is a Go `int` and so below 2^63. They never reach that case (`DispatchAfterRegister`).

## Model

| member | source | states |
|---|---|---|
| `Errors.ToError` | hackrf/hackrf.go:47-74 | The result is nil exactly when the code is `HACKRF_SUCCESS`, so every failure is surfaced. It is `ErrUnknown` exactly when the code is none of the eleven named ones, and then carries that exact code. Otherwise it is one of the ten sentinels. Being a function, it is deterministic and has no effects. |
| `Errors.CodeOfToError` | hackrf/hackrf.go:51-73 | For every non-success code the error returned stands for that same code: `Code` inverts `toError`. |
| `Errors.ToErrorInjective` | hackrf/hackrf.go:47-74 | Two codes with the same translation are equal, so no two codes are merged into one error value. |
| `Errors.FailureMapsToItsSentinel` | hackrf/hackrf.go:51-71 | When the header values are distinct, each of the ten named failure codes maps to its own sentinel, in the order `ErrInvalidParam` … `ErrOther`. |
| `Errors.ToErrorOfCode` | hackrf/hackrf.go:19-31 | Round trip from the error side: every sentinel, and every `ErrUnknown(k)` whose k is not a named code, comes back from `toError(Code(e))`. |
| `Bridge.IntOfUintptr` | hackrf/device.go:35-37 | Go's `int(uintptr)` on 64 bits: the token is kept below 2^63 and wraps by 2^64 from there on. |
| `Bridge.SlotIndex` | hackrf/device.go:33-38 | The slot comes from `rx_ctx` when the direction flag is 0 and from `tx_ctx` otherwise. |
| `Bridge.CbGo` | hackrf/device.go:32-55 | A slot at or beyond the table length, or one holding nil, returns -1 without calling any handler. A negative slot panics, and so does a `valid_length` beyond 2^30 on an occupied slot. Otherwise the slot's context is called with a view whose bytes are the first `valid_length` bytes of the buffer and whose length and capacity both equal `valid_length`. The code is -1 when the handler fails and 0 when it succeeds; no other code is returned. |
| `Bridge.RxTrampolineIgnoresTxCtx` | hackrf/device.go:34-38 | Under flag 0 the dispatch does not depend on `tx_ctx` at all. |
| `Bridge.TxTrampolineIgnoresRxCtx` | hackrf/device.go:34-38 | Under a non-zero flag the dispatch does not depend on `rx_ctx` at all. |
| `Bridge.FirstFree` | hackrf/device.go:112-123 | The slot registration picks is the lowest nil index when the table has a nil entry. When no entry is nil, it is the old table length. |
| `Bridge.Insert` | hackrf/device.go:112-123 | After registration the chosen slot holds the new context and every other old entry is unchanged. The table keeps its length when it had a nil entry and grows by exactly one otherwise. |
| `Bridge.RegistrationsNeverFree` | hackrf/device.go:110-127 | Over any run of registrations the table never shrinks and grows by at most one per registration. No entry that held a context is reset to nil or replaced. |
| `Bridge.RegisterAllAppends` | hackrf/device.go:120-123 | In a table without nil entries, successive registrations append their contexts in order at the end. |
| `Bridge.NextSlotIsHigher` | hackrf/device.go:110-127 | Two registrations in a row get different slots, the second one higher. |
| `Bridge.DispatchAfterRegister` | hackrf/device.go:44-54 | A transfer that carries the slot registration returned reaches the new context with a view of exactly the valid bytes, when `valid_length` is within 2^30. Its code is 0 exactly when that handler succeeds. |
| `Bridge.DeliveredToRegisteredSlot` | hackrf/device.go:49-51 | For any run of transfers on an occupied slot, each with `valid_length` within 2^30, the bytes handed to the handler add up to the sum of their valid lengths. |
| `Bridge.ByteCountScenario` | hackrf/hackrf_test.go:24-35 | The test's byte-counting handler, fed receive transfers of 4096, 4096 and 2048 valid bytes, is handed 10240 bytes. |
| `Bridge.Flag` | hackrf/exports.c:3-9 | The rx trampoline calls `cbGo` with flag 0 and the tx trampoline with flag 1. |
| `Bridge.CallbackContext.constructor` | hackrf/device.go:25-29 | A context records the handler, the direction and the owning device. |
| `Bridge.Registry.constructor` | hackrf/device.go:13-16 | The process-wide table starts empty. |
| `Bridge.Device.constructor` | hackrf/device.go:18-21 | A device holds its native handle and starts with no registered slots. |
| `Bridge.Device.RegisterCallback` | hackrf/device.go:110-127 | The method returns `FirstFree` of the old table and leaves the table as `Insert` of the old one. It appends the slot to the device's own list and leaves the handle alone. The loop is proved against those functions. |
| `Bridge.Device.StartRX` | hackrf/device.go:84-91 | A fresh receive context for this device is registered at `FirstFree` and its slot appended to the device's list. `hackrf_start_rx` is called with the device's handle, the rx trampoline and that slot. The result is the translated native status, and the registration stays whatever that status is. |
| `Bridge.Device.StopRX` | hackrf/device.go:93-95 | Returns the translated native stop status, nil exactly on success. The method can change neither the device nor the table. |
| `Bridge.Device.StartTX` | hackrf/device.go:97-104 | As `StartRX` with a transmit context, but the request is `hackrf_start_tx` with the rx trampoline, as the code passes `rxCBPtr`. |
| `Bridge.Device.StopTX` | hackrf/device.go:106-108 | Returns the translated native stop status, nil exactly on success. The method can change neither the device nor the table. |
| `Bridge.Device.Close` | hackrf/device.go:66-72 | Returns the translated close status. The handle becomes nil exactly when that status is success. The registered slots are untouched. |
| `Bridge.Open` | hackrf/device.go:58-64 | A non-success open status gives no device and a non-nil translated error. Success gives a fresh device with the returned handle, no slots and a nil error. |
| `Bridge.StartBothStopRX` | hackrf/device.go:84-108 | Starting RX, then TX, then stopping RX on one device gives two distinct slots, the receive one lower, appended in order to the device's list. After the stop a receive transfer on the receive slot still reaches the receive handler, whatever the native calls returned. |

## Left out

- The libhackrf calls themselves: `hackrf_open`, `close`, `start`/`stop_rx`/`tx`, `init`/`exit` and the setters. They are foreign code; their returned status is a parameter of the methods that make them.
- `Init` and `Exit` (hackrf/hackrf.go:38-45) only translate a native status; `ToError` covers that.
- `SetFreq`, `SetSampleRateManual`, `SetBasebandFilterBandwidth`, `SetAmpEnable`, `SetLNAGain`, `SetVGAGain`, `SetTXVGAGain` and `SetAntennaEnable` are left out: each passes a value to libhackrf and translates the status, and `ToError` covers that part.
- `SetSampleRate` is left out because it works on floating point.
- `ComputeBasebandFilterBW` and `ComputeBasebandFilterBWRoundDownLT` wrap libhackrf functions whose logic is not part of this model.
- `Version` is left out: it is C memory allocation and string conversion.
- `ErrUnknown.Error` is left out: it only formats a message.
- The `sync.RWMutex` locking is left out. The table is modelled sequentially, and `CbGo` reads one snapshot of it.
- The raw memory handling is left out: the `unsafe.Pointer` conversions and the `(*[1 << 30]byte)` cast. A transfer's buffer is a `seq<byte>`.
- `Bridge.CbGo`: requires `0 <= valid_length <= ` the buffer's length, as libhackrf promises. A negative `valid_length`, on which the Go slice expression panics, is not modelled. A `valid_length` beyond 2^30 is modelled as `SlicePanic`.
- The view is a value copy of the valid bytes. Writes a handler makes into the buffer are not modelled, so neither is a transmit handler filling the buffer with the samples to send.
- Which tokens libhackrf writes into `rx_ctx` and `tx_ctx` of a transmit transfer is libhackrf's behaviour, and libhackrf is not part of this model. So the model shows which token a transmit stream's dispatch reads, not which context it then reaches.
- Handlers are total functions of the view they get: a handler's own state, such as the test's running total, is not modelled. `Delivered` counts the bytes instead.
- The 32-bit build is left out: tokens are 64-bit `uintptr`s.
- `Bridge.Device.StartRX`, `Bridge.Device.StartTX`: require a table shorter than 2^63 entries, the bound a Go slice length (an `int`) has anyway, so that the slot token stays a non-negative `int`.
