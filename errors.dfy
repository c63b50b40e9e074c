/**
 * Translation of libhackrf status codes into the package's Go errors
 * (hackrf/hackrf.go). The numeric values of the HACKRF_* constants come from
 * libhackrf's header, which is not part of this model: they are a parameter
 * `Codes`, and the translation is defined for every assignment of values.
 */
module Errors {
  import opened Wrappers

  /** The values of libhackrf's named status codes. */
  datatype Codes = Codes(
    success: int,
    invalidParam: int,
    notFound: int,
    busy: int,
    noMem: int,
    libUSB: int,
    thread: int,
    streamingThreadErr: int,
    streamingStopped: int,
    streamingExitCalled: int,
    other: int)

  /** The ten named failure codes, in the order the switch tests them. */
  function Failures(c: Codes): (s: seq<int>)
    ensures |s| == 10
  {
    [c.invalidParam, c.notFound, c.busy, c.noMem, c.libUSB, c.thread,
     c.streamingThreadErr, c.streamingStopped, c.streamingExitCalled, c.other]
  }

  /** Every named code, success first. */
  function Named(c: Codes): (s: seq<int>)
    ensures |s| == 11
  {
    [c.success] + Failures(c)
  }

  /** The header gives each name its own value. */
  ghost predicate Distinct(c: Codes)
  {
    forall i, j :: 0 <= i < j < |Named(c)| ==> Named(c)[i] != Named(c)[j]
  }

  /**
   * The Go error values: the ten sentinels and ErrUnknown, which carries the
   * raw code.
   */
  datatype Error =
    | ErrInvalidParam
    | ErrNotFound
    | ErrBusy
    | ErrNoMem
    | ErrLibUSB
    | ErrThread
    | ErrStreamingThreadErr
    | ErrStreamingStopped
    | ErrStreamingExitCalled
    | ErrOther
    | ErrUnknown(code: int)

  /** The sentinel errors, in the same order as Failures. */
  function Sentinels(): (s: seq<Error>)
    ensures |s| == 10
  {
    [ErrInvalidParam, ErrNotFound, ErrBusy, ErrNoMem, ErrLibUSB, ErrThread,
     ErrStreamingThreadErr, ErrStreamingStopped, ErrStreamingExitCalled, ErrOther]
  }

  /**
   * toError: None (Go's nil) for success, the sentinel of the first named
   * code that matches, and ErrUnknown(r) for anything else.
   */
  function ToError(c: Codes, r: int): (e: Option<Error>)
    ensures e.None? <==> r == c.success
    ensures e.Some? && e.value.ErrUnknown? <==> r !in Named(c)
    ensures e.Some? && e.value.ErrUnknown? ==> e.value.code == r
    ensures e.Some? && !e.value.ErrUnknown? ==> e.value in Sentinels()
  {
    if r == c.success then None
    else if r == c.invalidParam then Some(ErrInvalidParam)
    else if r == c.notFound then Some(ErrNotFound)
    else if r == c.busy then Some(ErrBusy)
    else if r == c.noMem then Some(ErrNoMem)
    else if r == c.libUSB then Some(ErrLibUSB)
    else if r == c.thread then Some(ErrThread)
    else if r == c.streamingThreadErr then Some(ErrStreamingThreadErr)
    else if r == c.streamingStopped then Some(ErrStreamingStopped)
    else if r == c.streamingExitCalled then Some(ErrStreamingExitCalled)
    else if r == c.other then Some(ErrOther)
    else Some(ErrUnknown(r))
  }

  /** The status code an error stands for: the inverse of ToError. */
  function Code(c: Codes, e: Error): int
  {
    match e
    case ErrInvalidParam => c.invalidParam
    case ErrNotFound => c.notFound
    case ErrBusy => c.busy
    case ErrNoMem => c.noMem
    case ErrLibUSB => c.libUSB
    case ErrThread => c.thread
    case ErrStreamingThreadErr => c.streamingThreadErr
    case ErrStreamingStopped => c.streamingStopped
    case ErrStreamingExitCalled => c.streamingExitCalled
    case ErrOther => c.other
    case ErrUnknown(k) => k
  }

  /** Every error toError returns gives back the code it came from. */
  lemma CodeOfToError(c: Codes, r: int)
    requires r != c.success
    ensures ToError(c, r).Some? && Code(c, ToError(c, r).value) == r
  {
  }

  /** toError never merges two codes: different codes give different results. */
  lemma ToErrorInjective(c: Codes, r1: int, r2: int)
    requires ToError(c, r1) == ToError(c, r2)
    ensures r1 == r2
  {
    if r1 != c.success {
      CodeOfToError(c, r1);
      CodeOfToError(c, r2);
    }
  }

  /**
   * With distinct header values, the k-th named failure code maps to the k-th
   * sentinel, so the ten codes map to ten different sentinels.
   */
  lemma {:induction false} FailureMapsToItsSentinel(c: Codes, k: nat)
    requires Distinct(c)
    requires k < 10
    ensures ToError(c, Failures(c)[k]) == Some(Sentinels()[k])
  {
    var n := Named(c);
    assert n[0] == c.success && n[1] == c.invalidParam && n[2] == c.notFound
      && n[3] == c.busy && n[4] == c.noMem && n[5] == c.libUSB && n[6] == c.thread
      && n[7] == c.streamingThreadErr && n[8] == c.streamingStopped
      && n[9] == c.streamingExitCalled && n[10] == c.other;
    assert Failures(c)[k] == n[k + 1];
  }

  /** Round trip: every error other than an ErrUnknown hiding a named code survives Code then ToError. */
  lemma {:induction false} ToErrorOfCode(c: Codes, e: Error)
    requires Distinct(c)
    requires e.ErrUnknown? ==> e.code !in Named(c)
    ensures ToError(c, Code(c, e)) == Some(e)
  {
    match e
    case ErrInvalidParam => FailureMapsToItsSentinel(c, 0);
    case ErrNotFound => FailureMapsToItsSentinel(c, 1);
    case ErrBusy => FailureMapsToItsSentinel(c, 2);
    case ErrNoMem => FailureMapsToItsSentinel(c, 3);
    case ErrLibUSB => FailureMapsToItsSentinel(c, 4);
    case ErrThread => FailureMapsToItsSentinel(c, 5);
    case ErrStreamingThreadErr => FailureMapsToItsSentinel(c, 6);
    case ErrStreamingStopped => FailureMapsToItsSentinel(c, 7);
    case ErrStreamingExitCalled => FailureMapsToItsSentinel(c, 8);
    case ErrOther => FailureMapsToItsSentinel(c, 9);
    case ErrUnknown(_) =>
  }
}
