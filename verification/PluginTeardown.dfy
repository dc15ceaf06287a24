/**
 The retryable teardown of a plugin-host activation (`go/nemo_relay/plugin.go`).

 All copies of an activation share one state behind a mutex, so every method is one atomic step and
 a run is any sequence of them, from any goroutine and from the finalizer. What native code replies
 is an argument of the step. `trace` records the native calls made so far.
 */
module PluginTeardown {
  import opened Prelude

  type Pointer = nat
  type Error = string

  datatype NativeCall =
    | Clear(ptr: Pointer, error: Option<Error>)
    | IsActive(ptr: Pointer, reply: Result<bool, Error>)
    | Report(ptr: Pointer, report: Result<string, Error>)
    | Free(ptr: Pointer)

  /** `armed`: the garbage collector may still run the finalizer. */
  datatype State = State(ptr: Option<Pointer>, closed: bool, closeErr: Option<Error>, armed: bool,
                         trace: seq<NativeCall>)

  datatype Step =
    | Close(clear: Option<Error>, active: Result<bool, Error>)
    | Finalize(clear: Option<Error>, active: Result<bool, Error>)
    | GetReport(report: Result<string, Error>)
    | QueryActive(active: Result<bool, Error>)

  // ----- What each method does ----------------------------------------------------------

  function CloseState(s: State, clear: Option<Error>, active: Result<bool, Error>): State {
    if s.closed then s
    else if s.ptr.None? then s.(closed := true)
    else
      var p := s.ptr.value;
      var trace := s.trace + [Clear(p, clear)];
      if clear.None? then State(None, true, None, false, trace + [Free(p)])
      else if active == Ok(false) then State(None, true, clear, false, trace + [IsActive(p, active), Free(p)])
      else s.(closeErr := clear, trace := trace + [IsActive(p, active)])
  }

  predicate Open(s: State) {
    s.ptr.Some? && !s.closed
  }

  predicate Enabled(s: State, step: Step) {
    step.Finalize? ==> s.armed
  }

  function Apply(s: State, step: Step): State
    requires Enabled(s, step)
  {
    match step
    case Close(clear, active) => CloseState(s, clear, active)
    case Finalize(clear, active) => CloseState(s.(armed := false), clear, active)
    case GetReport(report) => if Open(s) then s.(trace := s.trace + [Report(s.ptr.value, report)]) else s
    case QueryActive(active) => if Open(s) then s.(trace := s.trace + [IsActive(s.ptr.value, active)]) else s
  }

  class ActivationState {
    var ptr: Option<Pointer>
    var closed: bool
    var closeErr: Option<Error>
    var armed: bool
    var trace: seq<NativeCall>

    ghost function Value(): State
      reads this
    {
      State(ptr, closed, closeErr, armed, trace)
    }

    /** `newPluginHostActivation` */
    constructor (ptr: Option<Pointer>)
      ensures Value() == State(ptr, false, None, true, [])
    {
      this.ptr, closed, closeErr, armed, trace := ptr, false, None, true, [];
    }

    /** `close`; the native replies are used only if the calls are made. */
    method CloseOnce(clear: Option<Error>, active: Result<bool, Error>) returns (err: Option<Error>)
      modifies this
      ensures Value() == CloseState(old(Value()), clear, active)
      ensures old(closed) ==> err == old(closeErr)
      ensures !old(closed) && old(ptr).None? ==> err.None?
      ensures !old(closed) && old(ptr).Some? ==> err == clear && closeErr == clear
    {
      if closed { return closeErr; }
      if ptr.None? {
        closed := true;
        return None;
      }
      var p := ptr.value;
      closeErr := clear;
      trace := trace + [Clear(p, clear)];
      if closeErr.Some? {
        trace := trace + [IsActive(p, active)];
        if active.Err? || active.value { return closeErr; }
      }
      closed := true;
      ptr := None;
      armed := false;
      trace := trace + [Free(p)];
      assert clear.Some? ==> trace == old(trace) + [Clear(p, clear)] + [IsActive(p, active), Free(p)];
      return closeErr;
    }

    /** `finalizePluginHostActivation`: the runtime runs a finalizer at most once. */
    method RunFinalizer(clear: Option<Error>, active: Result<bool, Error>)
      requires armed
      modifies this
      ensures Value() == Apply(old(Value()), Finalize(clear, active))
    {
      armed := false;
      var err := CloseOnce(clear, active);
    }

    /** `Report`: an error when closed, otherwise what native code replies. */
    method ReadReport(report: Result<string, Error>) returns (r: Result<string, Error>)
      modifies this
      ensures Value() == Apply(old(Value()), GetReport(report))
      ensures r == if old(Open(Value())) then report else Err("plugin host activation is closed")
    {
      if ptr.None? || closed { return Err("plugin host activation is closed"); }
      trace := trace + [Report(ptr.value, report)];
      return report;
    }

    /** `IsActive`: true only if native code says so. */
    method IsActiveNow(active: Result<bool, Error>) returns (r: bool)
      modifies this
      ensures Value() == Apply(old(Value()), QueryActive(active))
      ensures r <==> old(Open(Value())) && active == Ok(true)
    {
      if ptr.None? || closed { return false; }
      trace := trace + [IsActive(ptr.value, active)];
      return active.Ok? && active.value;
    }
  }

  // ----- Runs ---------------------------------------------------------------------------

  predicate IsRun(s: State, steps: seq<Step>)
    decreases |steps|
  {
    steps == [] || (Enabled(s, steps[0]) && IsRun(Apply(s, steps[0]), steps[1..]))
  }

  function After(s: State, steps: seq<Step>): State
    requires IsRun(s, steps)
    decreases |steps|
  {
    if steps == [] then s else After(Apply(s, steps[0]), steps[1..])
  }

  function Start(ptr: Option<Pointer>): State {
    State(ptr, false, None, true, [])
  }

  /** A native call that shows that the host is gone. */
  predicate Settles(c: NativeCall) {
    (c.Clear? && c.error.None?) || (c.IsActive? && c.reply == Ok(false))
  }

  /** The only native free is the last call, it follows a call that settles, and no other pointer is used. */
  ghost predicate TraceOk(trace: seq<NativeCall>, p: Pointer) {
    && (forall i :: 0 <= i < |trace| ==> trace[i].ptr == p)
    && (forall i :: 0 <= i < |trace| && trace[i].Free? ==> i == |trace| - 1 && i > 0 && Settles(trace[i - 1]))
  }

  ghost predicate Freed(trace: seq<NativeCall>) {
    trace != [] && trace[|trace| - 1].Free?
  }

  ghost predicate Inv(s: State, ptr: Option<Pointer>) {
    && (ptr.None? ==> s.ptr.None? && s.trace == [])
    && (ptr.Some? ==>
          && TraceOk(s.trace, ptr.value) && (s.closed <==> Freed(s.trace))
          && s.ptr == if s.closed then None else ptr)
    && (s.closed && ptr.Some? ==> !s.armed)
  }

  lemma Extend(trace: seq<NativeCall>, c: NativeCall, p: Pointer)
    requires TraceOk(trace, p) && !Freed(trace) && c.ptr == p
    requires c.Free? ==> trace != [] && Settles(trace[|trace| - 1])
    ensures TraceOk(trace + [c], p) && (Freed(trace + [c]) <==> c.Free?)
  {
  }

  lemma CloseKept(s: State, clear: Option<Error>, active: Result<bool, Error>, p: Pointer)
    requires Inv(s, Some(p))
    ensures Inv(CloseState(s, clear, active), Some(p))
  {
    if !s.closed {
      var t1 := s.trace + [Clear(p, clear)];
      Extend(s.trace, Clear(p, clear), p);
      if clear.None? {
        Extend(t1, Free(p), p);
      } else {
        var t2 := t1 + [IsActive(p, active)];
        Extend(t1, IsActive(p, active), p);
        if active == Ok(false) {
          Extend(t2, Free(p), p);
          assert t1 + [IsActive(p, active), Free(p)] == t2 + [Free(p)];
        }
      }
    }
  }

  lemma StepKept(s: State, step: Step, ptr: Option<Pointer>)
    requires Inv(s, ptr) && Enabled(s, step)
    ensures Inv(Apply(s, step), ptr)
  {
    if ptr.Some? {
      match step
      case Close(clear, active) => CloseKept(s, clear, active, ptr.value);
      case Finalize(clear, active) => CloseKept(s.(armed := false), clear, active, ptr.value);
      case GetReport(report) => if Open(s) { Extend(s.trace, Report(ptr.value, report), ptr.value); }
      case QueryActive(active) => if Open(s) { Extend(s.trace, IsActive(ptr.value, active), ptr.value); }
    }
  }

  lemma {:induction false} RunKeepsInv(s: State, steps: seq<Step>, ptr: Option<Pointer>)
    requires Inv(s, ptr) && IsRun(s, steps)
    ensures Inv(After(s, steps), ptr)
    decreases |steps|
  {
    if steps != [] {
      StepKept(s, steps[0], ptr);
      RunKeepsInv(Apply(s, steps[0]), steps[1..], ptr);
    }
  }

  /**
   Over every sequence of method calls and finalizer runs with any native replies, native code is
   told to free the activation at most once, only after it confirmed that the host is gone, and is
   never called again afterwards; the activation is closed exactly if it was freed.
   */
  lemma TeardownIsSafe(p: Pointer, steps: seq<Step>)
    requires IsRun(Start(Some(p)), steps)
    ensures var s := After(Start(Some(p)), steps);
            && TraceOk(s.trace, p)
            && (s.closed <==> Free(p) in s.trace)
            && (s.closed ==> s.ptr.None? && !s.armed)
  {
    RunKeepsInv(Start(Some(p)), steps, Some(p));
    var s := After(Start(Some(p)), steps);
    if s.closed { assert s.trace[|s.trace| - 1] == Free(p); }
  }

  /** A closed activation never changes again, but for a finalizer that has run: every later close returns the same. */
  lemma {:induction false} ClosedIsAbsorbing(s: State, steps: seq<Step>)
    requires s.closed && IsRun(s, steps)
    ensures After(s, steps) == s.(armed := After(s, steps).armed)
    decreases |steps|
  {
    if steps != [] { ClosedIsAbsorbing(Apply(s, steps[0]), steps[1..]); }
  }

  /** A close, or a finalizer, whose native replies show that the host is gone. */
  predicate Succeeds(step: Step) {
    (step.Close? || step.Finalize?) && (step.clear.None? || step.active == Ok(false))
  }

  /**
   However often a close failed before, on a host that is active or cannot be asked, an activation is
   closed exactly if some close or finalizer of the run was told that the host is gone; until then it
   keeps its pointer, so that every further close asks native code again.
   */
  lemma {:induction false} ClosesExactly(s: State, steps: seq<Step>, p: Pointer)
    requires Inv(s, Some(p)) && IsRun(s, steps)
    ensures After(s, steps).closed <==> s.closed || exists i :: 0 <= i < |steps| && Succeeds(steps[i])
    ensures After(s, steps).ptr == if After(s, steps).closed then None else Some(p)
    decreases |steps|
  {
    if steps != [] {
      var s' := Apply(s, steps[0]);
      StepKept(s, steps[0], Some(p));
      ClosesExactly(s', steps[1..], p);
      assert s'.closed <==> s.closed || Succeeds(steps[0]);
      assert forall i :: 0 < i < |steps| ==> steps[i] == steps[1..][i - 1];
    }
  }

  /** An activation without a native pointer closes without any native call. */
  lemma {:induction false} NilActivationIsQuiet(s: State, steps: seq<Step>)
    requires s.ptr.None? && s.trace == [] && IsRun(s, steps)
    ensures After(s, steps).trace == [] && After(s, steps).ptr.None?
    decreases |steps|
  {
    if steps != [] { NilActivationIsQuiet(Apply(s, steps[0]), steps[1..]); }
  }
}
