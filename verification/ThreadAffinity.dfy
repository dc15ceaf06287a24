/**
 The protocol that keeps goroutines, OS threads and the native library's per-thread state
 in step (`go/nemo_relay/nemo_relay.go`).

 The native library keeps two things per OS thread: the last error message and the bound
 scope stack. Goroutines migrate between threads, so the Go binding nests OS-thread locks
 around every native call (`callStatus`, `callPointer`), for the lifetime of every pushed
 scope (`PushScope` .. `PopScope`) and around `ScopeStack.Run`, and records in the shared
 map `scopeOwners` which goroutine holds the lock of which scope.

 The model is a labelled transition system. Each goroutine has a stack of frames, one per
 protocol function it is inside of, and every label is one atomic step of one goroutine or
 of the scheduler; a run is any interleaving of labels. What the environment decides (the
 result of a native call, fresh identifiers, the scheduler, what user code does next) is
 carried by the label.
 */
module ThreadAffinity {
  import opened Prelude

  type Goroutine = nat
  type Thread = nat
  type Uuid = nat
  type StackId = nat
  type CaptureId = nat
  type Message = string

  /** What a thread is bound to: its stack, whether it was bound explicitly, and the override. */
  datatype Binding = Binding(stack: StackId, explicit: bool, overriding: Option<StackId>) {
    /** The stack that native scope operations on the thread use. */
    function Current(): StackId {
      if overriding.Some? then overriding.value else stack
    }
  }

  /** The native call a `callStatus`/`callPointer` frame makes. */
  datatype Op =
    | Plain                     // any other call of the API
    | PushNative                // nemo_relay_push_scope
    | PopNative(uuid: Uuid)     // nemo_relay_pop_scope
    | Capture                   // nemo_relay_scope_stack_capture_thread
    | Bind(stack: StackId)      // nemo_relay_scope_stack_set_thread
    | Restore(handle: CaptureId) // nemo_relay_scope_stack_restore_thread

  /** A native reply: a value (the new scope or capture), or the message it left behind. */
  datatype Outcome = Done(value: nat) | Failed(wrote: Option<Message>)

  datatype CallPhase =
    | Locked                    // the thread is locked, the native call is not made yet
    | InNative                  // the native call is running; it may call back into Go
    | Returned(outcome: Outcome) // the native call is over, its error is not read yet
    | Reported(wrote: Option<Message>, read: Option<Message>)

  datatype PushPhase = Pinned | Pushed(uuid: Uuid) | PushFailed

  datatype PopPhase = Checked | Popped | Released

  datatype RunPhase =
    | Capturing
    | Captured(handle: CaptureId)
    | Body(handle: CaptureId)
    | Restoring(handle: CaptureId, panicking: bool)
    | AwaitRestore(handle: CaptureId, panicking: bool)
    | Leaving(panicking: bool, unrestored: Option<CaptureId>) // the capture whose restore failed

  datatype Frame =
    | Call(op: Op, call: CallPhase)
    | Push(push: PushPhase)
    | Pop(uuid: Uuid, pinned: bool, pop: PopPhase)
    | Run(stack: StackId, entry: Binding, run: RunPhase)

  /** The protocol functions a goroutine is inside of, innermost on top. */
  datatype Frames = Base | On(top: Frame, below: Frames)

  datatype GoroutineState = GoroutineState(place: Option<Thread>, depth: nat, frames: Frames)

  datatype ThreadState = ThreadState(lastError: Option<Message>, binding: Binding)

  /** A captured thread binding that native code has allocated and not yet freed. */
  datatype Saved = Saved(binding: Binding, holder: Goroutine)

  /** The error a failed call handed to its caller, beside what its own native call wrote. */
  datatype Report = Report(caller: Goroutine, wrote: Option<Message>, read: Option<Message>)

  /**
   Memory that all goroutines share. `owners` is the Go map `scopeOwners`; `stacks` and `captures`
   are native memory; `reports` are the errors handed to callers. The last six fields only record
   history: the thread each scope was pushed on, the scopes that native code made without
   `PushScope`, the scopes popped, the scopes that some `PopScope` looked up while their push was
   still in flight, how often each capture was freed, and the stack that the body of each `Run`,
   named by its capture, works on: its own, or that of a nested `Run` whose restore failed.
   */
  datatype Shared = Shared(
    owners: map<Uuid, Goroutine>,
    stacks: map<StackId, seq<Uuid>>,
    captures: map<CaptureId, Saved>,
    reports: seq<Report>,
    home: map<Uuid, Thread>,
    managed: set<Uuid>,
    popped: set<Uuid>,
    looked: set<Uuid>,
    freed: multiset<CaptureId>,
    works: map<CaptureId, StackId>)

  datatype State = State(
    goroutines: map<Goroutine, GoroutineState>,
    threads: map<Thread, ThreadState>,
    shared: Shared)

  /** What a step of a running goroutine can see and change: itself, its thread, shared memory. */
  datatype View = View(x: GoroutineState, t: ThreadState, sh: Shared)

  datatype Action =
    | UnguardedNative(left: Option<Message>)  // a native call outside callStatus
    | ManagedPush(uuid: Uuid)                 // native code opens a scope of its own
    | BeginCall
    | BeginPush
    | BeginPop(uuid: Uuid)
    | BeginRun(stack: StackId)
    | EndBody(panicking: bool)
    | NativeReturn(outcome: Outcome, left: Option<Message>)
    | Continue

  datatype Label =
    | Spawn(g: Goroutine)
    | Schedule(g: Goroutine, t: Thread)
    | Deschedule(g: Goroutine)
    | Step(g: Goroutine, action: Action)

  // ----- Helpers ------------------------------------------------------------------------

  /** Native calls that can call back into Go while they run. */
  predicate Reentrant(op: Op) {
    op.Plain? || op.PushNative? || op.PopNative?
  }

  /** User code is in control: outside the protocol, in a `Run` body, or in a callback. */
  predicate UserMode(frames: Frames) {
    frames.Base?
    || (frames.top.Run? && frames.top.run.Body?)
    || (frames.top.Call? && frames.top.call.InNative? && Reentrant(frames.top.op))
  }

  /** UnlockOSThread: releasing a lock that is not held does nothing. */
  function Unlock(depth: nat): nat {
    if depth == 0 then 0 else depth - 1
  }

  function StackAt(sh: Shared, id: StackId): seq<Uuid> {
    if id in sh.stacks then sh.stacks[id] else []
  }

  /** No scope has the identifier `u` yet. */
  predicate FreshScope(sh: Shared, u: Uuid) {
    u !in sh.home && u !in sh.managed
  }

  /** The scope whose native push is over while the goroutine has not recorded it yet. */
  function InFlight(frames: Frames): Option<Uuid> {
    if frames.On? && frames.top.Push? && frames.top.push.Pushed? then Some(frames.top.push.uuid)
    else if frames.On? && frames.top.Call? && frames.top.op.PushNative? && frames.top.call.Returned?
            && frames.top.call.outcome.Done? then Some(frames.top.call.outcome.value)
    else None
  }

  /** The capture of the `Run` that is binding its stack. */
  function Entering(frames: Frames): Option<CaptureId> {
    if frames.On? && frames.below.On? && frames.below.top.Run? && frames.below.top.run.Captured?
    then Some(frames.below.top.run.handle) else None
  }

  /** The capture of the innermost `Run` whose body is being executed. */
  function BodyHandle(frames: Frames): Option<CaptureId> {
    match frames
    case Base => None
    case On(Run(_, _, phase), _) => if phase.Body? then Some(phase.handle) else None
    case On(_, rest) => BodyHandle(rest)
  }

  /** A `Run` that could not restore leaves the body around it on the stack that it worked on itself. */
  function Moved(works: map<CaptureId, StackId>, below: Frames,
                 unrestored: Option<CaptureId>): map<CaptureId, StackId> {
    if unrestored.Some? && unrestored.value in works && BodyHandle(below).Some?
    then works[BodyHandle(below).value := works[unrestored.value]] else works
  }

  // ----- Steps of a running goroutine ---------------------------------------------------

  /** `callStatus`: lock the thread and enter. */
  function Enter(x: GoroutineState, op: Op): GoroutineState {
    x.(depth := x.depth + 1, frames := On(Call(op, Locked), x.frames))
  }

  function Leave(x: GoroutineState, frames: Frames): GoroutineState {
    x.(depth := Unlock(x.depth), frames := frames)
  }

  /** The caller of `callStatus` takes up again after the call returned `outcome`. */
  function Resume(below: Frames, op: Op, outcome: Outcome): Frames {
    if below.Base? || op.Plain? then below else
    match below.top
    case Call(_, _) => below
    case Push(_) => On(Push(if outcome.Done? then Pushed(outcome.value) else PushFailed), below.below)
    case Pop(u, pinned, _) => if outcome.Done? then On(Pop(u, pinned, Popped), below.below) else below.below
    case Run(st, entry, phase) => On(Run(st, entry, ResumeRun(phase, outcome)), below.below)
  }

  /** How `Run` goes on after its capture, its bind or its restore returned `outcome`. */
  function ResumeRun(phase: RunPhase, outcome: Outcome): RunPhase {
    match phase
    case Capturing => if outcome.Done? then Captured(outcome.value) else Leaving(true, None)
    case Captured(h) => if outcome.Done? then Body(h) else Restoring(h, true)
    case AwaitRestore(h, panicking) => if outcome.Done? then Leaving(panicking, None) else Leaving(true, Some(h))
    case _ => phase
  }

  /** Whether the native call `op` may reply `outcome`. */
  predicate Possible(c: View, op: Op, outcome: Outcome) {
    outcome.Failed? ||
    match op
    case PushNative => FreshScope(c.sh, outcome.value)
    case PopNative(u) =>
      var st := StackAt(c.sh, c.t.binding.Current());
      st != [] && st[|st| - 1] == u
    case Capture => outcome.value !in c.sh.captures && outcome.value !in c.sh.freed
    case _ => true
  }

  /** What the native call does to shared memory when it replies `outcome`. */
  function NativeShared(g: Goroutine, c: View, op: Op, outcome: Outcome): Shared
    requires c.x.place.Some?
  {
    var sh := c.sh;
    var id := c.t.binding.Current();
    var st := StackAt(sh, id);
    match op
    case PushNative =>
      if outcome.Failed? then sh
      else sh.(stacks := sh.stacks[id := st + [outcome.value]],
               home := sh.home[outcome.value := c.x.place.value])
    case PopNative(u) =>
      if outcome.Failed? || st == [] then sh
      else sh.(stacks := sh.stacks[id := st[..|st| - 1]], popped := sh.popped + {u})
    case Capture =>
      if outcome.Failed? then sh
      else sh.(captures := sh.captures[outcome.value := Saved(c.t.binding, g)])
    case Restore(h) =>
      // The handle is taken over before anything can fail.
      sh.(captures := sh.captures - {h}, freed := sh.freed + multiset{h})
    case Bind(stack) =>
      var h := Entering(c.x.frames);
      if outcome.Failed? || h.None? then sh else sh.(works := sh.works[h.value := stack])
    case _ => sh
  }

  /** The binding of the thread after the native call replied `outcome`. */
  function NativeBinding(c: View, op: Op, outcome: Outcome): Binding {
    if outcome.Failed? then c.t.binding else
    match op
    case Bind(stack) => Binding(stack, true, Some(stack))
    case Restore(h) => if h in c.sh.captures then c.sh.captures[h].binding else c.t.binding
    case _ => c.t.binding
  }

  predicate CanContinue(frames: Frames) {
    frames.On? &&
    match frames.top
    case Call(_, phase) => !phase.InNative?
    case Run(_, _, phase) => !phase.Body? && !phase.AwaitRestore?
    case _ => true
  }

  /** The next step of `callStatus`: enter native code, read the error, or return. */
  function ContinueCall(g: Goroutine, c: View): View
    requires c.x.frames.On? && c.x.frames.top.Call? && !c.x.frames.top.call.InNative?
  {
    var x, rest := c.x, c.x.frames.below;
    var op := x.frames.top.op;
    match x.frames.top.call
    case Locked => View(x.(frames := On(Call(op, InNative), rest)), c.t.(lastError := None), c.sh)
    case Returned(outcome) =>
      if outcome.Failed?
      then c.(x := x.(frames := On(Call(op, Reported(outcome.wrote, c.t.lastError)), rest)))
      else c.(x := Leave(x, Resume(rest, op, outcome)))
    case Reported(w, r) =>
      c.(x := Leave(x, Resume(rest, op, Failed(w))), sh := c.sh.(reports := c.sh.reports + [Report(g, w, r)]))
  }

  /** The next step of `PushScope`: the native push, giving up, or `claimScope`. */
  function ContinuePush(g: Goroutine, c: View): View
    requires c.x.frames.On? && c.x.frames.top.Push?
  {
    var x, rest := c.x, c.x.frames.below;
    match x.frames.top.push
    case Pinned => c.(x := Enter(x, PushNative))
    case PushFailed => c.(x := Leave(x, rest))
    case Pushed(u) => c.(x := x.(frames := rest), sh := c.sh.(owners := c.sh.owners[u := g]))
  }

  /** The next step of `PopScope`: the native pop, then `releaseScope` in two steps. */
  function ContinuePop(c: View): View
    requires c.x.frames.On? && c.x.frames.top.Pop?
  {
    var x, rest := c.x, c.x.frames.below;
    var Pop(u, pinned, phase) := x.frames.top;
    match phase
    case Checked => c.(x := Enter(x, PopNative(u)))
    case Popped =>
      if pinned
      then c.(x := x.(frames := On(Pop(u, true, Released), rest)), sh := c.sh.(owners := c.sh.owners - {u}))
      else c.(x := x.(frames := rest))
    case Released => c.(x := Leave(x, rest))
  }

  /** The next step of `ScopeStack.Run`: capture, bind, restore, or unlock and return. */
  function ContinueRun(c: View): View
    requires c.x.frames.On? && c.x.frames.top.Run? && CanContinue(c.x.frames)
  {
    var x, rest := c.x, c.x.frames.below;
    var Run(st, entry, phase) := x.frames.top;
    match phase
    case Capturing => c.(x := Enter(x, Capture))
    case Captured(_) => c.(x := Enter(x, Bind(st)))
    case Restoring(h, panicking) =>
      c.(x := Enter(x.(frames := On(Run(st, entry, AwaitRestore(h, panicking)), rest)), Restore(h)))
    case Leaving(_, unrestored) => c.(x := Leave(x, rest), sh := c.sh.(works := Moved(c.sh.works, rest, unrestored)))
  }

  predicate CanAct(c: View, a: Action) {
    c.x.place.Some? &&
    var frames := c.x.frames;
    match a
    case ManagedPush(u) => UserMode(frames) && FreshScope(c.sh, u)
    // A handle names a scope that native code made.
    case BeginPop(u) => UserMode(frames) && !FreshScope(c.sh, u)
    case EndBody(_) => frames.On? && frames.top.Run? && frames.top.run.Body?
    case NativeReturn(outcome, left) =>
      && frames.On? && frames.top.Call? && frames.top.call.InNative?
      && Possible(c, frames.top.op, outcome)
      && (outcome.Failed? ==> left == outcome.wrote)
    case Continue => CanContinue(frames)
    case _ => UserMode(frames)
  }

  /** `scopeOwnedHere` refuses a scope of another goroutine with ErrPopScopeGoroutine. */
  predicate Foreign(sh: Shared, u: Uuid, g: Goroutine) {
    u in sh.owners && sh.owners[u] != g
  }

  function Act(g: Goroutine, c: View, a: Action): View
    requires CanAct(c, a)
  {
    var x := c.x;
    match a
    case UnguardedNative(left) => c.(t := c.t.(lastError := left))
    case ManagedPush(u) =>
      var id := c.t.binding.Current();
      c.(sh := c.sh.(stacks := c.sh.stacks[id := StackAt(c.sh, id) + [u]], managed := c.sh.managed + {u}))
    case BeginCall => c.(x := Enter(x, Plain))
    case BeginPush => c.(x := x.(depth := x.depth + 1, frames := On(Push(Pinned), x.frames)))
    case BeginPop(u) =>
      if Foreign(c.sh, u, g) then c
      else
        c.(x := x.(frames := On(Pop(u, u in c.sh.owners, Checked), x.frames)),
           sh := if u in c.sh.home && u !in c.sh.owners && u !in c.sh.popped
                 then c.sh.(looked := c.sh.looked + {u}) else c.sh)
    case BeginRun(stack) =>
      c.(x := x.(depth := x.depth + 1, frames := On(Run(stack, c.t.binding, Capturing), x.frames)))
    case EndBody(panicking) =>
      var Run(st, entry, Body(h)) := x.frames.top;
      c.(x := x.(frames := On(Run(st, entry, Restoring(h, panicking)), x.frames.below)))
    case NativeReturn(outcome, left) =>
      var op := x.frames.top.op;
      View(x.(frames := On(Call(op, Returned(outcome)), x.frames.below)),
           ThreadState(left, NativeBinding(c, op, outcome)),
           NativeShared(g, c, op, outcome))
    case Continue =>
      match x.frames.top
      case Call(_, _) => ContinueCall(g, c)
      case Push(_) => ContinuePush(g, c)
      case Pop(_, _, _) => ContinuePop(c)
      case Run(_, _, _) => ContinueRun(c)
  }

  // ----- Steps of the whole system ------------------------------------------------------

  /** `g` runs on a thread right now. */
  predicate Running(s: State, g: Goroutine) {
    g in s.goroutines && s.goroutines[g].place.Some? && s.goroutines[g].place.value in s.threads
  }

  function ViewOf(s: State, g: Goroutine): View
    requires Running(s, g)
  {
    View(s.goroutines[g], s.threads[s.goroutines[g].place.value], s.shared)
  }

  predicate Enabled(s: State, l: Label) {
    match l
    case Spawn(g) => g !in s.goroutines
    // The Go scheduler moves a goroutine only when no lock holds it, onto a thread nobody uses.
    case Schedule(g, t) =>
      && g in s.goroutines && s.goroutines[g].place.None? && s.goroutines[g].depth == 0
      && t in s.threads && forall h :: h in s.goroutines ==> s.goroutines[h].place != Some(t)
    case Deschedule(g) => Running(s, g) && s.goroutines[g].depth == 0
    case Step(g, a) => Running(s, g) && CanAct(ViewOf(s, g), a)
  }

  function Apply(s: State, l: Label): State
    requires Enabled(s, l)
  {
    match l
    case Spawn(g) => s.(goroutines := s.goroutines[g := GoroutineState(None, 0, Base)])
    case Schedule(g, t) => s.(goroutines := s.goroutines[g := s.goroutines[g].(place := Some(t))])
    case Deschedule(g) => s.(goroutines := s.goroutines[g := s.goroutines[g].(place := None)])
    case Step(g, a) =>
      var c := Act(g, ViewOf(s, g), a);
      State(s.goroutines[g := c.x], s.threads[s.goroutines[g].place.value := c.t], c.sh)
  }

  /** `ls` can happen, one step after the other, from `s`. */
  predicate IsRun(s: State, ls: seq<Label>)
    decreases |ls|
  {
    ls == [] || (Enabled(s, ls[0]) && IsRun(Apply(s, ls[0]), ls[1..]))
  }

  function After(s: State, ls: seq<Label>): State
    requires IsRun(s, ls)
    decreases |ls|
  {
    if ls == [] then s else After(Apply(s, ls[0]), ls[1..])
  }

  /** Nothing has happened yet: any threads with any bindings, no goroutine, no scope. */
  predicate Init(s: State) {
    s.goroutines == map[] && s.shared == Shared(map[], map[], map[], [], map[], {}, {}, {}, multiset{}, map[])
  }
}
