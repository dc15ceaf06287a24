/** What every reachable state of the thread-affinity protocol satisfies. */
module ThreadAffinityInvariant {
  import opened Prelude
  import opened ThreadAffinity

  // ----- Accounting ---------------------------------------------------------------------

  /** OS-thread locks that one frame holds. An open scope holds its lock through `owners`. */
  ghost function FrameLocks(f: Frame): nat {
    if f.Pop? && !f.pop.Released? then 0 else 1
  }

  ghost function FramesLocks(frames: Frames): nat {
    match frames
    case Base => 0
    case On(f, rest) => FrameLocks(f) + FramesLocks(rest)
  }

  ghost predicate OwnedBy(sh: Shared, u: Uuid, g: Goroutine) {
    u in sh.owners && sh.owners[u] == g
  }

  /** The scopes that `scopeOwners` assigns to `g`. */
  ghost function Owned(sh: Shared, g: Goroutine): set<Uuid> {
    set u | u in sh.owners && sh.owners[u] == g
  }

  ghost predicate DoneCall(f: Frame) {
    f.Call? && f.call.Returned? && f.call.outcome.Done?
  }

  /** The capture that one frame still has to hand back to native code. */
  ghost function FrameHolds(f: Frame): Option<CaptureId> {
    match f
    case Call(op, phase) =>
      if op.Capture? && DoneCall(f) then Some(phase.outcome.value)
      else if op.Restore? && (phase.Locked? || phase.InNative?) then Some(op.handle)
      else None
    case Run(_, _, phase) =>
      if phase.Captured? || phase.Body? || phase.Restoring? then Some(phase.handle) else None
    case _ => None
  }

  /** How many frames hold the capture `h`. */
  ghost function FramesHeld(frames: Frames, h: CaptureId): nat {
    match frames
    case Base => 0
    case On(f, rest) => (if FrameHolds(f) == Some(h) then 1 else 0) + FramesHeld(rest, h)
  }

  /** Native code made the capture `h` for `g` and has not freed it. */
  ghost predicate LiveFor(sh: Shared, g: Goroutine, h: CaptureId) {
    h in sh.captures && sh.captures[h].holder == g
  }

  // ----- Shape of the frame stack -------------------------------------------------------

  /** `above` was entered by what is on top of `below`. */
  ghost predicate Waits(below: Frames, above: Frame) {
    if above.Call? && !above.op.Plain? then
      below.On? &&
      match above.op
      case PushNative => below.top == Push(Pinned)
      case PopNative(u) => below.top.Pop? && below.top.uuid == u && below.top.pop.Checked?
      case Capture => below.top.Run? && below.top.run.Capturing?
      case Bind(st) => below.top.Run? && below.top.stack == st && below.top.run.Captured?
      case Restore(h) => below.top.Run? && below.top.run.AwaitRestore? && below.top.run.handle == h
      case Plain => true
    else UserMode(below)
  }

  ghost predicate Nested(frames: Frames) {
    match frames
    case Base => true
    case On(f, rest) => Waits(rest, f) && Nested(rest)
  }

  // ----- Facts about the frames of one goroutine ----------------------------------------

  /** The capture `h` saved the binding `entry`, as long as it is live. */
  ghost predicate CaptureIs(sh: Shared, h: CaptureId, entry: Binding) {
    (h in sh.captures && sh.captures[h].binding == entry) || h in sh.freed
  }

  ghost predicate PopFrameOk(sh: Shared, g: Goroutine, u: Uuid, pinned: bool, phase: PopPhase) {
    && (phase.Checked? && pinned ==> u in sh.popped || OwnedBy(sh, u, g))
    && (phase.Checked? && !pinned ==> u in sh.looked || u in sh.popped || u in sh.managed)
    && (phase.Popped? ==> u in sh.popped)
  }

  ghost predicate FrameOk(sh: Shared, g: Goroutine, f: Frame) {
    match f
    case Call(op, phase) =>
      && (op.PopNative? && DoneCall(f) ==> op.uuid in sh.popped)
      && (phase.Reported? ==> phase.wrote == phase.read)
    case Pop(u, pinned, phase) => PopFrameOk(sh, g, u, pinned, phase)
    case Run(_, entry, phase) =>
      && (phase.Captured? || phase.Body? || phase.Restoring? ==> CaptureIs(sh, phase.handle, entry))
      && (phase.Leaving? ==> phase.panicking || phase.unrestored.None?)
    case Push(_) => true
  }

  ghost predicate FramesOk(sh: Shared, g: Goroutine, frames: Frames) {
    match frames
    case Base => true
    case On(f, rest) => FrameOk(sh, g, f) && FramesOk(sh, g, rest)
  }

  /** The native pop of a scope has just succeeded under a `PopScope` of its owner. */
  ghost predicate PopReturned(frames: Frames, u: Uuid) {
    && frames.On? && DoneCall(frames.top) && frames.top.op == PopNative(u)
    && frames.below.On? && frames.below.top.Pop? && frames.below.top.pinned
  }

  /** The owner of a scope that native code has just popped is about to release it. */
  ghost predicate Finishing(frames: Frames, u: Uuid) {
    PopReturned(frames, u) || (frames.On? && frames.top == Pop(u, true, Popped))
  }

  /** A capture on its way between native code and `Run` saved the binding `Run` began with. */
  ghost predicate MovedOk(sh: Shared, frames: Frames) {
    frames.On? && frames.top.Call? && frames.below.On? && frames.below.top.Run? ==>
      && (frames.top.op.Capture? && DoneCall(frames.top)
          ==> CaptureIs(sh, frames.top.call.outcome.value, frames.below.top.entry))
      && (frames.top.op.Restore? ==> CaptureIs(sh, frames.top.op.handle, frames.below.top.entry))
  }

  ghost predicate FlightOk(sh: Shared, x: GoroutineState) {
    InFlight(x.frames).Some? ==>
      var u := InFlight(x.frames).value;
      u in sh.home && x.place == Some(sh.home[u]) && u !in sh.owners && (u in sh.popped ==> u in sh.looked)
  }

  /** A goroutine that owns scopes is on the thread it pushed them on. */
  ghost predicate HomeOk(sh: Shared, g: Goroutine, x: GoroutineState) {
    forall u :: OwnedBy(sh, u, g) ==> u in sh.home && x.place == Some(sh.home[u])
  }

  /** An owned scope that was never looked up in flight leaves native code only with its owner. */
  ghost predicate SurvivalOk(sh: Shared, g: Goroutine, x: GoroutineState) {
    forall u :: OwnedBy(sh, u, g) && u in sh.popped && u !in sh.looked ==> Finishing(x.frames, u)
  }

  ghost predicate LocksOk(sh: Shared, g: Goroutine, x: GoroutineState) {
    x.depth == FramesLocks(x.frames) + |Owned(sh, g)|
  }

  ghost predicate HeldOk(sh: Shared, g: Goroutine, x: GoroutineState) {
    forall h :: FramesHeld(x.frames, h) == if LiveFor(sh, g, h) then 1 else 0
  }

  ghost predicate PopsOk(sh: Shared, g: Goroutine, frames: Frames) {
    FramesOk(sh, g, frames) && forall u :: Finishing(frames, u) ==> OwnedBy(sh, u, g)
  }

  ghost predicate GoroutineOk(sh: Shared, g: Goroutine, x: GoroutineState) {
    && Nested(x.frames) && LocksOk(sh, g, x) && HeldOk(sh, g, x) && PopsOk(sh, g, x.frames)
    && MovedOk(sh, x.frames) && FlightOk(sh, x) && HomeOk(sh, g, x) && SurvivalOk(sh, g, x)
  }

  // ----- Facts that tie a running goroutine to its thread -------------------------------

  /** A failed native call whose error is not read yet still finds its message on its thread. */
  ghost predicate ErrorOk(frames: Frames, t: ThreadState) {
    frames.On? && frames.top.Call? && frames.top.call.Returned? && frames.top.call.outcome.Failed?
    ==> t.lastError == frames.top.call.outcome.wrote
  }

  /** The thread is bound as it was when the innermost `Run` began. */
  ghost predicate EntryOk(frames: Frames, t: ThreadState) {
    frames.On? ==>
      && (frames.top.Run? && (frames.top.run.Capturing? || (frames.top.run.Leaving? && frames.top.run.unrestored.None?))
          ==> t.binding == frames.top.entry)
      && (frames.top.Call? && (frames.top.op.Capture? || (frames.top.op.Restore? && DoneCall(frames.top)))
          && frames.below.On? && frames.below.top.Run?
          ==> t.binding == frames.below.top.entry)
  }

  // ----- Facts about shared memory ------------------------------------------------------

  ghost predicate StacksOk(sh: Shared) {
    && (forall u :: u in sh.managed ==> u !in sh.home)
    && (forall u :: u in sh.popped ==> !FreshScope(sh, u))
    && (forall id, i :: id in sh.stacks && 0 <= i < |sh.stacks[id]| ==>
          !FreshScope(sh, sh.stacks[id][i]) && sh.stacks[id][i] !in sh.popped)
    && (forall id, i, id', i' :: id in sh.stacks && 0 <= i < |sh.stacks[id]| && id' in sh.stacks
                                 && 0 <= i' < |sh.stacks[id']| && sh.stacks[id][i] == sh.stacks[id'][i']
                                 ==> id == id' && i == i')
  }

  ghost predicate FreedOk(sh: Shared) {
    forall h :: h in sh.freed ==> sh.freed[h] == 1 && h !in sh.captures
  }

  ghost predicate ReportsOk(sh: Shared) {
    forall i :: 0 <= i < |sh.reports| ==> sh.reports[i].read == sh.reports[i].wrote
  }

  /** Every owned scope was made by a native push. */
  ghost predicate KnownScopes(sh: Shared) {
    forall u :: u in sh.owners ==> u in sh.home
  }

  ghost predicate SharedOk(sh: Shared) {
    StacksOk(sh) && FreedOk(sh) && ReportsOk(sh) && KnownScopes(sh)
  }

  // ----- The invariant ------------------------------------------------------------------

  ghost predicate ViewOk(g: Goroutine, c: View) {
    GoroutineOk(c.sh, g, c.x) && ErrorOk(c.x.frames, c.t) && EntryOk(c.x.frames, c.t) && SharedOk(c.sh)
  }

  /** Every thread carries at most one goroutine, and a locked goroutine is on its thread. */
  ghost predicate Placed(s: State) {
    && (forall g :: g in s.goroutines ==>
          && (s.goroutines[g].place.Some? ==> s.goroutines[g].place.value in s.threads)
          && (s.goroutines[g].depth > 0 ==> s.goroutines[g].place.Some?))
    && (forall g, h :: g in s.goroutines && h in s.goroutines && g != h && s.goroutines[g].place.Some?
                       ==> s.goroutines[g].place != s.goroutines[h].place)
  }

  ghost predicate FlightsDistinct(s: State) {
    forall g, h :: g in s.goroutines && h in s.goroutines && g != h && InFlight(s.goroutines[g].frames).Some?
                   ==> InFlight(s.goroutines[g].frames) != InFlight(s.goroutines[h].frames)
  }

  ghost predicate KnownOwners(s: State) {
    && (forall u :: u in s.shared.owners ==> s.shared.owners[u] in s.goroutines)
    && (forall h :: h in s.shared.captures ==> s.shared.captures[h].holder in s.goroutines)
  }

  ghost predicate GoroutinesOk(s: State) {
    forall g :: g in s.goroutines ==> GoroutineOk(s.shared, g, s.goroutines[g])
  }

  ghost predicate ThreadOk(s: State, g: Goroutine)
    requires Running(s, g)
  {
    var t := s.threads[s.goroutines[g].place.value];
    ErrorOk(s.goroutines[g].frames, t) && EntryOk(s.goroutines[g].frames, t)
  }

  ghost predicate ThreadsOk(s: State) {
    forall g :: Running(s, g) ==> ThreadOk(s, g)
  }

  ghost predicate Inv(s: State) {
    && Placed(s) && FlightsDistinct(s) && KnownOwners(s) && SharedOk(s.shared) && GoroutinesOk(s) && ThreadsOk(s)
  }
}
