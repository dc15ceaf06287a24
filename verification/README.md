# NeMo Relay: verified models of the language bindings

NeMo Relay is a native runtime for agent telemetry with bindings for Go, Node and Python. Most of
the binding code forwards arguments; this project models the parts that decide something and
proves, for all inputs, all runs and all interleavings, what those parts are for. Each module names
the source file it models in its header. `dafny verify dfyconfig.toml` verifies everything.

**Threads, goroutines and scopes** (`ThreadAffinity*.dfy`). The native library keeps the last error
message and the bound scope stack per OS thread, while goroutines migrate between threads. The Go
binding nests OS-thread locks around native calls, for the lifetime of every pushed scope and around
`ScopeStack.Run`, and records in a shared map which goroutine holds the lock of which scope. The
model is a labelled transition system: each step of each protocol function is a label, native replies
and the scheduler are part of the label, native calls may call back into Go, and user code may start
any operation whenever it is in control. `ThreadAffinity` holds the steps, `ThreadAffinityInvariant`
and `ThreadAffinitySteps` the inductive invariant, `ThreadAffinityBinding` what the frames of a
goroutine say about its thread's binding, and the other modules the theorems.

**Callback lifetimes.** `ClosureRegistry` and `CodecCapability` are transition systems as well, since
their steps interleave; `PluginTeardown` is a class, since a mutex makes each of its methods one step.

**Diagnostics queries.** `DiagnosticsQuery` has the Node binding's walk over an object graph as a class
with shared budgets, beside a specification without budgets; `DiagnosticsQueryProofs` shows that the
two agree, `DiagnosticsQueryTheorems` what callers can rely on. `DiagnosticsReader` is the Go reader:
its encoding of a query, its pair of length checks, and what it answers. `JsonText` writes and reads
JSON text; `Decimal` holds UTF-8 lengths and decimal numerals.

**Wire codecs.** `DiagnosticNumber`, `ScopeStackEntry` and `Contribution`, with `ContributionDecoding` for
what decoding does with every document and `ContributionTheorems` for round trips.

**Documentation checks.** `FenceScanner` is the page scanner of `scripts/check-quickstarts.py`,
`QuickstartContract` and `PortablePath` what it demands of the scenario, the blocks and their paths, and
`AtofVerifier` the event-log check.

## Findings

Four places where the code does less than its comments suggest, each with the exact condition:

- A `PopScope` that looks a scope up between its native push and `claimScope` finds no owner. If the
  stack is bound on two threads, its native pop can then remove the scope under its owner; no later
  pop succeeds, so the owner stays pinned to its thread forever (`PinLeaks`). From every initial state
  with two threads some run does this (`LeakIsReachable`). A caller can prevent it by a rule about which
  thread may work on which stack, exactly if the rule gives each stack to one thread (`SafeExactly`).
  Step by step, a run strands a scope exactly if such an unowned pop hits a scope that is owned by now,
  or the scope is claimed after it was popped (`StrandedExactly`).
- Closure identifiers are serial numbers cut to `uintptr`. Lookups find the right closure in all runs
  with n registrations exactly if n is at most the number of identifiers (`RightExactly`). Beyond that a
  live token loses its entry exactly to a registration of another closure with the same cut number, or
  to the release of a token with the same identifier (`EntrySurvives`).
- `encoding/json` matches member names without regard to case, so an extra member `ID` comes back as
  the contribution's `id` or fails to decode. A set of extra names is safe for all values exactly if
  no name folds to a known one (`RoundTripExactly`).
- A nil Go diagnostics reader answers `closed`, except for a query with an overlong string, which is
  answered `invalid_query` (`DiagnosticsReader.QueryJson`).

The comment on `ScopeStack.Run` promises that all scope operations inside use its stack. The Go code
handles a restore that fails, and in the model native code may refuse one; then a body can be left on
the stack of a nested `Run` (`BodyCanBeMoved`), exactly when that `Run` worked on another stack and
did not restore (`StackMoves`). The native restore refuses only a null handle
(`crates/ffi/src/api/scope_stack.rs:402-417`), which a successful capture never returns, and with
native code that restores every capture the promise always holds (`RunKeepsItsPromise`).

## Model

| member | source | states |
|---|---|---|
| ThreadAffinityTheorems.ReachableInv | go/nemo_relay/nemo_relay.go:467-542 | every state of every interleaving satisfies the invariant that ties lock depths, owners, frames, captures, thread errors and bindings together |
| ThreadAffinityTheorems.LockConservation | go/nemo_relay/nemo_relay.go:482-530 | in every reachable state a goroutine's lock depth is its entries in `scopeOwners` plus its pushes in flight, half-done releases, open `Run`s and open calls; a goroutine with locks is on a thread that no other goroutine uses |
| ThreadAffinityTheorems.ErrorAttribution | go/nemo_relay/nemo_relay.go:467-487 | in every run, whatever other goroutines and callbacks did meanwhile, the errors that the calls of a goroutine have handed to their callers are exactly, and in this order, the messages with which native code answered its own failed calls, but for one that is just being read |
| ThreadAffinityTheorems.ErrorIsOfTheThread | go/nemo_relay/nemo_relay.go:467-487 | in any state, reachable or not, `callStatus` reads the error from the thread it is on, and a native call starts with none there |
| ThreadAffinityPanics.AnswerIsTold | go/nemo_relay/nemo_relay.go:467-487 | a call that native code answers with a failure hands its caller exactly the message of that answer, and one that is answered with success hands on no error, with callbacks before and other goroutines at work until it returns |
| ThreadAffinityPanics.OperationErrors | go/nemo_relay/nemo_relay.go:482-542 | from its beginning to its end an operation hands on exactly the messages of the failed native answers it got, in order, those of callbacks included |
| ThreadAffinityTheorems.OnlyOwnerReleases | go/nemo_relay/nemo_relay.go:505-530 | an entry of `scopeOwners` changes in no step but the owner's `releaseScope` after a successful native pop, and the scope is then retired |
| ThreadAffinityTheorems.RetiredForever | go/nemo_relay/nemo_relay.go:505-530 | a released scope never gets an owner again |
| ThreadAffinityTheorems.ScopeAffinity | go/nemo_relay/nemo_relay.go:818-885 | from `claimScope` to `releaseScope` a scope keeps its owner, and the owner stays on the thread it pushed on |
| ThreadAffinityTheorems.ForeignPopRefused | go/nemo_relay/nemo_relay.go:874-877 | in particular, `PopScope` of a scope that another goroutine owns changes nothing in the whole state |
| ThreadAffinityRun.OperationIsBalanced | go/nemo_relay/nemo_relay.go:482-542 | whichever way a call, push, pop or `Run` ends, and whatever callbacks did, the goroutine is back in its caller, its locks have changed by as many as its scopes, and it has the captures it had |
| ThreadAffinityRun.RunRestoresThread | go/nemo_relay/nemo_relay.go:2380-2398 | `Run` stays on one thread over any body, and leaves the thread bound as it found it unless the restore itself failed; a `Run` that returns without a panic always restored |
| ThreadAffinityPanics.RunPanicsExactly | go/nemo_relay/nemo_relay.go:2380-2398 | `Run` panics exactly if native code answers its capture, its bind or its restore with a failure, or its body panics; one that returns normally entered its body, and the body returned |
| ThreadAffinityRun.CapturesFreedOnce | go/nemo_relay/nemo_relay.go:2382-2392 | a captured binding is handed back at most once, and no frame uses it afterwards |
| ThreadAffinityRun.CaptureConsumed | go/nemo_relay/nemo_relay.go:2380-2398 | a binding captured during an operation, directly or in a nested `Run`, has been handed back exactly once when the operation is over, whichever way it ends |
| ThreadAffinityOutcomes.EntryComes | go/nemo_relay/nemo_relay.go:496-510 | an entry of `scopeOwners` comes only by the claim of a scope whose native push succeeded, on the thread of that push |
| ThreadAffinityOutcomes.PushOutcome | go/nemo_relay/nemo_relay.go:496-503 | a push without callbacks gets one native reply: a failure leaves locks and scopes as they were, a success adds exactly one lock and the new scope |
| ThreadAffinityOutcomes.PopOutcome | go/nemo_relay/nemo_relay.go:851-885 | a pop without callbacks gets one native reply: exactly a success on an owned scope takes one lock and that scope away, everything else leaves both as they were |
| ThreadAffinityBodies.BodyUsesItsStack | go/nemo_relay/nemo_relay.go:2374-2398 | in every reachable state the thread of a goroutine inside a `Run` body, also in callbacks and between nested runs, works on the stack that the history names for that body |
| ThreadAffinityBodies.StackMoves | go/nemo_relay/nemo_relay.go:2380-2398 | a body is moved to another stack exactly by a nested `Run` that ends in it without having restored, and that worked on another stack |
| ThreadAffinityBodies.UndisturbedBody | go/nemo_relay/nemo_relay.go:2374-2398 | while no nested `Run` has moved it, a body works on its own stack, whatever happened in other bodies of the goroutine |
| ThreadAffinityBodies.RunKeepsItsPromise | go/nemo_relay/nemo_relay.go:2374-2398 | if native code restores every capture, all scope operations inside every body use its stack in every reachable state |
| ThreadAffinityScenario.BodyCanBeMoved | go/nemo_relay/nemo_relay.go:2384-2391 | if native code may refuse a restore, some run leaves a body on the stack of a nested `Run`, for any two stacks |
| ThreadAffinityLeak.OwnedScopeSurvives | go/nemo_relay/nemo_relay.go:841-848 | an owned scope that no `PopScope` looked up in flight is still on a native stack, or its owner is just releasing it |
| ThreadAffinityLeak.StrandedExactly | go/nemo_relay/nemo_relay.go:841-883 | a run strands a scope exactly if it contains a step in which a `PopScope` whose lookup found no owner pops a scope that is owned by now, or the claim of a scope popped in flight |
| ThreadAffinityLeak.StrandedByStep | go/nemo_relay/nemo_relay.go:841-883 | step by step, a scope is stranded afterwards exactly if it was before or the step is one of these two |
| ThreadAffinityDiscipline.OneThreadIsSafe | go/nemo_relay/nemo_relay.go:841-883 | in every run in which each stack is worked on by one thread only, no scope is stranded |
| ThreadAffinityDiscipline.SafeExactly | go/nemo_relay/nemo_relay.go:818-885 | a rule about which thread may work on which stack keeps every obeying run from stranding a scope exactly if it gives each stack to one thread |
| ThreadAffinityDiscipline.TwoThreadsLeak | go/nemo_relay/nemo_relay.go:818-885 | from any two threads bound to one stack, a run without any `Run` strands a scope |
| ThreadAffinityLeak.PinLeaks | go/nemo_relay/nemo_relay.go:874-883 | once a scope is popped under its owner, every continuation of the run keeps the owner locked to the same thread |
| ThreadAffinityLeak.SharedStackCanLeak | go/nemo_relay/nemo_relay.go:841-883 | whenever a scope in flight is on top of a stack that another running goroutine is bound to, the run can go on, without any `Run`, so that the scope is stranded |
| ThreadAffinityScenario.LeakIsReachable | go/nemo_relay/nemo_relay.go:818-885 | from every initial state with two threads, and for every scope stack, some run strands a scope |
| ClosureRegistry.LiveIdsDistinct | go/nemo_relay/callbacks.go:149-186 | in every interleaving two tokens hold different ids while no more closures were registered than there are ids |
| ClosureRegistry.LookupFindsItsClosure | go/nemo_relay/callbacks.go:149-186 | a lookup through a live token returns the closure that its registration was begun with, through failed allocations, releases and reuse of addresses |
| ClosureRegistry.Conservation | go/nemo_relay/callbacks.go:149-186 | after any run the map has an entry for every stored closure whose token was not deleted, failed allocations included, C memory a token for every allocation that was not freed, and the counter is the number of registrations begun |
| ClosureRegistry.OthersUntouched | go/nemo_relay/callbacks.go:149-186 | releasing a token or failing to allocate one leaves the map entry of every other live token as it is |
| ClosureRegistry.EntrySurvives | go/nemo_relay/callbacks.go:149-186 | whatever the counter is, a live token keeps its map entry in any step exactly unless the step registers another closure under the same converted number or releases a token with the same id |
| ClosureRegistry.CanMistake | go/nemo_relay/callbacks.go:149-186 | for every number of registrations beyond the ids there is a run in which a lookup through a live token finds another closure |
| ClosureRegistry.RightExactly | go/nemo_relay/callbacks.go:149-186 | over all runs with n registrations every lookup finds its own closure exactly if n is at most the number of ids |
| CodecCapability.AnsweredExactly | go/nemo_relay/callbacks.go:303-351 | a codec call gets the expired error exactly if `invalidate` cleared the flag before its check, and otherwise holds the capability until it releases it, and can use it |
| CodecCapability.AcquireWaitsFor | go/nemo_relay/callbacks.go:303-351 | the read lock of a codec call waits exactly for an `invalidate` that has the write lock, and the check for nothing |
| CodecCapability.PointersAreLive | go/nemo_relay/callbacks.go:303-351 | in every interleaving, with codecs leaked to any goroutine, a native codec pointer is used only after the trampoline that handed it out was entered and before its `invalidate` cleared the flag, so never after it returned |
| CodecCapability.InvalidateWaits | go/nemo_relay/callbacks.go:303-351 | `invalidate` cannot take the lock, let alone finish, while a codec call holds the capability |
| CodecCapability.InvalidateWaitsFor | go/nemo_relay/callbacks.go:303-351 | `invalidate` can take the lock exactly when no codec call of the invocation is between its read lock and its release |
| CodecCapability.ExpiredForever | go/nemo_relay/callbacks.go:440-523 | after `invalidate`, in every continuation no call uses the pointer or comes to hold the capability |
| CodecCapability.OverStays | go/nemo_relay/callbacks.go:440-523 | a check after `invalidate` ends in the expired error, and nothing makes the invocation active again |
| CodecCapability.ReturnedIsOver | go/nemo_relay/callbacks.go:825-846 | a trampoline that has returned, normally or by a panic, went through `invalidate`, and nobody holds its capability |
| PluginTeardown.ActivationState.constructor | go/nemo_relay/plugin.go:518-527 | a new activation is open, has no error, and may be finalized |
| PluginTeardown.ActivationState.CloseOnce | go/nemo_relay/plugin.go:538-570 | the new state and the native calls made are those of the specification; a closed activation repeats its result, an open one returns what the clear said |
| PluginTeardown.ActivationState.RunFinalizer | go/nemo_relay/plugin.go:528-536 | the finalizer is one close, and can run once |
| PluginTeardown.ActivationState.ReadReport | go/nemo_relay/plugin.go:484-503 | asks native code exactly when the activation is open, and is an error otherwise |
| PluginTeardown.ActivationState.IsActiveNow | go/nemo_relay/plugin.go:505-516 | is true exactly if the activation is open and native code says it is active |
| PluginTeardown.TeardownIsSafe | go/nemo_relay/plugin.go:484-570 | over all sequences of calls, finalizer runs and native replies, native free happens at most once, right after a reply that shows the host is gone, and no native call follows it |
| PluginTeardown.ClosedIsAbsorbing | go/nemo_relay/plugin.go:545-570 | nothing but the finalizer flag changes in a closed activation, so every later close has the same result |
| PluginTeardown.ClosesExactly | go/nemo_relay/plugin.go:545-570 | over any run, however often a clear failed, an activation is closed exactly if some close or finalizer was told that the host is gone, and keeps its pointer until then |
| PluginTeardown.NilActivationIsQuiet | go/nemo_relay/plugin.go:484-570 | an activation without a pointer never makes a native call |
| DiagnosticsQuery.QueryWalk.NormalizeScalar | crates/node/diagnostics.js:69-86 | accepts exactly the scalars that the rules allow within the budget, charges only strings, and writes the wire value |
| DiagnosticsQuery.QueryWalk.Normalize | crates/node/diagnostics.js:45-68 | the in-place walk with shared counters computes the specification walk and its budgets, and is entered at most one time more than the node cap |
| DiagnosticsQueryProofs.WalkComplete | crates/node/diagnostics.js:45-86 | a query that unfolds to a tree within the rules and the budgets is accepted, whatever was used up before, and has used exactly what the tree costs |
| DiagnosticsQueryProofs.WalkSound | crates/node/diagnostics.js:45-86 | a walk that succeeds has seen a finite tree within the rules and the budgets |
| DiagnosticsQueryProofs.EncodingCoversCharge | crates/node/diagnostics.js:59-90 | the encoding of a tree is at least as long as everything the walk charges for it, so running refusals never reject a query that fits |
| DiagnosticsQueryProofs.WalkDecides | crates/node/diagnostics.js:42-90 | walking, encoding and measuring accepts exactly the queries of the specification, with the same text |
| DiagnosticsQueryProofs.QueryJson | crates/node/diagnostics.js:42-90 | on every object graph, the result is the text of unfolding the query, checking the rules, encoding and measuring, and a refusal exactly if there is none |
| DiagnosticsQueryTheorems.OneEncoding | crates/node/diagnostics.js:42-90 | a query has at most one accepted encoding |
| DiagnosticsQueryTheorems.WalkWork | crates/node/diagnostics.js:45-68 | on every heap, cyclic or not, the walk visits at most one value more than the node cap |
| DiagnosticsQueryTheorems.FinishedWalkIsShort | crates/node/diagnostics.js:59-90 | the text of a finished walk has at most six bytes per charged byte and 26 per node, before the final measure |
| DiagnosticsQueryTheorems.CyclicIsRefused | crates/node/diagnostics.js:45-68 | every query with a cycle is refused |
| DiagnosticsQueryTheorems.MeaningKept | crates/node/diagnostics.js:50-86 | at every path the wire value has a node exactly where the query has one, the same fields, each under its name in snake case and no two under the same, and the same scalars but for u64 numerals |
| DiagnosticsQueryTheorems.WireIsSnake | crates/node/diagnostics.js:61 | position by position, a wire name is the field name with an underscore and the small letter for every capital, and everything else as it is |
| DiagnosticsQueryTheorems.AcceptedMeansQuery | crates/node/diagnostics.js:42-90 | the accepted text, read as JSON by the rules of RFC 8259, is the query: the same nodes at the same paths, with the same names in snake case and the same scalars |
| DiagnosticsQueryTheorems.DefaultQuery | crates/node/diagnostics.js:42-44 | a query that is left out is sent as the empty object |
| DiagnosticsQueryTheorems.NormalizeAgain | crates/node/diagnostics.js:50-90 | sending the decoded output through again gives the same text exactly if every wire name fits the field-name cap, and a refusal otherwise |
| JsonText.ReadUndoesEncode | crates/node/diagnostics.js:87-90 | a reader for RFC 8259 gets every value back from its text |
| JsonText.EscapesExactly | crates/node/diagnostics.js:87-90 | exactly control characters, quotes, backslashes and lone surrogates are escaped, seven of them by a letter and the others by four hexadecimal digits |
| JsonText.EncodeInjective | crates/node/diagnostics.js:87-90 | different JSON values have different texts |
| DiagnosticsReader.LongTextLongQuery | go/nemo_relay/diagnostics.go:129-147 | a query with a measured string over the limit has an encoding over the limit, through escapes, invalid UTF-8 and nesting |
| DiagnosticsReader.MeasureTexts | go/nemo_relay/diagnostics.go:129-142 | the early checks find exactly the queries with an overlong string, in the query, its ownership filter or its cursor |
| DiagnosticsReader.MarshalReads | go/nemo_relay/diagnostics_types.go:247-292 | the native side, reading the text by the field names of its own query (`crates/types/src/diagnostics/query.rs:15-63`), gets back every string, up to bytes that are not UTF-8, and every number that the caller gave, and nothing that was not given |
| DiagnosticsReader.EscapesExactly | go/nemo_relay/diagnostics.go:143 | which runes `json.Marshal` escapes, and with how many characters |
| DiagnosticsReader.QueryJson | go/nemo_relay/diagnostics.go:82-147 | an open reader returns the native answer to a query that fits, and `invalid_query` for any other; what a closed or nil reader answers does not depend on native code; the early checks leave the result as it is without them, exactly unless the reader is nil and a string is overlong |
| DiagnosticNumber.Number.UnmarshalJSON | go/nemo_relay/diagnostics_types.go:20-32 | accepts exactly the encodings of 0 to 2^64 - 1 and stores the number that encodes back to the document; a refusal leaves the receiver alone |
| DiagnosticNumber.DecodeExactly | go/nemo_relay/diagnostics_types.go:12-32 | decoding and encoding are inverse, and the accepted texts are the canonical numerals in range |
| DiagnosticNumber.NodeWritesWhatGoReads | crates/node/diagnostics.js:70-73 | the Node binding writes a bigint exactly if it is in range, as the text that the Go binding decodes to the same number |
| Decimal.CanonicalIsPrinted | go/nemo_relay/diagnostics_types.go:16-18 | a canonical numeral is the print of its value |
| Decimal.BytesAreSent | crates/node/diagnostics.js:88 | the measured length of a text is the number of bytes of its UTF-8 form, with U+FFFD for lone surrogates |
| ScopeStackEntry.ChecksAreExact | go/nemo_relay/nemo_relay.go:2180-2212 | the length, dash and dash-removal checks accept exactly the 8-4-4-4-12 hexadecimal form of section 4 of RFC 9562 |
| ScopeStackEntry.Entry.UnmarshalJSON | go/nemo_relay/nemo_relay.go:2157-2212 | accepts exactly canonical identifiers, stores them in lower case with the type of the name or Unknown, and leaves the receiver alone otherwise |
| ScopeStackEntry.RoundTrip | go/nemo_relay/nemo_relay.go:2157-2212 | an entry survives encoding and decoding exactly if its identifier is canonical and in lower case and its type is in range |
| ScopeStackEntry.RoundTripBack | go/nemo_relay/nemo_relay.go:2157-2212 | encoding a decoded entry keeps the identifier up to case and every known name, and gives `unknown` for the others |
| ScopeStackEntry.DecodesOnce | go/nemo_relay/nemo_relay.go:2157-2212 | a document stands for at most one entry |
| Contribution.MarshalJSON | go/nemo_relay/optimization.go:109-144 | asks for a schema exactly if there is none although the payload is neither nil, empty, blank nor null; otherwise fails exactly if the payload or an unknown extra message is not one JSON value; writes each known field that is set under its own name, and every unknown member of `Extra`, a nil one as null |
| Contribution.Cell.UnmarshalJSON | go/nemo_relay/optimization.go:147-184 | stores what the document decodes to, or leaves the receiver alone; what it decodes to is stated by the next three rows |
| ContributionDecoding.AcceptedExactly | go/nemo_relay/optimization.go:147-167 | a document is accepted exactly if it is an object, every member that matches a field is null or of its type, `producer` and `kind` are there under these very names, and a payload that ends up other than null comes with a schema that does too |
| ContributionDecoding.DecodesExactly | go/nemo_relay/optimization.go:148-151 | on every document each known field comes from the last member that decides it, a struct merging into what the members before made of it, and is zero without one |
| ContributionDecoding.ExtraExactly | go/nemo_relay/optimization.go:152-170 | `Extra` holds exactly the members without a known name, each with the last value given under its name |
| ContributionTheorems.PlainDocument | go/nemo_relay/optimization.go:147-184 | a well-typed document with distinct names, none of them folding, is refused exactly if `producer` or `kind` is missing, or `payload` is there and not null while `payload_schema` is missing or null; otherwise every field is the member of its own name |
| Contribution.ExtraNeverOverrides | go/nemo_relay/optimization.go:115-144 | whatever `Extra` holds, a known name is written with the known field, or not at all |
| ContributionTheorems.RoundTrip | go/nemo_relay/optimization.go:97-184 | decoding what was encoded, in any order of members, gives the contribution with known names stripped from `Extra`, if no extra name folds to a known one |
| ContributionTheorems.RoundTripExactly | go/nemo_relay/optimization.go:97-184 | all contributions with given extra names survive exactly if none of the names folds to a known one |
| ContributionTheorems.FoldedNameLoses | go/nemo_relay/optimization.go:148-184 | with a folding name some contribution is lost, in every order of members and whatever the other names are |
| ContributionTheorems.UnknownMembersSurvive | go/nemo_relay/optimization.go:97-184 | whatever decodes can be encoded again, with exactly the unknown members it came with, each with its last value |
| ContributionTheorems.DecodedIsStable | go/nemo_relay/optimization.go:97-184 | a decoded contribution is a fixed point of encoding and decoding |
| FenceScanner.FindAnnotation | scripts/check-quickstarts.py:88-94 | finds the annotation of a gap exactly if there is one annotation and nothing but blank lines after it |
| FenceScanner.CountingIsExact | scripts/check-quickstarts.py:125-128 | the two counts match exactly on pages whose markers and tags all belong to extracted blocks |
| FenceScanner.Annotate | scripts/check-quickstarts.py:82-124 | pairs every displayed block with the one annotation before it, or fails exactly if some block has none |
| FenceScanner.Extract | scripts/check-quickstarts.py:82-130 | accepts exactly the pages that are balanced, annotated block by block and without orphan annotations, and returns their blocks in order |
| FenceScanner.FenceAccounting | scripts/check-quickstarts.py:86-128 | on an accepted page every fence marker is the opener or closer, and every `<Code` line the tag, of exactly one extracted block |
| FenceScanner.AnnotationsInOrder | scripts/check-quickstarts.py:86-124 | annotations and blocks alternate in page order |
| FenceScanner.AnnotationsAreUsed | scripts/check-quickstarts.py:86-130 | every annotation outside of the blocks belongs to a block |
| QuickstartContract.CheckSelection | scripts/check-quickstarts.py:131-141 | the checks of one shell accept exactly the selections with distinct identifiers, one expected output, and all references to commands resolved |
| QuickstartContract.Select | scripts/check-quickstarts.py:132 | the blocks for a shell are, in page order, exactly those that name it, or name none while the scenario has it |
| QuickstartContract.CheckScenario | scripts/check-quickstarts.py:69-148 | accepts exactly the pages with one scenario of the right name, a portable directory, a log check and valid artifact paths |
| QuickstartContract.CheckBlock | scripts/check-quickstarts.py:97-121 | accepts exactly the blocks whose source, directory, shells and role are in order |
| QuickstartContract.ExtractContract | scripts/check-quickstarts.py:69-148 | accepts a page for a shell exactly if its scenario, its structure, each of its blocks and the selection of every shell are in order and the scenario has the shell, and returns the blocks of that shell in page order |
| QuickstartContract.CountsDistinct | scripts/check-quickstarts.py:133-134 | there are as many different identifiers as blocks exactly if no two blocks share one |
| QuickstartContract.OneExpected | scripts/check-quickstarts.py:135-136 | the list of expected outputs has one element exactly if there is one such block, and is that block |
| QuickstartContract.ReferencesResolve | scripts/check-quickstarts.py:137-141 | in an accepted selection every reference of an expected output or a background block names exactly one block, and that is a command |
| PortablePath.RelativePath | scripts/check-quickstarts.py:60-66 | looking at the parts of a split accepts exactly the paths that are not empty, not absolute, and free of backslashes, colons and `..` components |
| PortablePath.PartsAreComponents | scripts/check-quickstarts.py:60-66 | the parts of a split are exactly what stands between the slashes of a path |
| PortablePath.StaysInside | scripts/check-quickstarts.py:60-66 | a portable path leads from every directory to a place inside it |
| PortablePath.ArtifactPath | scripts/check-quickstarts.py:152-158 | accepts exactly portable paths and portable paths below a declared path input |
| AtofVerifier.CheckLine | scripts/check-quickstarts.py:178-190 | the checks of one line accept exactly the events that carry the required fields |
| AtofVerifier.Agree | scripts/check-quickstarts.py:198-201 | two events agree exactly if each of the three keys has the same value in both, or a value in neither |
| AtofVerifier.Collect | scripts/check-quickstarts.py:173-193 | the first loop succeeds exactly if every line is well formed and no phase repeats for a UUID, and the dictionaries then hold exactly the scope events |
| AtofVerifier.MatchPairs | scripts/check-quickstarts.py:194-202 | the second loop succeeds exactly if all closed pairs agree on name, category and parent, and collects exactly their ends |
| AtofVerifier.VerifyAtof | scripts/check-quickstarts.py:171-209 | accepts exactly the logs that meet the declarative rules |
| AtofVerifier.OrderDoesNotMatter | scripts/check-quickstarts.py:171-209 | reordering the lines never changes the verdict |

## Left out

- The Rust core: middleware, streaming, plugin layering, response cache, pricing, redaction and diagnostics storage. What `ThreadAffinity` says about native calls follows the native binding code (`crates/ffi/src/api/scope_stack.rs:358-417`, `crates/runtime/src/api/runtime/scope_stack.rs:549-575`): a call clears the error of its thread, a failing call leaves its message there, identifiers are fresh, a pop takes the top of the bound stack only.
- Registration wrappers, exporters, config builders, handle finalizers and other forwarding code, which would only add easy members.
- `LlmStream` and stream callbacks: their synchronization is not part of this model.
- The transition systems take update in place as steps on a state value, because what matters is how the steps of different goroutines interleave.
- Native code is taken to leave the binding of a thread alone while it calls back into Go. A native plugin that installs a stack override around a callback (`crates/runtime/src/api/runtime/continuation_context.rs:115`) is not modelled, so what `ThreadAffinityBodies` says about callbacks does not cover it.
- Calls of `LockOSThread` by user code, and goroutines that exit while they own a scope, are not modelled.
- Getters, proxies and other user code that a JavaScript property read can run are not modelled: the object graph does not change during the walk.
- Regular expressions: `FenceScanner` works on classes of lines. A `<Code` tag spread over several lines, and a closing fence that swallows the blank lines after it, are not modelled.
- `FenceScanner.Extract`: the rules for the blocks it returns are in `QuickstartContract.ExtractContract`.
- `QuickstartContract.ExtractContract`: parsing JSON, validating it against the schema, and whether a component's source leads to a file inside the page's directory are inputs.
- `AtofVerifier.VerifyAtof`: JSON values are compared as values; that Python finds `1` and `true` equal is not modelled, and whether a string is a UUID is an input.
- `encoding/json`, `strconv` and case folding are taken as documented: a contribution's member name is exactly known, known up to case, or neither; strings are valid UTF-8, since `json.Marshal` replaces invalid bytes and such a text does not come back; numbers are integers; a nested struct is the map of its set fields, and unknown members inside it are dropped by decoding and not tracked.
- `DiagnosticsReader.QueryJson`: the mutex around the native reader is left out, and so is the choice between the two native queries, which are taken as one argument.
- `Contribution.MarshalJSON`: the written document is the map of its members; `ContributionTheorems` covers every order in which they can be written.
