# gotcha resource-limit tracker, modelled in Dafny

gotcha tracks how many bytes, objects and calls a unit of work consumes and
compares them with configured limits. Its core is the tracker `gotchactx`
(context.go). A tracker holds three running counters, three limits and a
parent. The parent is either a plain deadline source or another tracker.
`Add` raises the counters of the tracker and of every tracker above it.
`Exceeded` is true when the tracker or any tracker above it is strictly over
one of its own finite limits. A limit at or below `Infinity = -1` is
unbounded. The limits are set by options (options.go) that run in order after
the defaults: 64 MiB of bytes, unbounded objects, unbounded calls. The project
also models the small amd64 encoders of the vendored gomonkey patcher:
`jmpToFunctionValue`, `callFunctionBody` and `padWithNope`.

Files:

- `units.dfy` (module `Units`): the `int64` type, the unit constants and `Infinity`.
- `counters.dfy` (module `Counters`): the three quantities and the triple a tracker keeps for its counters and its limits, and `Run`, the fold that adds a sequence of deltas one at a time.
- `options.dfy` (module `Options`): the option tags, and `Configure`, which is the effect of running options in order.
- `context.dfy` (module `Context`): the `Tracker` class, its parent chain, and the lemmas about `Exceeded`, `Remains` and `Err`.
- `scenarios.dfy` (module `Scenarios`): the scenarios of context_test.go as client methods. Their assertions follow from the methods' contracts and the query functions' definitions. `AddRun` is a client that calls `Add` once per element of a sequence.
- `monkey_amd64.dfy` (module `Gomonkey`): the byte builders. `uintptr` is `bv64` and a byte is `bv8`.

The tracker is a class with the six `int64` fields of the source. The parent
is a `const`. A ghost constant `Ancestors` lists the trackers above, nearest
first. `Linked()` states that this chain is finite and acyclic. It reads only
constant fields, so no operation can break it. Every recursion up the parent
chain (`Add`, `Remains`, `Exceeded`, `Err`) decreases `|Ancestors|`.

Two behaviours of the code shape the model:

- A limit is unbounded when it is `<= Infinity` (context.go:156, 198). So the test's `5*Infinity` is unbounded.
- `Err` with a tracker parent returns the parent's error unchanged when the parent has one (context.go:108-110). So the `ContextLimitsExceeded` a child reports carries the topmost tracker of its chain that is over its own limit. That tracker is not necessarily the child (`ErrNamesTopmostOverLimit`).

## Model

| member | source | states |
|---|---|---|
| Units.BinaryUnitsArePowersOfTwo | options.go:8-21 | KiB to EiB are 2^10 to 2^60, each a step of 1024; all are int64 values by their type |
| Units.DecimalUnitsArePowersOfTen | options.go:24-46 | KB to EB and Kilo to Exa are 10^3 to 10^18, each a step of 1000 |
| Options.ContextOpt.ApplyTo | options.go:55-73 | an option stores its own quantity's limit and leaves the other two unchanged |
| Options.LastOptionWins | context.go:59-66 | when options run in order, the last option for a quantity decides that quantity's limit |
| Options.UnnamedQuantityKept | context.go:59-66 | a quantity that no option names keeps the limit it had before the options ran |
| Options.DefaultsUnlessOverridden | context.go:57-68 | running the defaults first gives (64 MiB, Infinity, Infinity) whatever the initial limits were, before the caller's options run |
| Context.Tracker.constructor | context.go:57-68 | NewContext: the chain is linked, the counters are 0, and the limits are the defaults followed by the caller's options, applied in order |
| Context.Tracker.Apply | options.go:55-73 | running an option stores exactly one limit field; the counters are unchanged |
| Context.Tracker.Add | context.go:130-137 | every tracker of the chain, this one and all above it, gains b*o bytes, o objects and c calls; no limit changes |
| Context.Tracker.Reset | context.go:213-217 | the local counters become 0; only those three fields are written, so limits, parent and every other tracker are unchanged |
| Counters.RunAddsSum | context.go:130-137 | adding a sequence of deltas one at a time (Run) gives the start plus their sum; AddRun applies this to the tracker's counters |
| Scenarios.AddRun | context.go:130-137 | calling Add once per element of a run: every tracker of the chain ends at its old counters plus the sum of the run's deltas, and no limit changes, provided every intermediate counter stays within int64 |
| Context.Tracker.Remains | context.go:151-195 | each component is Infinity or >= 0; with a finite limit it is max(0, limit - used) and the parent is not consulted |
| Context.Tracker.RemainsUnboundedIff | context.go:151-195 | a component is Infinity exactly when every tracker of the chain has an unbounded limit for that quantity |
| Context.Tracker.RemainsGovernedByFirstFinite | context.go:151-195 | a component equals max(0, limit - used) of the first tracker of the chain with a finite limit for that quantity |
| Context.Tracker.ExceededIffSomeOverLimit | context.go:197-211 | Exceeded holds exactly when some tracker of the chain has a finite limit strictly below its used amount |
| Context.Tracker.ExceededWhenUnused | context.go:197-211 | with zero counters, for instance after Reset or at construction, Exceeded equals the parent tracker's Exceeded, and it is false under a plain parent |
| Context.Tracker.ErrReportsParentFirst | context.go:107-115 | an error from the plain deadline source is returned before any limit is looked at |
| Context.Tracker.ErrNoneIff | context.go:107-115 | Err is nil exactly when the plain source has no error and nothing is exceeded |
| Context.Tracker.ErrNamesTopmostOverLimit | context.go:107-115 | without a source error, an exceeded tracker returns ContextLimitsExceeded for the topmost tracker of its chain that is over its own limit |
| Scenarios.LimitsOfThree | context_test.go:13-30 | three options for bytes, objects and calls after the defaults yield exactly those three limits |
| Gomonkey.JmpToFunctionValue | vendor/github.com/1pkg/gomonkey/monkey_amd64.go:4-17 | the jump is 12 bytes, begins 0x48 0xBA and ends 0xFF 0x22 |
| Gomonkey.JmpAddressBytes | vendor/github.com/1pkg/gomonkey/monkey_amd64.go:7-14 | byte 2+k of the jump is the address shifted right by 8k, truncated to a byte, for k = 0 to 7 |
| Gomonkey.JmpAddressRoundTrip | vendor/github.com/1pkg/gomonkey/monkey_amd64.go:7-14 | decoding bytes 2 to 9 of the jump little-endian gives the address back |
| Gomonkey.JmpInjective | vendor/github.com/1pkg/gomonkey/monkey_amd64.go:4-17 | two targets produce the same jump only if they are equal |
| Gomonkey.CallFunctionBody | vendor/github.com/1pkg/gomonkey/monkey_amd64.go:20-39 | the jump's 10-byte load, then `before`, then 0xFF 0x12, then `after`; the length is 12 + both lengths |
| Gomonkey.CallAddressRoundTrip | vendor/github.com/1pkg/gomonkey/monkey_amd64.go:21-31 | the call's load decodes back to the target address, whatever the surrounding bytes are |
| Gomonkey.PadWithNope | vendor/github.com/1pkg/gomonkey/monkey_amd64.go:42-49 | the result is a new buffer of length `size`; its prefix is copied from `body` as far as it fits, the rest is 0x90, and it equals `body[..size]` when the body is at least `size` bytes long |

## Left out

- `Done` (context.go:74-105): it starts a goroutine that polls the parent and `Exceeded` every millisecond. Concurrency and timing are not modelled. Its first step, closing the channel at once when `Exceeded` holds, reads `Exceeded` as modelled here.
- `Deadline` and `Value` (context.go:70-72, 117-119): they pass straight through to a foreign `context.Context`. A plain parent is modelled only by the error it reports.
- A plain parent's error is fixed for the tracker's lifetime. A Go context can be cancelled later, which this model does not represent.
- `String` and `ContextLimitsExceeded.Error` (context.go:15-17, 121-128): these are `fmt` formatting only.
- Atomicity: every `sync/atomic` load, add and store is a plain sequential field access. Skew between fields under concurrent callers is not modelled.
- Context.Tracker.Add: does not model int64 wrap-around. It requires (`CanAdd`) that `b*o` and every counter sum of the chain stay within int64, where Go would silently wrap.
- Context.Tracker.Remains: computes `limit - used` exactly. Go's int64 subtraction wraps whenever `used < limit - MaxInt64`. With a limit of MaxInt64, any negative counter does it. For example, `Add(1, -1, 0)` takes the byte counter to -1. Go then returns a negative remainder, where the model returns 2^63. In that case the ensures "each component is Infinity or >= 0" holds of the model but not of Go.
- `NewContext` returns the `Context` interface, and options are closures. Here the constructor builds the class, and each option is a tag run by `Tracker.Apply`.
- `Used` and `Limits` (context.go:139-149) are modelled as functions with no contract of their own, because they only return the stored fields. The scenarios and the `Add`/`Reset` contracts are stated through them.
- Gomonkey.PadWithNope: `size` is a `nat`. A negative size makes Go's `make` panic, and that case is not modelled.
- Gomonkey.CallFunctionBody: `join` is not part of this model. It is taken to concatenate its arguments in order.
- malloc.go (runtime patching through `go:linkname`, unsafe casts, reading an environment variable), lstore.go and tracer.go (goroutine-local storage through libraries that are not part of this model, and goroutines with a WaitGroup), and lstore_test.go (measurements of real allocations).
