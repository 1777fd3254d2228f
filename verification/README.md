# Immersim registry, event bus and resources

Immersim simulates a set of named resources. Each resource holds a value: an
int32, a float32 or a bool. A registry (`Storage`) maps each name to its
resource. It dispatches `Read` and `Write` by capability and starts and stops
every entry. Resources talk to each other through an event bus (`Events`). The
bus maps each topic string to the ordered list of listener channels subscribed
to it. The topics are a resource's change topic (its name) and its action
topics (`name:action`).

The resource types modelled here are:

- `StaticReader` / `StaticReadWriter`: a fixed value, and a typed writable one.
- `Constant`: a read-only value.
- `Action`: a boolean command that runs a callback.
- `Increment`: a counter driven by a timer and by reset/pause/resume actions.
- `LinearFeedback`: a controller that ramps toward a setpoint read from another
  resource.
- `Computed`: a value derived from other resources and recomputed when they
  change.

This Dafny project models that bookkeeping with the goroutines taken out. Each
iteration of a resource's `select` loop is one atomic method call on one
input. A call to `Emit` is returned as an `Emission` value (topic and payload).
The bus's `Emit` returns the ordered list of delivery attempts.

Modules, in dependency order:

- `Values`: int32 with wrap-around, dynamic values, error kinds.
- `Event`: topics and payloads.
- `EventBus`: the listener table and the `Events` class.
- `StaticResource`, `ConstantResource`, `ActionResource`, `IncrementResource`,
  `FeedbackResource`, `ComputedResource`: one module per resource file.
- `Registry`: the `Storage` class.

Listener channels are instances of the `Channel` class, so they compare by
identity as Go channels do. Several things outside the model are passed in as
parameters:

- whether an Action's callback completes;
- whether each delivery beats the bus timeout;
- what a controller's setpoint read returns when the setpoint changes, and
  the view of the registry a computed callback sees when it recomputes. When
  the registry starts an entry, it supplies both itself, from its own `Read`
  at that moment.

## Model

| member | source | states |
|---|---|---|
| Values.Wrap32 | resource/increment.go:67 | int32 `+=` wraps: the identity in range, and always congruent modulo 2^32 |
| Values.WrapAdd | resource/increment.go:65-72 | wrapping after each tick equals wrapping once at the end |
| Values.KindOf | storage/storage.go:23-29 | only int32, float32 and bool values are of a supported resource type |
| Values.Zero | resource/computed.go:30 | Go's `*new(T)` is of type T: 0, 0.0 or false |
| Event.Changed | event/event.go:7-9 | the change topic is exactly the resource name: same length, with the name as its prefix |
| Event.ChangedInjective | event/event.go:7-9 | the change topic is the name itself, so distinct resources have distinct change topics |
| Event.Action | event/event.go:11-13 | an action topic is exactly the resource, a colon and the action, and each part can be read back from it |
| Event.ActionInjective | event/event.go:11-13 | for one resource, two action topics are equal iff the actions are equal |
| Event.ActionIsNotChanged | event/event.go:7-13 | an action topic of r is strictly longer than r's change topic, so the two differ |
| Event.ChangedMayCollideWithAction | event/event.go:7-13 | a resource named `r:a` shares its change topic with r's action `a` |
| EventBus.RemoveAll | event/events.go:33-35 | deletion removes every copy of the handle and keeps every other handle (multiset) |
| EventBus.RemoveAllConcat | event/events.go:33-35 | deletion distributes over concatenation, so the rest keep their relative order |
| EventBus.RemoveAllAbsent | event/events.go:33-35 | unsubscribing an absent handle leaves the list as it was |
| EventBus.RemoveAppended | event/events.go:26-35 | deleting a handle just appended to a list without it gives the list back |
| EventBus.RemoveAllIdempotent | event/events.go:33-35 | deleting twice is deleting once |
| EventBus.Added | event/events.go:26 | the table after Subscribe: the handle is appended to the topic's list, and every other topic keeps its list |
| EventBus.Removed | event/events.go:33-35 | the table after Unsubscribe: the topic's list loses every copy of the handle and keeps the rest, and every other topic keeps its list |
| EventBus.AddedLookup | event/events.go:22-27 | Subscribe appends at the end of its topic and changes no other topic |
| EventBus.AddedTwiceKeepsBoth | event/events.go:26 | subscribing one handle twice leaves two copies (no deduplication) |
| EventBus.RemovedLookup | event/events.go:29-36 | after Unsubscribe the handle is gone from its topic; other topics are unchanged |
| EventBus.RemovedIdempotent | event/events.go:29-36 | Unsubscribe is idempotent on the whole table |
| EventBus.AddedAllSnoc | event/events.go:22-27 | subscribing to one more topic at the end of a list is one more Subscribe |
| EventBus.RemovedAllSnoc | event/events.go:29-36 | unsubscribing from one more topic at the end of a list is one more Unsubscribe |
| EventBus.AddedAllLookup | event/events.go:22-27 | after subscribing to a list of topics, each topic gains one copy per occurrence in the list, after its old listeners |
| EventBus.RemovedAllLookup | event/events.go:29-36 | after unsubscribing from a list of topics, each listed topic has lost every copy and the others are unchanged |
| EventBus.SubscribeUnsubscribeRoundTrip | event/events.go:22-36 | subscribing a new handle to a list of topics, then unsubscribing it from the same list, gives every topic its listeners back in order |
| EventBus.NoAttemptAfterUnsubscribe | event/events.go:29-50 | an emission on a topic the handle left makes no attempt to that handle |
| EventBus.Events.constructor | event/events.go:15-20 | a fresh bus has no listener for any topic |
| EventBus.Events.Subscribe | event/events.go:22-27 | the new table is the old one with the handle appended to the topic |
| EventBus.Events.Unsubscribe | event/events.go:29-36 | the new table is the old one with every copy of the handle deleted from the topic |
| EventBus.Events.Emit | event/events.go:38-50 | one attempt per listener of the topic, in registration order (none without listeners); the table is not modified |
| StaticResource.StaticReader.constructor | resource/static.go:25-31 | holds the given value, unbound |
| StaticResource.StaticReader.Read | resource/static.go:40-42 | always the construction value, never an error |
| StaticResource.StaticReader.Start | resource/static.go:44-47 | binds the name and the bus |
| StaticResource.StaticReader.Stop | resource/static.go:49-52 | clears the name and the bus |
| StaticResource.StaticReadWriter.constructor | resource/static.go:33-38 | holds the given value; its type is fixed from then on |
| StaticResource.StaticReadWriter.Read | resource/static.go:54-59 | the current value, never an error |
| StaticResource.StaticReadWriter.Write | resource/static.go:61-73 | accepted iff the value has the resource's type. If accepted, it is stored and the change topic is emitted. If refused, MismatchedTypes is returned, nothing changes and nothing is emitted |
| StaticResource.StaticReadWriter.Start | resource/static.go:44-47 | binds without changing the value |
| StaticResource.StaticReadWriter.Stop | resource/static.go:49-52 | unbinds without changing the value |
| StaticResource.WriteThenRead | resource/static.go:54-73 | a read after a successful write returns the written value |
| ConstantResource.Constant.constructor | resource/constant.go:14-20 | holds the given value, empty name, no bus |
| ConstantResource.Constant.Read | resource/constant.go:22-24 | always the construction value, never an error |
| ConstantResource.Constant.Start | resource/constant.go:26-29 | binds name and bus; the value is a constant |
| ConstantResource.Constant.Stop | resource/constant.go:31-34 | clears name and bus |
| ActionResource.Action.constructor | resource/action.go:20-29 | unarmed and unbound |
| ActionResource.Action.Start | resource/action.go:31-36 | disarms and binds name, registry and bus |
| ActionResource.Action.Stop | resource/action.go:38-42 | clears the bindings, flag untouched |
| ActionResource.Action.Read | resource/action.go:44-49 | the flag as a bool, never an error |
| ActionResource.Action.Write | resource/action.go:51-69 | a non-bool is refused with MismatchedTypes, changes nothing and runs no callback. A bool is stored and never returns an error. The callback runs iff the value is true, and then a completed callback clears the flag |
| IncrementResource.Next | resource/increment.go:53-72 | one loop iteration. Pause sets the paused flag and resume clears it; reset and tick keep it. Reset restores the initial value. Pause, resume and a paused tick keep the value. A running tick adds step, modulo 2^32 |
| IncrementResource.Announced | resource/increment.go:57-72 | an iteration emits iff it is a reset or a running tick, on the change topic with (name, new value); a reset announces the initial value |
| IncrementResource.PausedHolds | resource/increment.go:53-72 | while paused, no input other than resume or reset changes the counter: no tick fires |
| IncrementResource.TicksAccumulate | resource/increment.go:65-72 | running and unpaused, the counter moves by step per tick, modulo 2^32 |
| IncrementResource.ResetThenTicks | resource/increment.go:57-72 | a reset followed by k ticks gives initial + k * step, modulo 2^32 |
| IncrementResource.ThreeRoundTrip | resource/increment.go:91-99 | three new handles subscribed to three distinct topics and then unsubscribed leave every topic as it was |
| IncrementResource.Increment.constructor | resource/increment.go:27-43 | current is the initial value, unbound, no channels |
| IncrementResource.Increment.Open | resource/increment.go:80-89 | binds, makes four new channels, starts the loop with the timer running, value untouched |
| IncrementResource.Increment.Start | resource/increment.go:79-94 | the bus gains exactly the reset, resume and pause subscriptions, in that order; the value is untouched |
| IncrementResource.Increment.Step | resource/increment.go:45-77 | one loop iteration follows Next and announces what Announced says: a tick or reset emits the change topic with (name, new value) |
| IncrementResource.Increment.Close | resource/increment.go:101-115 | unbound with no channels, value untouched |
| IncrementResource.Increment.Stop | resource/increment.go:96-116 | unsubscribes the same three (topic, channel) pairs, clears everything, keeps the value |
| IncrementResource.Increment.Read | resource/increment.go:118-123 | the value as an int32, never an error |
| IncrementResource.StartThenStop | resource/increment.go:79-116 | Start then Stop gives every bus topic its listeners back and keeps the value |
| FeedbackResource.ApproachAsWritten | resource/linear_feedback.go:64-79 | the tick as written: at the target it stays, and it never passes the target. When it does not stop on the target, it has moved by step modulo 2^32, possibly to behind its start |
| FeedbackResource.Approach | resource/linear_feedback.go:64-79 | the tick as intended: at the target it stays, and for any step it never passes the target. With a non-negative step it gives min(current + step, target) from below and max(current - step, target) from above |
| FeedbackResource.NegativeStepWrapsToTarget | resource/linear_feedback.go:64-79 | a negative step from the bottom of the int32 range wraps past the target, and both ticks clamp to the target |
| FeedbackResource.ApproachAgreesWithoutPositiveStep | resource/linear_feedback.go:64-79 | with a step of zero or less the tick as written equals the corrected tick: the two differ only when a step toward the target overflows |
| FeedbackResource.ApproachAsWrittenOverflows | resource/linear_feedback.go:64-79 | the tick as written wraps past the int32 limit and moves away from the target |
| FeedbackResource.ApproachAgrees | resource/linear_feedback.go:64-79 | where neither current + step nor current - step overflows, the tick as written equals the corrected tick |
| FeedbackResource.NoOvershoot | resource/linear_feedback.go:64-79 | a tick from below ends between start and target, from above likewise, at the target it stays |
| FeedbackResource.DistanceShrinks | resource/linear_feedback.go:64-79 | a tick closes the distance by exactly step, or completely |
| FeedbackResource.Holds | resource/linear_feedback.go:61-83 | at the target, any number of ticks holds it |
| FeedbackResource.Converges | resource/linear_feedback.go:61-83 | n ticks with n * step >= distance end exactly on the target |
| FeedbackResource.ReadSetpoint | resource/linear_feedback.go:87-112 | an int32 setpoint passes through. A float32 one is converted. A failed read returns the registry's error with target zero. A non-numeric value gives NotNumeric with target zero |
| FeedbackResource.LinearFeedback.constructor | resource/linear_feedback.go:30-43 | starts at zero, unbound, with its own listener |
| FeedbackResource.LinearFeedback.Start | resource/linear_feedback.go:114-124 | binds, makes a new listener, the target comes from the first setpoint read (errors discarded), the bus gains one subscription on the setpoint's change topic |
| FeedbackResource.LinearFeedback.Notify | resource/linear_feedback.go:55-60 | a setpoint change re-reads the target (errors discarded), value untouched |
| FeedbackResource.LinearFeedback.Tick | resource/linear_feedback.go:61-83 | the value follows Approach; the change topic is emitted iff the value was not already at the target |
| FeedbackResource.LinearFeedback.Stop | resource/linear_feedback.go:126-135 | removes the setpoint subscription and unbinds; the value is kept |
| FeedbackResource.LinearFeedback.Read | resource/linear_feedback.go:137-142 | the value as an int32, never an error |
| FeedbackResource.TickMany | resource/linear_feedback.go:61-83 | n ticks whose steps cover the distance leave the controller on its target |
| ComputedResource.ChangedTopics | resource/computed.go:46-48 | one change topic per dependency, in list order |
| ComputedResource.Computed.constructor | resource/computed.go:22-34 | holds the zero value of its type, unbound, no listener |
| ComputedResource.Computed.Open | resource/computed.go:36-45 | new listener with one slot per dependency; value seeded from the callback |
| ComputedResource.Computed.Start | resource/computed.go:36-49 | seeded from the callback, and the bus gains one subscription per dependency's change topic, in list order |
| ComputedResource.Computed.Recompute | resource/computed.go:76-83 | a notification recomputes from the callback and emits the change topic with (name, value) |
| ComputedResource.Computed.Close | resource/computed.go:59-63 | unbound, no listener, value back to the zero value |
| ComputedResource.Computed.Stop | resource/computed.go:51-64 | the listener leaves every dependency's change topic; unbound and zeroed |
| ComputedResource.Computed.Read | resource/computed.go:66-71 | the current value, never an error |
| ComputedResource.StartThenStop | resource/computed.go:36-64 | Start then Stop gives every bus topic its listeners back |
| Registry.External.Start | storage/storage.go:18-21 | a resource outside the model binds to its name and bus |
| Registry.External.Stop | storage/storage.go:18-21 | and unbinds |
| Registry.IsReader | storage/storage.go:61 | every modelled resource type has Read; only an external resource may lack it |
| Registry.IsWriter | storage/storage.go:81 | StaticReadWriter and Action have Write; StaticReader, Constant, Increment, LinearFeedback and Computed do not |
| Registry.Storage.constructor | storage/storage.go:42-46 | the registry over a fixed map, which no operation changes |
| Registry.Storage.Read | storage/storage.go:60-78 | an unknown name or a resource without Read fails with ReadFailed(name, NotReadable). A resource's own error is wrapped as ReadFailed(name, error). Otherwise its value comes back unchanged |
| Registry.Storage.Write | storage/storage.go:80-96 | an unknown name or a resource without Write fails with WriteFailed(name, NotWritable) and touches nothing. Otherwise the resource's Write runs once and its error is wrapped. An accepted write to a StaticReadWriter emits its change topic. After an accepted write, Read returns the written value for a StaticReadWriter, and the flag for an Action. A refused write leaves Read unchanged, and every other entry reads the same. An entry bound under its name stays bound |
| Registry.Storage.Start | storage/storage.go:48-52 | every entry is started exactly once, under its own key, on the given bus. Each entry is seeded from the registry as it reads when that entry starts: a computed entry from its callback, and a controller from its setpoint. Entries other than actions and computed ones read the same throughout, so each of those views agrees with the registry before Start on them |
| Registry.Storage.ReadAll | storage/storage.go:60-78 | the view of the registry at one moment: exactly the names whose Read succeeds, each with the value Read returns |
| Registry.StartResource | storage/storage.go:50 | one resource's Start, dispatched by type: it is bound, a computed resource is seeded from the view, a controller takes its target from the view's setpoint value, and a non-action, non-computed resource reads the same |
| Registry.Storage.StartEntry | storage/storage.go:50 | starting one entry with a given view binds it, seeds it from that view, leaves what a non-action, non-computed entry reads alone, and leaves every other entry unchanged |
| Registry.Storage.StartNext | storage/storage.go:49-51 | one round of the start loop: the entry is started with the registry as it reads now, and what the loop keeps carries over |
| Registry.Storage.Stop | storage/storage.go:54-58 | every entry is stopped exactly once |
| Registry.Storage.StopEntry | storage/storage.go:56 | stopping one entry leaves every other entry unchanged |
| Registry.Session | storage/storage.go:48-96 | Start, then a write by name, then Stop, leaves every entry idle; a write to a name without Write fails with NotWritable |

## Left out

- Concurrency: goroutines, the per-resource mutexes, the wait groups, tickers and their intervals, and the bus's read/write lock are not modelled. Each loop iteration is one atomic method call. The `quit` case of a loop is what `Stop` does.
- EventBus.Events.Emit: the `select` between a delivery and `time.After(timeout)` is the parameter `accepts`, saying which attempts were taken. Listeners never receive anything, and channel buffers and closing are not modelled.
- EventBus.Events.constructor: the source drops its `timeout` argument (event/events.go:15-20), so every Emit in the source waits zero time. The model stores the argument instead. This changes nothing, because delivery is given by `accepts`.
- float32: `Increment` and `LinearFeedback` are modelled for int32 only. Float32 values are opaque bit patterns, and there is no float arithmetic. `readSetpoint`'s float32-to-int32 conversion is the function field `fromFloat`, and its int32-to-float32 branch is not modelled.
- FeedbackResource.LinearFeedback.Tick: its emission is modelled with an empty payload. The source's `Emit(name)` calls (resource/linear_feedback.go:71,79; resource/static.go:67) pass only a topic, while Emit takes a topic and a payload. StaticResource.StaticReadWriter.Write is modelled the same way.
- FeedbackResource.LinearFeedback.Start: the source subscribes a `chan struct{}` where the bus takes `chan<- any` (resource/linear_feedback.go:22,123). The model subscribes its listener handle to the setpoint's change topic. That topic is the same string, since a change topic is the resource name.
- FeedbackResource.LinearFeedback.Tick: follows the corrected `Approach`, which clamps when either the exact sum or the sum wrapped around as int32 passes the target. The two differ only when a step toward the target overflows. The source's tick wraps `current + step` around as int32 before it clamps (resource/linear_feedback.go:64-79). That tick is modelled as `ApproachAsWritten`, and `ApproachAsWrittenOverflows` shows where the two differ.
- FeedbackResource.LinearFeedback.Stop: the source calls `wg.Done()` instead of waiting for the loop (resource/linear_feedback.go:130). The loop's own deferred `Done` (resource/linear_feedback.go:46) runs once the loop returns, and whichever of the two runs second takes the counter to -1. `sync.WaitGroup` then panics with a negative counter, so in the source a controller's Stop crashes the process once its loop returns, unless the process exits first. The model's Stop ends the loop cleanly. The listener is not cleared, as in the source.
- FeedbackResource.LinearFeedback: the loop's local `target` is kept as a field so that separate calls share it. The setpoint reads come in as parameters because the registry cannot be referenced from the resource modules without a module cycle. The registry's Start passes the setpoint's Read at the moment the entry starts. The source's first read runs in the loop's goroutine (resource/linear_feedback.go:51,121), concurrently with the rest of Start (its Subscribe at resource/linear_feedback.go:123) and with the registry's start loop, so it may see the registry before or after later entries start. A later `Notify` takes the read as a parameter, which the registry does not constrain. For the same reason a resource's registry binding is an `object?`.
- ActionResource.Action.Write: the callback is code outside the model. Whether it completes is the parameter `completes`, and what it does to the registry or the bus is not modelled.
- ComputedResource.Computed: the callback reads the registry. Here it is a function of the name and of a view of the registry's readable values. The registry's Start passes its `ReadAll` at the moment the entry starts, as the source's callback runs inside Start (resource/computed.go:41). A notification's `Recompute` runs in the loop and takes the view as a parameter, which the registry does not constrain. The callback is not modelled writing to the registry.
- Registry.Storage.Write: the Action callback receives the registry and the bus (resource/action.go:17,58), so it may write other entries, write the action itself, or emit. The model takes only its boolean answer `completes`. The ensures that every other entry reads the same, and that an Action reads back `value && !completes`, hold only for a callback with no such effects.
- Registry.Storage.Write: a StaticReadWriter must be started (bound to a bus) before it is written to. The source would dereference a nil bus otherwise.
- Registry.Storage.Start: the ensures says every entry is bound and how it is seeded. It does not state the resulting listener table, which is each resource's own Start applied in an unspecified order. Each entry's view is the registry as it reads when that entry starts, after the entries started before it; the promise that a view agrees with the registry before Start is made only for names whose entries are neither actions nor computed.
- Registry.Storage.Stop: states that every entry is idle, not the resulting listener table.
- Registry.Storage.constructor: requires distinct names to hold distinct instances. The source allows one instance under two names, which would then be started twice.
- resource/sine_wave.go and resource/random.go are not part of this model: they produce float values from wall-clock time and a random generator. The `External` entry stands for any such resource by its declared capabilities and answers. `SineWave.Stop` clears its fields before joining its loop (resource/sine_wave.go:77-82).
- app.go and example/main.go are not part of this model: they delegate to the registry and the bus, or print.
- Error messages: only the error kinds and the wrapping by name are modelled, not the formatted strings.

## Findings

| source | as written | input that shows it | evidently intended | confidence | as-written member | corrected member |
|---|---|---|---|---|---|---|
| resource/linear_feedback.go:64-79 | `current += step` wraps around as int32 before it is compared with the target | current = 2147483646, target = 2147483647, step = 10: the tick gives -2147483640, further from the target | stop at the target whenever the exact or the wrapped sum would pass it | high, not executed | FeedbackResource.ApproachAsWrittenOverflows | FeedbackResource.Converges |
