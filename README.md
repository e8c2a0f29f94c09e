# fbs: one-shot result slot and event-id registry, in Dafny

This project models `fbs.go` from the Go package `fbs`. The file holds two small synchronisation primitives:

- **`channelSingle`**, made by `WithChannel(val, d)`. It is a one-shot slot that owns a source value and a result channel of capacity 1. Two paths compete to resolve it: `ToBack(val)`, which delivers a value and stops the timer, and `timeout()`, which the timer calls after `d`. Each path checks the flag `in` under the slot's mutex and acts only while the flag is false. The result channel therefore receives exactly one message: the delivered value or the timeout error.
- **`eventIdSingle`**, made by `WithEventId()`. It is a registry with two maps:
  - `backMap` maps an event id to the capacity-1 channel a waiter receives on.
  - `backVal` maps a minted token to the payload that token stands for.

  The registry has four operations:
  - `AddSingle(id)` binds the id to a new channel.
  - `Done(id, v)` acts only if the id is pending. It stores `v` under a fresh token, sends the token on the id's channel and unbinds the id.
  - The expiry callback acts only if the id is still pending. It sends `""` and unbinds the id.
  - `GetVal(token)` hands out a payload once.

Each locked method is one atomic step. A timer firing is an explicit step that the caller may take at any time: `ChannelSingle.Timeout` or `EventIdSingle.Expire`.

Each component has two layers:

- **A specification on values.** A state datatype (`Signal.Slot`, `EventRegistry.Registry`) and a step function (`Apply`) that the invariant `Inv` is proved to hold across. There is also `Run`, which applies any interleaving of steps. Lemmas about traces state exactly-once delivery.
- **A class.** It has the source's fields (`ChannelSingle`, `EventIdSingle`), and its methods update them in place. Each method is proved to take its object from `old(State())` to `Apply(old(State()), step)`.

Each state carries a proof-only history, `sent`, of everything ever sent on each channel. It is what lets the invariants say "at most one message, ever".

Modelling choices:

- Go's field `in` is called `resolved` (`in` is a Dafny keyword).
- `s.timer.Stop()` is recorded in the flag `timerStopped`.
- `interface{}` payloads are a type parameter.
- `nil` is `None`.
- The two `errors.New` values are tags of `Signal.ErrorTag`.
- A send on a channel goes through `Channels.Send`, which requires room in the buffer. Every call site proves that the send could not block.
- Go channels are references that the waiter keeps after the registry unbinds them. The registry model therefore keeps every channel it has made in a table, `chans`. A channel is named by its index in that table (a handle), and `backMap` maps ids to handles.

## Model

| member | source | states |
|---|---|---|
| `Signal.Init` | fbs.go:57-65 | The slot WithChannel builds keeps the given source. It is unresolved, its buffer is empty, its timer is not stopped, and it satisfies the exactly-once invariant. |
| `Signal.Apply` | fbs.go:33-54 | Every step keeps the invariant: at most one message is ever sent, one was sent exactly when the slot is resolved, and a stopped timer means a value was delivered. ToBack and timeout always leave the slot resolved and are no-ops on a resolved slot, so a late timeout never replaces a value. On an unresolved slot, ToBack sends exactly `backInfo{val, nil}` and stops the timer, and timeout sends exactly `backInfo{nil, timeout}`. Each send fits the capacity-1 buffer. A receive changes neither the history nor the flags. |
| `Signal.Run` | fbs.go:33-54 | Any interleaving of ToBack, timer firings and receives keeps the invariant and the source. |
| `Signal.FirstOutcome` | fbs.go:36-52 | The outcome a trace decides holds at most one message. |
| `Signal.Received` | fbs.go:43-45 | What the consumer has received is either nothing, or the one message sent with the buffer then empty. |
| `Signal.SettledStaysSettled` | fbs.go:36-40 | Once resolved, no later ToBack, timeout or receive sends anything, unresolves the slot or changes the timer. |
| `Signal.FirstStepWins` | fbs.go:33-54 | From an unresolved slot, the history of the channel equals what the first ToBack or timeout of the trace sends. The slot is resolved exactly when such a step occurred. The timer is stopped exactly when that step was a ToBack. |
| `Signal.ExactlyOnce` | fbs.go:33-65 | For a slot made by WithChannel and any trace, at most one message is ever sent, and it is decided by whichever of ToBack and timeout comes first. The consumer receives nothing other than that message. |
| `Signal.DeliveredBeforeTimeout` | fbs.go:33-41 | A ToBack that comes before the timer decides the outcome: the channel carries its value, whatever happens after, and the timer is stopped. |
| `Signal.ChannelSingle.GetSingle` | fbs.go:29-31 | Returns the source given to WithChannel, on every call, and changes nothing. |
| `Signal.ChannelSingle.ToBack` | fbs.go:33-41 | On an unresolved slot it appends `backInfo{val, nil}` to the buffer, stops the timer and sets the flag. On a resolved slot the object is unchanged. The new state is `Apply(old, Deliver(val))` and keeps the invariant. |
| `Signal.ChannelSingle.Timeout` | fbs.go:47-54 | On an unresolved slot it appends `backInfo{nil, timeout}` and sets the flag, and leaves the timer flag unchanged. On a resolved slot the object is unchanged. The new state is `Apply(old, Fire)`. |
| `Signal.ChannelSingle.FeedBack` | fbs.go:43-45 | The result channel buffers at most one message, and only once the slot is resolved. That message is the single one ever sent. |
| `Signal.ChannelSingle.Receive` | fbs.go:43-45 | A receive on a non-empty result channel yields the one message ever sent and empties the buffer. |
| `Signal.ChannelSingle.constructor` | fbs.go:61-62 | Allocates a slot in the initial state `Init(val)`. |
| `Signal.WithChannel` | fbs.go:57-65 | Fails with "must set overtime" exactly when `d <= 0`. Otherwise it returns a fresh, valid slot in state `Init(val)`. |
| `EventRegistry.Empty` | fbs.go:119-121 | The registry WithEventId builds has both maps empty and no channels, and satisfies the invariant. |
| `EventRegistry.Lookup` | fbs.go:109-117 | GetVal finds a payload exactly for the keys of `backVal`, and never for the empty token. |
| `EventRegistry.AddStep` | fbs.go:81-85 | AddSingle binds the id to a new, empty channel and overwrites any earlier binding. It leaves `backVal` and every existing channel alone, and keeps the invariant. |
| `EventRegistry.Resolve` | fbs.go:89-90 | Sending on a pending id's channel and unbinding the id: the channel goes from nothing sent to exactly one token, so the send cannot block. The invariant is kept. |
| `EventRegistry.DoneStep` | fbs.go:98-107 | For a pending id, Done stores the payload under the fresh token, makes the id's channel hold exactly that token, and removes the id. For an absent id it changes nothing. The invariant is kept. |
| `EventRegistry.ExpireStep` | fbs.go:86-93 | For a pending id, expiry makes its channel hold exactly `""` and removes the id. For an absent id it changes nothing. The invariant is kept. |
| `EventRegistry.TakeStep` | fbs.go:94 | A receive on a channel returned by AddSingle takes its buffered token and changes nothing else. |
| `EventRegistry.Apply` | fbs.go:81-117 | Every registry step keeps the invariant and never destroys a channel. The invariant says that each channel is sent at most one token and that pending ids hold unsent, unshared channels. It also says the empty token never names a payload. |
| `EventRegistry.Run` | fbs.go:81-117 | Any interleaving of registry steps keeps the invariant. |
| `EventRegistry.StepKeepsBinding` | fbs.go:84-105 | A step for another id, GetVal or a receive leaves an id's binding and its channel's history alone, so no value leaks between ids. |
| `EventRegistry.StepUnbinds` | fbs.go:84-105 | AddSingle, Done or expiry of an id sends its outcome to the id's current channel (nothing, the token, or `""`) and leaves that channel bound to no id. |
| `EventRegistry.UnboundStaysQuiet` | fbs.go:86-105 | A channel that no id is bound to is never sent anything again, whatever follows. |
| `EventRegistry.FirstResolutionWins` | fbs.go:81-107 | The channel of a pending id ends up having been sent exactly what the first step concerning that id decides: the token of a Done, `""` for an expiry, or nothing if the id is registered again first. So Done and expiry exclude each other, and a late one is a no-op. |
| `EventRegistry.DoneThenGetVal` | fbs.go:98-117 | After Done(id, v) on a pending id, the waiter's channel holds the token. GetVal of the token yields v, a second GetVal finds nothing, and the state no longer changes. |
| `EventRegistry.EventIdSingle.WithEventId` | fbs.go:119-121 | Builds a registry in state `Empty()`. |
| `EventRegistry.EventIdSingle.AddSingle` | fbs.go:81-95 | Returns a new empty channel, binds the id to it (overwriting), and leaves `backVal` unchanged. The new state is `Apply(old, Register(id))`. |
| `EventRegistry.EventIdSingle.Expire` | fbs.go:86-93 | For a pending id, its channel receives `""` and the id is removed. Otherwise the object is unchanged. The new state is `Apply(old, Expiry(id))`. |
| `EventRegistry.EventIdSingle.Done` | fbs.go:98-107 | For a pending id, the token is stored with the payload, sent on the id's channel, and the id is removed. For an absent id both maps and all channels are unchanged. The new state is `Apply(old, Complete(id, v, token))`. |
| `EventRegistry.EventIdSingle.GetVal` | fbs.go:109-117 | Returns `Some(payload)` and removes the token when it is a key, and None otherwise (`""` included). Only `backVal` changes. |
| `EventRegistry.EventIdSingle.Receive` | fbs.go:94 | A receive on a non-empty channel returned by AddSingle yields the one token ever sent on it and empties it. |

## Left out

- Goroutines, `sync.Mutex` and `time.AfterFunc` scheduling. Each locked method is one atomic step, and a timer firing is an explicit call that may come at any point. Wall-clock time and durations are not modelled. The only duration that matters is the sign of `d` in WithChannel (fbs.go:58), so AddSingle has no timeout parameter.
- The unlocked read of `backMap` in the expiry callback (fbs.go:87), taken before the lock (fbs.go:88), is a data race. A sequential model cannot express it: `EventIdSingle.Expire` performs the check and the action as one atomic step.
- Timer identity. The expiry callback captures the event id and not the channel (fbs.go:86-87). An earlier registration's timer can therefore expire a later registration of the same id, and the model does the same, because `Expire` is keyed by id. Which timer fires is not tracked.
- `uuid.NewString()` (fbs.go:102) and `RandomEventId` (fbs.go:123-125) are calls into a foreign library. The token is an argument to `Done`, required to be non-empty and not already a key of `backVal`, and `RandomEventId` is not modelled.
- Blocking receives. A receive that would block is not a step: `Receive` requires a buffered message, and a trace skips a receive on an empty channel.
- The Go interface types `ChannelSingle` and `EventIdSingle` (fbs.go:10-14, fbs.go:68-72) are represented by the classes themselves.
- The dynamic typing of `interface{}` payloads and the identity of the `errors.New` values. The model uses a type parameter and the tags of `ErrorTag`. WithChannel's panic is a `Failure(MustSetOvertime)` result.
- Signal.ChannelSingle.FeedBack: returns the messages the result channel buffers, not the channel itself.
- `GetVal("")` is not a special case in the code (fbs.go:109-117). It finds nothing only because `""` is never minted, which `EventRegistry.Inv` states. The model follows the code here.
