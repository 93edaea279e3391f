# ChannelEndpoint: the attach / run / detach lifecycle of a message-pipe endpoint

A Mojo message pipe has two ends, ports 0 and 1. When an end is exposed
across a process boundary, it is represented by a `ChannelEndpoint` and
multiplexed over a `Channel`. The endpoint keeps a fixed port and a
reference to its owning `MessagePipe`. It also keeps a triple that its lock
guards: the channel it is attached to, the local id the channel gave it, and
the remote id of its peer. `AttachToChannel` moves it from Unattached to
Attached, `Run` from Attached to Running, and `DetachFromChannel` from either
back to Unattached. The destructor insists that the endpoint is fully
detached. Each of these checks its preconditions with fatal `DCHECK`s.

The model has three modules:

- `EndpointState` (`endpoint_state.dfy`) holds the triple as a value
  (`Binding`). It defines the invariant `Consistent`: a channel is set exactly
  when the local id is valid, and a valid remote id implies a channel. It
  defines each operation's checks (`CanAttach`, `CanRun`, `CanDetach`,
  `Destroyable`) and each operation as a transition (`AfterAttach`,
  `AfterRun`, `AfterDetach`). `Apply` is the total form of one call. On
  failure it returns a `Violation` naming a check that fails and all of whose
  earlier checks, in the source's order, pass (`EarlierChecksPass`).
  `Replay` runs a sequence of calls and stops at the first failure. `Collaborators` holds the opaque `Channel` and `MessagePipe`.
- `ChannelEndpoints` (`channel_endpoint.dfy`) holds the class
  `ChannelEndpoint`. Its fields are assigned in place. Each method requires
  the object invariant `Valid()` and the `DCHECK`s of its source function,
  written as `CanAttach`, `CanRun` or `CanDetach` of the current triple, and
  states the new triple. Every constructed endpoint is `Valid()`. The port,
  the message pipe and the state field are `const`, so no operation can write them.
- `EndpointLifecycle` (`endpoint_lifecycle.dfy`) holds lemmas over sequences
  of calls. They cover the invariant, ids that stay fixed until a detach,
  rejection of misuse, and the full round trip.

A fatal check that fires is a contract violation. On the class it is a
`requires`. In the value layer it is an `Err(violation)` result, so that a
sequence of calls containing misuse can be reasoned about at all.

Nothing in `AttachToChannel` or `DetachFromChannel`
(mojo/system/channel_endpoint.cc:25-35, 46-55) forbids attaching again after
a detach. `ReattachAfterDetach` shows that the checks of `AttachToChannel`
hold again.

## Model

| member | source | states |
|---|---|---|
| `ChannelEndpoints.ChannelEndpoint.constructor` | mojo/system/channel_endpoint.cc:14-23 | requires a non-null message pipe and port 0 or 1; afterwards state is Normal, the pipe and port are the given ones, the channel is null, both ids are the invalid id, and the object invariant holds |
| `ChannelEndpoints.ChannelEndpoint.AttachToChannel` | mojo/system/channel_endpoint.cc:25-35 | requires `Valid()` and `CanAttach`: a non-null channel, a valid local id, and no channel and an invalid local id on the endpoint; afterwards the endpoint holds that channel and that local id, the remote id is unchanged, the invariant holds and the endpoint is Attached |
| `ChannelEndpoints.ChannelEndpoint.Run` | mojo/system/channel_endpoint.cc:37-44 | requires `Valid()` and `CanRun`: a valid remote id, a channel, and an invalid remote id on the endpoint; afterwards the remote id is the given one, channel and local id are unchanged, the invariant holds and the endpoint is Running |
| `ChannelEndpoints.ChannelEndpoint.DetachFromChannel` | mojo/system/channel_endpoint.cc:46-55 | requires `Valid()` and `CanDetach`: a channel and a valid local id but not a valid remote id; afterwards the channel is null, both ids are invalid, the invariant holds and the destructor's checks pass |
| `ChannelEndpoints.ChannelEndpoint.CanDestroy` | mojo/system/channel_endpoint.cc:57-61 | the destructor's checks: no channel and both ids invalid; for a valid endpoint this holds exactly when it is Unattached |
| `ChannelEndpoints.AttachRunDetach` | mojo/system/channel_endpoint.cc:14-61 | construct, attach, run and detach an endpoint: while running it reports exactly the given channel, local id and remote id, and after detaching it may be destroyed |
| `EndpointState.Unbound` | mojo/system/channel_endpoint.cc:18-20 | the triple of a newly constructed endpoint satisfies the invariant, is Unattached and passes the destructor's checks |
| `EndpointState.AfterAttach` | mojo/system/channel_endpoint.cc:25-35 | when the attach checks pass, the new triple satisfies the invariant whatever the old one was, may be detached, and moves a consistent endpoint from Unattached to Attached |
| `EndpointState.AfterRun` | mojo/system/channel_endpoint.cc:37-44 | when the run checks pass, the invariant is preserved, the endpoint moves from Attached to Running, and it may still be detached |
| `EndpointState.AfterDetach` | mojo/system/channel_endpoint.cc:46-55 | when the detach checks pass, from Attached or from Running, the new triple satisfies the invariant, is Unattached and passes the destructor's checks |
| `EndpointState.Apply` | mojo/system/channel_endpoint.cc:25-55 | a call succeeds if and only if all its checks pass; a failure names a check that really fails and is the first to fail in the source's order; a success from a consistent triple keeps the invariant and follows a lifecycle edge (Unattached to Attached, Attached to Running, Attached or Running to Unattached) |
| `EndpointLifecycle.ReplayKeepsConsistent` | mojo/system/channel_endpoint.cc:25-55 | from a consistent triple, every sequence of successful calls ends in a consistent triple |
| `EndpointLifecycle.ConstructedEndpointStaysConsistent` | mojo/system/channel_endpoint.cc:14-55 | from construction on, the invariant holds after every successful sequence of calls, so after every successful call |
| `EndpointLifecycle.AttachmentFixedUntilDetach` | mojo/system/channel_endpoint.cc:25-44 | once attached, the channel and the local id do not change under any sequence of successful calls that contains no detach |
| `EndpointLifecycle.RemoteIdFixedUntilDetach` | mojo/system/channel_endpoint.cc:37-44 | once a remote id is set, it does not change under any sequence of successful calls that contains no detach |
| `EndpointLifecycle.AdmittedCallsByPhase` | mojo/system/channel_endpoint.cc:25-55 | Unattached admits only an attach with a non-null channel and a valid id; Attached admits exactly a run with a valid id or a detach; Running admits only a detach |
| `EndpointLifecycle.AdmitsIffNoViolation` | mojo/system/channel_endpoint.cc:27-49 | a call is admitted exactly when none of the fatal checks fails |
| `EndpointLifecycle.DoubleAttachRejected` | mojo/system/channel_endpoint.cc:31-32 | two attaches in a row fail, whatever channels and ids they name |
| `EndpointLifecycle.RunBeforeAttachRejected` | mojo/system/channel_endpoint.cc:41 | a run with a valid id on a new endpoint fails because no channel is set |
| `EndpointLifecycle.DoubleRunRejected` | mojo/system/channel_endpoint.cc:42 | two runs in a row fail, even with the same remote id |
| `EndpointLifecycle.DetachUnattachedRejected` | mojo/system/channel_endpoint.cc:48 | detaching an unattached endpoint fails because no channel is set |
| `EndpointLifecycle.DoubleDetachRejected` | mojo/system/channel_endpoint.cc:48-49 | two detaches in a row fail |
| `EndpointLifecycle.AttachRunDetachRoundTrip` | mojo/system/channel_endpoint.cc:25-55 | attach then run from a new endpoint yields exactly the given channel and ids; a detach after that gives back the triple of a new endpoint |
| `EndpointLifecycle.DetachWithoutRun` | mojo/system/channel_endpoint.cc:46-55 | an endpoint that was attached and never run can be detached, and ends up as a new one |
| `EndpointLifecycle.ReattachAfterDetach` | mojo/system/channel_endpoint.cc:25-55 | after a detach, an attach to any channel with any valid id succeeds again |
| `EndpointLifecycle.DetachLeavesDestroyable` | mojo/system/channel_endpoint.cc:46-61 | whatever came before, a successful detach leaves the endpoint in a state the destructor accepts |

## Left out

- The lock (`base::AutoLock` on `lock_`). Each method is modelled as one atomic step on the object. Races between threads are not modelled.
- `Channel`, `MessagePipe` and `MessageInTransit` are not part of this model. The channel and the pipe are opaque classes that the endpoint only points at. The reference counting of the owning pipe is not modelled.
- The value of `kInvalidEndpointId` and the width of an endpoint id are defined in the message format, which is not part of this model. The invalid id is a constant with no given value, and an id is a `nat`.
- The destructor: Dafny objects have no destructor. Its checks are the predicate `CanDestroy`, which callers establish before they drop the endpoint.
- The state field: the operations never write it, and `Normal` is its only value here. No other states are invented.
- `DCHECK`s are compiled out of release builds. The model treats them as preconditions, which is what they assert of every caller.
