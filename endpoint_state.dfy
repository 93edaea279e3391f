// The state of one end of a message pipe with respect to the channel that
// multiplexes it, taken as a value: the triple (channel, local id, remote id)
// that the endpoint's lock guards as one unit, the checks each operation
// makes before it touches the triple, and the operations as transitions.

/** The collaborators the endpoint only points at. Their behaviour is not part
    of this model: the endpoint stores references to them and never calls them. */
module Collaborators {

  /** The channel that multiplexes many endpoints over one connection.
      The endpoint holds a non-owning reference to it while attached. */
  class Channel { }

  /** The message pipe that owns the endpoint. */
  class MessagePipe { }
}

module EndpointState {
  import opened Collaborators

  /** An endpoint identifier, unsigned. Its width is fixed by the message
      format, which is not part of this model. */
  type EndpointId = nat

  /** The reserved identifier meaning "no id assigned". Its concrete value
      belongs to the message format; the model only uses that it is one
      fixed identifier, so it is left without a value. */
  const InvalidEndpointId: EndpointId

  /** The lock-guarded triple: the channel the endpoint is attached to
      (null when detached), the id the local channel gave it, and the id
      of the peer endpoint on the other side of the channel. */
  datatype Binding = Binding(channel: Channel?, localId: EndpointId, remoteId: EndpointId)

  /** Where an endpoint is in its lifecycle, read off its triple. */
  datatype Phase = Unattached | Attached | Running

  /** A call into the endpoint, with its arguments. */
  datatype Call =
    | AttachCall(channel: Channel?, localId: EndpointId)
    | RunCall(remoteId: EndpointId)
    | DetachCall

  /** The check that a call fails; one constructor per fatal check of the
      source, named after what it found. */
  datatype Violation =
    | NullChannel         // AttachToChannel given a null channel
    | InvalidLocalId      // AttachToChannel given the invalid id
    | ChannelAlreadySet   // AttachToChannel on an endpoint that has a channel
    | LocalIdAlreadySet   // AttachToChannel on an endpoint that has a local id
    | InvalidRemoteId     // Run given the invalid id
    | ChannelNotSet       // Run or DetachFromChannel on an endpoint without a channel
    | RemoteIdAlreadySet  // Run on an endpoint that already has a remote id
    | LocalIdNotSet       // DetachFromChannel on an endpoint without a local id

  /** The result of a call: the new triple, or the check that failed. */
  datatype Outcome = Ok(binding: Binding) | Err(violation: Violation)

  /** The invariant of the triple: a channel is set exactly when the local id
      is valid, and a valid remote id implies the endpoint is attached. */
  predicate Consistent(b: Binding) {
    && (b.channel != null <==> b.localId != InvalidEndpointId)
    && (b.remoteId != InvalidEndpointId ==> b.channel != null)
  }

  function PhaseOf(b: Binding): Phase {
    if b.channel == null then Unattached
    else if b.remoteId == InvalidEndpointId then Attached
    else Running
  }

  /** The triple of a freshly constructed endpoint. */
  function Unbound(): (b: Binding)
    ensures Consistent(b) && PhaseOf(b) == Unattached && Destroyable(b)
  {
    Binding(null, InvalidEndpointId, InvalidEndpointId)
  }

  /** The checks AttachToChannel makes. */
  predicate CanAttach(b: Binding, channel: Channel?, localId: EndpointId) {
    && channel != null
    && localId != InvalidEndpointId
    && b.channel == null
    && b.localId == InvalidEndpointId
  }

  /** The checks Run makes. */
  predicate CanRun(b: Binding, remoteId: EndpointId) {
    && remoteId != InvalidEndpointId
    && b.channel != null
    && b.remoteId == InvalidEndpointId
  }

  /** The checks DetachFromChannel makes; the remote id may still be invalid. */
  predicate CanDetach(b: Binding) {
    b.channel != null && b.localId != InvalidEndpointId
  }

  /** The checks the destructor makes: fully detached. */
  predicate Destroyable(b: Binding) {
    && b.channel == null
    && b.localId == InvalidEndpointId
    && b.remoteId == InvalidEndpointId
  }

  predicate Admits(b: Binding, call: Call) {
    match call
    case AttachCall(channel, localId) => CanAttach(b, channel, localId)
    case RunCall(remoteId) => CanRun(b, remoteId)
    case DetachCall => CanDetach(b)
  }

  /** Whether `v` names a check that `call` really fails on `b`. */
  predicate Violates(b: Binding, call: Call, v: Violation) {
    match v
    case NullChannel => call.AttachCall? && call.channel == null
    case InvalidLocalId => call.AttachCall? && call.localId == InvalidEndpointId
    case ChannelAlreadySet => call.AttachCall? && b.channel != null
    case LocalIdAlreadySet => call.AttachCall? && b.localId != InvalidEndpointId
    case InvalidRemoteId => call.RunCall? && call.remoteId == InvalidEndpointId
    case ChannelNotSet => (call.RunCall? || call.DetachCall?) && b.channel == null
    case RemoteIdAlreadySet => call.RunCall? && b.remoteId != InvalidEndpointId
    case LocalIdNotSet => call.DetachCall? && b.localId == InvalidEndpointId
  }

  /** Whether every check that the source makes before the check `v` passes,
      so that `v` is the first check of `call` that can fail. */
  predicate EarlierChecksPass(b: Binding, call: Call, v: Violation) {
    match v
    case NullChannel => true
    case InvalidLocalId => call.AttachCall? && call.channel != null
    case ChannelAlreadySet =>
      call.AttachCall? && call.channel != null && call.localId != InvalidEndpointId
    case LocalIdAlreadySet =>
      call.AttachCall? && call.channel != null && call.localId != InvalidEndpointId &&
      b.channel == null
    case InvalidRemoteId => true
    case ChannelNotSet => call.RunCall? ==> call.remoteId != InvalidEndpointId
    case RemoteIdAlreadySet =>
      call.RunCall? && call.remoteId != InvalidEndpointId && b.channel != null
    case LocalIdNotSet => call.DetachCall? && b.channel != null
  }

  /** The lifecycle edges: attach leaves Unattached for Attached, run leaves
      Attached for Running, detach returns from Attached or Running. */
  predicate Step(from: Phase, call: Call, to: Phase) {
    match call
    case AttachCall(_, _) => from == Unattached && to == Attached
    case RunCall(_) => from == Attached && to == Running
    case DetachCall => from != Unattached && to == Unattached
  }

  /** AttachToChannel: record the channel and the local id. */
  function AfterAttach(b: Binding, channel: Channel?, localId: EndpointId): (r: Binding)
    requires CanAttach(b, channel, localId)
    ensures Consistent(r) && CanDetach(r)
    ensures Consistent(b) ==> Step(PhaseOf(b), AttachCall(channel, localId), PhaseOf(r))
  {
    b.(channel := channel, localId := localId)
  }

  /** Run: record the remote id. */
  function AfterRun(b: Binding, remoteId: EndpointId): (r: Binding)
    requires CanRun(b, remoteId)
    ensures Consistent(b) ==> Consistent(r) && Step(PhaseOf(b), RunCall(remoteId), PhaseOf(r))
    ensures CanDetach(b) ==> CanDetach(r)
  {
    b.(remoteId := remoteId)
  }

  /** DetachFromChannel: drop the channel and invalidate both ids. */
  function AfterDetach(b: Binding): (r: Binding)
    requires CanDetach(b)
    ensures Consistent(r) && Destroyable(r)
    ensures Step(PhaseOf(b), DetachCall, PhaseOf(r))
  {
    Unbound()
  }

  /** A call as a total function: the checks are made in the order the
      source makes them, and the first that fails is reported. */
  function Apply(b: Binding, call: Call): (r: Outcome)
    ensures r.Ok? <==> Admits(b, call)
    ensures r.Err? ==> Violates(b, call, r.violation) && EarlierChecksPass(b, call, r.violation)
    ensures r.Ok? && Consistent(b) ==>
              Consistent(r.binding) && Step(PhaseOf(b), call, PhaseOf(r.binding))
  {
    match call
    case AttachCall(channel, localId) =>
      if channel == null then Err(NullChannel)
      else if localId == InvalidEndpointId then Err(InvalidLocalId)
      else if b.channel != null then Err(ChannelAlreadySet)
      else if b.localId != InvalidEndpointId then Err(LocalIdAlreadySet)
      else Ok(AfterAttach(b, channel, localId))
    case RunCall(remoteId) =>
      if remoteId == InvalidEndpointId then Err(InvalidRemoteId)
      else if b.channel == null then Err(ChannelNotSet)
      else if b.remoteId != InvalidEndpointId then Err(RemoteIdAlreadySet)
      else Ok(AfterRun(b, remoteId))
    case DetachCall =>
      if b.channel == null then Err(ChannelNotSet)
      else if b.localId == InvalidEndpointId then Err(LocalIdNotSet)
      else Ok(AfterDetach(b))
  }

  /** A sequence of calls, stopping at the first that fails. */
  function Replay(b: Binding, calls: seq<Call>): Outcome
    decreases |calls|
  {
    if calls == [] then Ok(b)
    else match Apply(b, calls[0])
      case Err(v) => Err(v)
      case Ok(next) => Replay(next, calls[1..])
  }
}
