// One end of a message pipe as an object: the fields the endpoint's methods
// assign in place, the object invariant, and the three operations whose
// preconditions are the source's fatal checks. The endpoint's lock makes each
// method one atomic step on the object, which is how they are modelled here.

module ChannelEndpoints {
  import opened Collaborators
  import opened EndpointState

  /** The endpoint's state field. Normal is the only state the endpoint's
      operations ever give it. */
  datatype State = Normal

  class ChannelEndpoint {
    // Set once by the constructor and never written again.
    const state: State
    const messagePipe: MessagePipe
    const port: nat

    // The triple the lock guards.
    var channel: Channel?
    var localId: EndpointId
    var remoteId: EndpointId

    /** The triple as a value. */
    function Snapshot(): Binding
      reads this
    {
      Binding(channel, localId, remoteId)
    }

    ghost predicate Valid()
      reads this
    {
      (port == 0 || port == 1) && Consistent(Snapshot())
    }

    constructor (messagePipe: MessagePipe?, port: nat)
      requires messagePipe != null
      requires port == 0 || port == 1
      ensures Valid()
      ensures state == Normal && this.messagePipe == messagePipe && this.port == port
      ensures channel == null
      ensures localId == InvalidEndpointId && remoteId == InvalidEndpointId
      ensures Snapshot() == Unbound()
    {
      state := Normal;
      this.messagePipe := messagePipe;
      this.port := port;
      channel := null;
      localId := InvalidEndpointId;
      remoteId := InvalidEndpointId;
    }

    /** Attach to `channel` under the id the channel gave this endpoint. */
    method AttachToChannel(channel: Channel?, localId: EndpointId)
      requires Valid()
      requires CanAttach(Snapshot(), channel, localId)
      modifies this
      ensures Valid()
      ensures this.channel == channel && this.localId == localId
      ensures remoteId == old(remoteId)
      ensures Snapshot() == AfterAttach(old(Snapshot()), channel, localId)
      ensures PhaseOf(Snapshot()) == Attached
    {
      this.channel := channel;
      this.localId := localId;
    }

    /** Record the id of the peer endpoint, once the peer has answered. */
    method Run(remoteId: EndpointId)
      requires Valid()
      requires CanRun(Snapshot(), remoteId)
      modifies this
      ensures Valid()
      ensures this.remoteId == remoteId
      ensures channel == old(channel) && localId == old(localId)
      ensures Snapshot() == AfterRun(old(Snapshot()), remoteId)
      ensures PhaseOf(Snapshot()) == Running
    {
      this.remoteId := remoteId;
    }

    /** Leave the channel, from Attached or from Running. */
    method DetachFromChannel()
      requires Valid()
      requires CanDetach(Snapshot())
      modifies this
      ensures Valid()
      ensures channel == null
      ensures localId == InvalidEndpointId && remoteId == InvalidEndpointId
      ensures Snapshot() == AfterDetach(old(Snapshot()))
      ensures CanDestroy() && PhaseOf(Snapshot()) == Unattached
    {
      channel := null;
      localId := InvalidEndpointId;
      remoteId := InvalidEndpointId;
    }

    /** The destructor's checks: the endpoint has been fully detached. Of a
        valid endpoint that is the same as being unattached. */
    predicate CanDestroy()
      reads this
      ensures Valid() ==> (CanDestroy() <==> PhaseOf(Snapshot()) == Unattached)
    {
      Destroyable(Snapshot())
    }
  }

  /** An endpoint is constructed, attached, run and detached, and can then be
      destroyed; on the way it reports exactly the channel and ids it was given. */
  method AttachRunDetach(pipe: MessagePipe, channel: Channel, localId: EndpointId, remoteId: EndpointId)
    returns (running: Binding, destroyable: bool)
    requires localId != InvalidEndpointId && remoteId != InvalidEndpointId
    ensures running == Binding(channel, localId, remoteId)
    ensures destroyable
  {
    var endpoint := new ChannelEndpoint(pipe, 0);
    endpoint.AttachToChannel(channel, localId);
    endpoint.Run(remoteId);
    running := endpoint.Snapshot();
    endpoint.DetachFromChannel();
    destroyable := endpoint.CanDestroy();
  }
}
