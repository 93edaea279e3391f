// Properties of the endpoint's lifecycle over whole sequences of calls:
// the invariant holds after every successful call, ids stay fixed until the
// next detach, misuse is rejected, and the attach/run/detach round trip.

module EndpointLifecycle {
  import opened Collaborators
  import opened EndpointState

  /** Running a sequence and then one more call is running the sequence and
      applying the call to its result. */
  lemma {:induction false} ReplayAppend(b: Binding, calls: seq<Call>, call: Call)
    ensures Replay(b, calls + [call]) ==
              match Replay(b, calls)
              case Err(v) => Err(v)
              case Ok(last) => Apply(last, call)
    decreases |calls|
  {
    if calls == [] {
      assert calls + [call] == [call];
    } else {
      assert (calls + [call])[0] == calls[0];
      assert (calls + [call])[1..] == calls[1..] + [call];
      match Apply(b, calls[0])
      case Err(_) =>
      case Ok(next) => ReplayAppend(next, calls[1..], call);
    }
  }

  /** The invariant survives any sequence of calls that all succeed. */
  lemma {:induction false} ReplayKeepsConsistent(b: Binding, calls: seq<Call>)
    requires Consistent(b)
    ensures Replay(b, calls).Ok? ==> Consistent(Replay(b, calls).binding)
    decreases |calls|
  {
    if calls != [] {
      match Apply(b, calls[0])
      case Err(_) =>
      case Ok(next) => ReplayKeepsConsistent(next, calls[1..]);
    }
  }

  /** From construction on, the invariant holds after every successful call:
      each prefix of a call sequence is itself a call sequence. */
  lemma ConstructedEndpointStaysConsistent(calls: seq<Call>)
    ensures Replay(Unbound(), calls).Ok? ==> Consistent(Replay(Unbound(), calls).binding)
  {
    ReplayKeepsConsistent(Unbound(), calls);
  }

  /** Once attached, the channel and the local id stay what they are until a
      detach: no call but DetachFromChannel changes them. */
  lemma {:induction false} AttachmentFixedUntilDetach(b: Binding, calls: seq<Call>)
    requires b.channel != null
    requires forall i :: 0 <= i < |calls| ==> !calls[i].DetachCall?
    ensures Replay(b, calls).Ok? ==>
              Replay(b, calls).binding.channel == b.channel &&
              Replay(b, calls).binding.localId == b.localId
    decreases |calls|
  {
    if calls != [] {
      match Apply(b, calls[0])
      case Err(_) =>
      case Ok(next) =>
        assert next.channel == b.channel && next.localId == b.localId;
        AttachmentFixedUntilDetach(next, calls[1..]);
    }
  }

  /** Once run, the remote id stays what it is until a detach. */
  lemma {:induction false} RemoteIdFixedUntilDetach(b: Binding, calls: seq<Call>)
    requires b.remoteId != InvalidEndpointId
    requires forall i :: 0 <= i < |calls| ==> !calls[i].DetachCall?
    ensures Replay(b, calls).Ok? ==> Replay(b, calls).binding.remoteId == b.remoteId
    decreases |calls|
  {
    if calls != [] {
      match Apply(b, calls[0])
      case Err(_) =>
      case Ok(next) =>
        assert next.remoteId == b.remoteId;
        RemoteIdFixedUntilDetach(next, calls[1..]);
    }
  }

  /** Which calls each phase admits: only a well-formed attach when
      unattached, a well-formed run or a detach when attached, and only a
      detach when running. */
  lemma AdmittedCallsByPhase(b: Binding, call: Call)
    requires Consistent(b)
    ensures PhaseOf(b) == Unattached ==>
              (Admits(b, call) <==>
                 call.AttachCall? && call.channel != null && call.localId != InvalidEndpointId)
    ensures PhaseOf(b) == Attached ==>
              (Admits(b, call) <==>
                 (call.RunCall? && call.remoteId != InvalidEndpointId) || call.DetachCall?)
    ensures PhaseOf(b) == Running ==> (Admits(b, call) <==> call.DetachCall?)
  {
  }

  /** A call is admitted exactly when none of its checks fails. */
  lemma AdmitsIffNoViolation(b: Binding, call: Call)
    ensures Admits(b, call) <==> forall v :: !Violates(b, call, v)
  {
    if !Admits(b, call) {
      var v := Apply(b, call).violation;
      assert Violates(b, call, v);
    }
  }

  /** A second attach without a detach in between fails, whatever channel and
      id either attach names. */
  lemma DoubleAttachRejected(b: Binding, c1: Channel?, l1: EndpointId, c2: Channel?, l2: EndpointId)
    ensures Replay(b, [AttachCall(c1, l1), AttachCall(c2, l2)]).Err?
  {
  }

  /** Run on an endpoint that was never attached fails on the missing channel. */
  lemma RunBeforeAttachRejected(remoteId: EndpointId)
    requires remoteId != InvalidEndpointId
    ensures Replay(Unbound(), [RunCall(remoteId)]) == Err(ChannelNotSet)
  {
  }

  /** A second run without a detach in between fails, even with the same id. */
  lemma DoubleRunRejected(b: Binding, r1: EndpointId, r2: EndpointId)
    ensures Replay(b, [RunCall(r1), RunCall(r2)]).Err?
  {
  }

  /** Detaching an endpoint that is not attached fails on the missing channel. */
  lemma DetachUnattachedRejected(b: Binding)
    requires Consistent(b) && PhaseOf(b) == Unattached
    ensures Replay(b, [DetachCall]) == Err(ChannelNotSet)
  {
  }

  /** A second detach without an attach in between fails. */
  lemma DoubleDetachRejected(b: Binding)
    ensures Replay(b, [DetachCall, DetachCall]).Err?
  {
  }

  /** Attach then run records exactly the given channel and ids; a detach
      afterwards brings the endpoint back to the state it was constructed in,
      which the destructor accepts. */
  lemma AttachRunDetachRoundTrip(channel: Channel, localId: EndpointId, remoteId: EndpointId)
    requires localId != InvalidEndpointId && remoteId != InvalidEndpointId
    ensures Replay(Unbound(), [AttachCall(channel, localId), RunCall(remoteId)])
              == Ok(Binding(channel, localId, remoteId))
    ensures Replay(Unbound(), [AttachCall(channel, localId), RunCall(remoteId), DetachCall])
              == Ok(Unbound())
  {
    var attach, run := AttachCall(channel, localId), RunCall(remoteId);
    ReplayAppend(Unbound(), [attach], run);
    assert [attach] + [run] == [attach, run];
    ReplayAppend(Unbound(), [attach, run], DetachCall);
    assert [attach, run] + [DetachCall] == [attach, run, DetachCall];
  }

  /** Detach is allowed on an endpoint that was attached but never run. */
  lemma DetachWithoutRun(channel: Channel, localId: EndpointId)
    requires localId != InvalidEndpointId
    ensures Replay(Unbound(), [AttachCall(channel, localId), DetachCall]) == Ok(Unbound())
  {
    ReplayAppend(Unbound(), [AttachCall(channel, localId)], DetachCall);
    assert [AttachCall(channel, localId)] + [DetachCall] == [AttachCall(channel, localId), DetachCall];
  }

  /** Nothing forbids reuse: after a detach the endpoint can be attached
      again, to any channel and with any valid id. */
  lemma ReattachAfterDetach(b: Binding, channel: Channel, localId: EndpointId)
    requires CanDetach(b)
    requires localId != InvalidEndpointId
    ensures Replay(b, [DetachCall, AttachCall(channel, localId)])
              == Ok(Binding(channel, localId, InvalidEndpointId))
  {
    ReplayAppend(b, [DetachCall], AttachCall(channel, localId));
    assert [DetachCall] + [AttachCall(channel, localId)] == [DetachCall, AttachCall(channel, localId)];
  }

  /** Whatever happened before, a successful detach leaves the endpoint in a
      state the destructor accepts. */
  lemma DetachLeavesDestroyable(b: Binding, calls: seq<Call>)
    ensures Replay(b, calls + [DetachCall]).Ok? ==>
              Destroyable(Replay(b, calls + [DetachCall]).binding)
  {
    ReplayAppend(b, calls, DetachCall);
  }
}
