/** The direct peer-to-peer transport of js/webrtc-handler.js: connectivity candidates are
    buffered until a remote description exists, then applied in arrival order; inbound
    messages are dispatched by type. `C` stands for an ICE candidate, `D` for a payload. */
module WebRtc {
  import opened Wrappers

  /** What the handler knows of its `RTCPeerConnection`: whether `setRemoteDescription`
      has completed, the candidates handed to `addIceCandidate`, in order, and whether
      `close` was called. */
  datatype PeerState<C> = PeerState(hasRemoteDescription: bool, applied: seq<C>, closed: bool)

  datatype ReadyState = Connecting | Open | Closing | Closed

  /** `JSON.stringify({type, data})` before serialisation. */
  datatype Envelope<D> = Envelope(kind: string, data: D)

  /** The signalling half of the handler's state. */
  datatype IceState<C> = IceState(peer: Option<PeerState<C>>, buffer: seq<C>)

  /** `initPeerConnection`: a fresh connection, replacing any previous one. */
  function WithNewPeer<C>(st: IceState<C>): (r: IceState<C>)
    ensures r.peer == Some(PeerState(false, [], false)) && r.buffer == st.buffer
  {
    st.(peer := Some(PeerState(false, [], false)))
  }

  /** `setRemoteDescription` followed by the drain of the buffer. */
  function Drained<C>(p: PeerState<C>, buffer: seq<C>): (r: PeerState<C>)
    ensures r.hasRemoteDescription && r.applied == p.applied + buffer && r.closed == p.closed
  {
    p.(hasRemoteDescription := true, applied := p.applied + buffer)
  }

  /** `addIceCandidate`: applied at once when the connection has a remote description,
      queued at the end of the buffer otherwise. */
  function AddCandidate<C>(st: IceState<C>, c: C): (r: IceState<C>)
    ensures st.peer.Some? && st.peer.value.hasRemoteDescription ==>
              r == st.(peer := Some(st.peer.value.(applied := st.peer.value.applied + [c])))
    ensures !(st.peer.Some? && st.peer.value.hasRemoteDescription) ==>
              r == st.(buffer := st.buffer + [c])
  {
    if st.peer.Some? && st.peer.value.hasRemoteDescription then
      st.(peer := Some(st.peer.value.(applied := st.peer.value.applied + [c])))
    else
      st.(buffer := st.buffer + [c])
  }

  /** `handleOffer`: a new connection takes the remote description and every buffered
      candidate, in order. */
  function AcceptOffer<C>(st: IceState<C>): (r: IceState<C>)
    ensures r.peer == Some(PeerState(true, st.buffer, false)) && r.buffer == []
  {
    assert [] + st.buffer == st.buffer;
    IceState(Some(Drained(PeerState(false, [], false), st.buffer)), [])
  }

  /** `handleAnswer`: `None` when there is no connection (`this.peerConnection` is null and
      the call throws before changing anything). */
  function AcceptAnswer<C>(st: IceState<C>): (r: Option<IceState<C>>)
    ensures st.peer.None? <==> r.None?
    ensures st.peer.Some? ==>
              r.value.buffer == [] && r.value.peer.Some? &&
              r.value.peer.value.hasRemoteDescription &&
              r.value.peer.value.applied == st.peer.value.applied + st.buffer
  {
    if st.peer.None? then None
    else Some(IceState(Some(Drained(st.peer.value, st.buffer)), []))
  }

  datatype SignalEvent<C> = CandidateArrived(c: C) | OfferCreated | OfferReceived | AnswerReceived

  /** The state after a signalling event; a failed `handleAnswer` changes nothing. */
  function Signal<C>(st: IceState<C>, e: SignalEvent<C>): IceState<C> {
    match e
    case CandidateArrived(c) => AddCandidate(st, c)
    case OfferCreated => WithNewPeer(st)
    case OfferReceived => AcceptOffer(st)
    case AnswerReceived => if st.peer.None? then st else AcceptAnswer(st).value
  }

  function SignalAll<C>(st: IceState<C>, es: seq<SignalEvent<C>>): IceState<C>
    decreases |es|
  {
    if es == [] then st else SignalAll(Signal(st, es[0]), es[1..])
  }

  /** Candidates are waiting only while there is no usable remote description. */
  ghost predicate WellBuffered<C>(st: IceState<C>) {
    st.peer.Some? && st.peer.value.hasRemoteDescription ==> st.buffer == []
  }

  /** Every candidate that has arrived, applied or still waiting, in order. */
  function Delivered<C>(st: IceState<C>): seq<C> {
    (if st.peer.Some? then st.peer.value.applied else []) + st.buffer
  }

  function CandidatesIn<C>(es: seq<SignalEvent<C>>): (cs: seq<C>)
    ensures |cs| <= |es|
    decreases |es|
  {
    if es == [] then []
    else (if es[0].CandidateArrived? then [es[0].c] else []) + CandidatesIn(es[1..])
  }

  /** Events that never replace the connection. */
  predicate NoNewConnection<C>(es: seq<SignalEvent<C>>) {
    forall i :: 0 <= i < |es| ==> es[i].CandidateArrived? || es[i].AnswerReceived?
  }

  lemma NoNewConnectionTail<C>(es: seq<SignalEvent<C>>)
    requires es != [] && NoNewConnection(es)
    ensures NoNewConnection(es[1..]) && (es[0].CandidateArrived? || es[0].AnswerReceived?)
  {
    forall i | 0 <= i < |es[1..]| ensures es[1..][i].CandidateArrived? || es[1..][i].AnswerReceived? {
      assert es[1..][i] == es[i + 1];
    }
  }

  /** One event keeps the buffering invariant. */
  lemma SignalKeepsBuffering<C>(st: IceState<C>, e: SignalEvent<C>)
    requires WellBuffered(st)
    ensures WellBuffered(Signal(st, e))
  {
  }

  /** One event on an existing connection that does not replace it. */
  lemma SignalDelivers<C>(st: IceState<C>, e: SignalEvent<C>)
    requires st.peer.Some? && WellBuffered(st) && (e.CandidateArrived? || e.AnswerReceived?)
    ensures Signal(st, e).peer.Some? && WellBuffered(Signal(st, e))
    ensures st.peer.value.hasRemoteDescription ==> Signal(st, e).peer.value.hasRemoteDescription
    ensures Delivered(Signal(st, e)) == Delivered(st) + (if e.CandidateArrived? then [e.c] else [])
  {
    var p := st.peer.value;
    if e.CandidateArrived? {
      if p.hasRemoteDescription {
        assert st.buffer == [];
        assert Delivered(Signal(st, e)) == p.applied + [e.c] + [];
      } else {
        assert Delivered(Signal(st, e)) == p.applied + (st.buffer + [e.c]);
      }
    } else {
      assert Delivered(Signal(st, e)) == (p.applied + st.buffer) + [];
    }
  }

  /** Over events that keep the connection, the buffering invariant and the remote
      description persist. */
  lemma {:induction false} BufferingPersists<C>(st: IceState<C>, es: seq<SignalEvent<C>>)
    requires st.peer.Some? && WellBuffered(st) && NoNewConnection(es)
    ensures SignalAll(st, es).peer.Some? && WellBuffered(SignalAll(st, es))
    ensures st.peer.value.hasRemoteDescription ==> SignalAll(st, es).peer.value.hasRemoteDescription
    decreases |es|
  {
    if es != [] {
      NoNewConnectionTail(es);
      SignalDelivers(st, es[0]);
      BufferingPersists(Signal(st, es[0]), es[1..]);
    }
  }

  /** On an existing connection, no candidate is lost, duplicated or reordered: everything
      that arrives ends up applied or buffered after what was there before. */
  lemma {:induction false} CandidatesKeepOrder<C>(st: IceState<C>, es: seq<SignalEvent<C>>)
    requires st.peer.Some? && WellBuffered(st) && NoNewConnection(es)
    ensures Delivered(SignalAll(st, es)) == Delivered(st) + CandidatesIn(es)
    decreases |es|
  {
    if es == [] {
      assert Delivered(st) + [] == Delivered(st);
    } else {
      var st1 := Signal(st, es[0]);
      SignalDelivers(st, es[0]);
      NoNewConnectionTail(es);
      CandidatesKeepOrder(st1, es[1..]);
      var head: seq<C> := if es[0].CandidateArrived? then [es[0].c] else [];
      assert CandidatesIn(es) == head + CandidatesIn(es[1..]);
      Regroup(Delivered(st), head, CandidatesIn(es[1..]), Delivered(st1), Delivered(SignalAll(st1, es[1..])));
    }
  }

  /** Appending in two steps is appending the two parts at once. */
  lemma Regroup<C>(a: seq<C>, h: seq<C>, t: seq<C>, mid: seq<C>, last: seq<C>)
    requires mid == a + h && last == mid + t
    ensures last == a + (h + t)
  {
  }

  /** A guest whose candidates arrive before the offer applies them all, in arrival order,
      when the offer comes; later candidates are applied directly. */
  lemma {:induction false} GuestAppliesInArrivalOrder<C>(before: seq<C>, after: seq<C>)
    ensures var st0 := SignalAll(IceState(None, []), Arrivals(before));
            var st1 := SignalAll(Signal(st0, OfferReceived), Arrivals(after));
            st1.buffer == [] && st1.peer.Some? && st1.peer.value.applied == before + after
  {
    NoPeerBuffers(IceState(None, []), before);
    var st0 := SignalAll(IceState(None, []), Arrivals(before));
    assert st0.buffer == before;
    var s := Signal(st0, OfferReceived);
    assert s.peer.value.applied == before && s.buffer == [];
    ArrivalsOnly(after);
    BufferingPersists(s, Arrivals(after));
    CandidatesKeepOrder(s, Arrivals(after));
    var st1 := SignalAll(s, Arrivals(after));
    assert Delivered(s) == before;
    assert Delivered(st1) == st1.peer.value.applied + [];
  }

  function Arrivals<C>(cs: seq<C>): (es: seq<SignalEvent<C>>)
    ensures |es| == |cs|
    ensures forall i :: 0 <= i < |cs| ==> es[i] == CandidateArrived(cs[i])
  {
    if cs == [] then [] else [CandidateArrived(cs[0])] + Arrivals(cs[1..])
  }

  lemma {:induction false} ArrivalsOnly<C>(cs: seq<C>)
    ensures NoNewConnection(Arrivals(cs))
    ensures CandidatesIn(Arrivals(cs)) == cs
    decreases |cs|
  {
    if cs != [] {
      ArrivalsOnly(cs[1..]);
      assert Arrivals(cs)[1..] == Arrivals(cs[1..]);
    }
  }

  /** With no connection, arriving candidates just queue up. */
  lemma {:induction false} NoPeerBuffers<C>(st: IceState<C>, cs: seq<C>)
    requires st.peer.None?
    ensures SignalAll(st, Arrivals(cs)) == st.(buffer := st.buffer + cs)
    decreases |cs|
  {
    if cs == [] {
      assert st.buffer + cs == st.buffer;
    } else {
      assert Arrivals(cs)[1..] == Arrivals(cs[1..]);
      var st1 := AddCandidate(st, cs[0]);
      NoPeerBuffers(st1, cs[1..]);
      assert st1.buffer + cs[1..] == st.buffer + cs;
    }
  }

  /** `handleMessage`: which callback, if any, receives the payload. */
  datatype Dispatch = ToPlayerUpdate | ToPlayerFire | Ignored

  function DispatchOf(kind: string, hasOnPlayerUpdate: bool, hasOnPlayerFire: bool): (r: Dispatch)
    ensures r == ToPlayerUpdate <==> kind == "position" && hasOnPlayerUpdate
    ensures r == ToPlayerFire <==> kind == "fire" && hasOnPlayerFire
  {
    if kind == "position" then (if hasOnPlayerUpdate then ToPlayerUpdate else Ignored)
    else if kind == "fire" then (if hasOnPlayerFire then ToPlayerFire else Ignored)
    else Ignored
  }

  class WebRTCHandler<C, D> {
    const roomId: string
    const playerName: string
    const isHost: bool
    var peer: Option<PeerState<C>>
    /** `dataChannel` and its `readyState`. */
    var dataChannel: Option<ReadyState>
    var iceCandidatesBuffer: seq<C>
    var hasOnPlayerUpdate: bool
    var hasOnPlayerFire: bool
    var hasOnConnectionStateChange: bool
    /** Calls of `dataChannel.send`, of `onPlayerUpdate`, of `onPlayerFire` and of
        `onConnectionStateChange`, in order. */
    var sent: seq<Envelope<D>>
    var playerUpdates: seq<D>
    var playerFires: seq<D>
    var stateReports: seq<string>

    ghost function Ice(): IceState<C>
      reads this
    {
      IceState(peer, iceCandidatesBuffer)
    }

    constructor (roomId: string, playerName: string, isHost: bool)
      ensures this.roomId == roomId && this.playerName == playerName && this.isHost == isHost
      ensures Ice() == IceState(None, []) && dataChannel.None?
      ensures !hasOnPlayerUpdate && !hasOnPlayerFire && !hasOnConnectionStateChange
      ensures sent == [] && playerUpdates == [] && playerFires == [] && stateReports == []
    {
      this.roomId := roomId;
      this.playerName := playerName;
      this.isHost := isHost;
      peer := None;
      dataChannel := None;
      iceCandidatesBuffer := [];
      hasOnPlayerUpdate, hasOnPlayerFire, hasOnConnectionStateChange := false, false, false;
      sent, playerUpdates, playerFires, stateReports := [], [], [], [];
    }

    /** Registering or clearing the three callbacks. */
    method SetCallbacks(onPlayerUpdate: bool, onPlayerFire: bool, onConnectionStateChange: bool)
      modifies this
      ensures hasOnPlayerUpdate == onPlayerUpdate && hasOnPlayerFire == onPlayerFire
      ensures hasOnConnectionStateChange == onConnectionStateChange
      ensures Ice() == old(Ice()) && dataChannel == old(dataChannel)
      ensures sent == old(sent) && playerUpdates == old(playerUpdates)
      ensures playerFires == old(playerFires) && stateReports == old(stateReports)
    {
      hasOnPlayerUpdate, hasOnPlayerFire, hasOnConnectionStateChange := onPlayerUpdate, onPlayerFire, onConnectionStateChange;
    }

    method InitPeerConnection()
      modifies this
      ensures Ice() == WithNewPeer(old(Ice()))
      ensures dataChannel == old(dataChannel)
      ensures unchanged(this`sent, this`playerUpdates, this`playerFires, this`stateReports)
    {
      peer := Some(PeerState(false, [], false));
    }

    /** `createOffer` on the host: a new connection and the host's own data channel. */
    method CreateOffer()
      modifies this
      ensures Ice() == WithNewPeer(old(Ice()))
      ensures dataChannel == Some(Connecting)
      ensures unchanged(this`sent, this`playerUpdates, this`playerFires, this`stateReports)
    {
      InitPeerConnection();
      dataChannel := Some(Connecting);
    }

    /** `ondatachannel` on the guest: the channel the host opened. */
    method OnDataChannel(readyState: ReadyState)
      modifies this
      ensures dataChannel == Some(readyState) && Ice() == old(Ice())
      ensures unchanged(this`sent, this`playerUpdates, this`playerFires, this`stateReports)
    {
      dataChannel := Some(readyState);
    }

    /** The drain loop shared by `handleOffer` and `handleAnswer`. */
    method DrainBuffer()
      requires peer.Some?
      modifies this
      ensures peer == Some(Drained(old(peer.value), old(iceCandidatesBuffer)))
      ensures iceCandidatesBuffer == []
      ensures dataChannel == old(dataChannel)
      ensures unchanged(this`sent, this`playerUpdates, this`playerFires, this`stateReports)
    {
      var p := peer.value.(hasRemoteDescription := true);
      var buffer := iceCandidatesBuffer;
      for i := 0 to |buffer|
        invariant p == old(peer.value).(hasRemoteDescription := true, applied := old(peer.value).applied + buffer[..i])
      {
        p := p.(applied := p.applied + [buffer[i]]);
        assert buffer[..i + 1] == buffer[..i] + [buffer[i]];
      }
      assert buffer[..|buffer|] == buffer;
      peer := Some(p);
      iceCandidatesBuffer := [];
    }

    method HandleOffer()
      modifies this
      ensures Ice() == AcceptOffer(old(Ice()))
      ensures dataChannel == old(dataChannel)
      ensures unchanged(this`sent, this`playerUpdates, this`playerFires, this`stateReports)
    {
      InitPeerConnection();
      DrainBuffer();
    }

    /** `handleAnswer`; `failed` is the rejection when no connection exists. */
    method HandleAnswer() returns (failed: bool)
      modifies this
      ensures failed <==> AcceptAnswer(old(Ice())).None?
      ensures !failed ==> Ice() == AcceptAnswer(old(Ice())).value
      ensures failed ==> Ice() == old(Ice())
      ensures dataChannel == old(dataChannel)
      ensures unchanged(this`sent, this`playerUpdates, this`playerFires, this`stateReports)
    {
      if peer.None? {
        return true;
      }
      DrainBuffer();
      failed := false;
    }

    method AddIceCandidate(candidate: C)
      modifies this
      ensures Ice() == AddCandidate(old(Ice()), candidate)
      ensures dataChannel == old(dataChannel)
      ensures unchanged(this`sent, this`playerUpdates, this`playerFires, this`stateReports)
    {
      if peer.Some? && peer.value.hasRemoteDescription {
        peer := Some(peer.value.(applied := peer.value.applied + [candidate]));
      } else {
        iceCandidatesBuffer := iceCandidatesBuffer + [candidate];
      }
    }

    /** `onopen`: the channel is open and `'connected'` is reported. */
    method OnChannelOpen()
      requires dataChannel.Some?
      modifies this
      ensures dataChannel == Some(Open) && Ice() == old(Ice())
      ensures stateReports == old(stateReports) + (if hasOnConnectionStateChange then ["connected"] else [])
      ensures unchanged(this`sent, this`playerUpdates, this`playerFires)
    {
      dataChannel := Some(Open);
      if hasOnConnectionStateChange {
        stateReports := stateReports + ["connected"];
      }
    }

    /** `onclose`: the channel is closed and `'disconnected'` is reported. */
    method OnChannelClose()
      requires dataChannel.Some?
      modifies this
      ensures dataChannel == Some(Closed) && Ice() == old(Ice())
      ensures stateReports == old(stateReports) + (if hasOnConnectionStateChange then ["disconnected"] else [])
      ensures unchanged(this`sent, this`playerUpdates, this`playerFires)
    {
      dataChannel := Some(Closed);
      if hasOnConnectionStateChange {
        stateReports := stateReports + ["disconnected"];
      }
    }

    method HandleMessage(message: Envelope<D>)
      modifies this
      ensures DispatchOf(message.kind, hasOnPlayerUpdate, hasOnPlayerFire) == ToPlayerUpdate ==>
                playerUpdates == old(playerUpdates) + [message.data] && playerFires == old(playerFires)
      ensures DispatchOf(message.kind, hasOnPlayerUpdate, hasOnPlayerFire) == ToPlayerFire ==>
                playerFires == old(playerFires) + [message.data] && playerUpdates == old(playerUpdates)
      ensures DispatchOf(message.kind, hasOnPlayerUpdate, hasOnPlayerFire) == Ignored ==>
                playerUpdates == old(playerUpdates) && playerFires == old(playerFires)
      ensures Ice() == old(Ice()) && dataChannel == old(dataChannel)
      ensures unchanged(this`sent, this`stateReports)
    {
      if message.kind == "position" {
        if hasOnPlayerUpdate {
          playerUpdates := playerUpdates + [message.data];
        }
      } else if message.kind == "fire" {
        if hasOnPlayerFire {
          playerFires := playerFires + [message.data];
        }
      }
    }

    /** `onmessage`: `parsed` is the result of `JSON.parse`, `None` when it throws, in which
        case the message is dropped. */
    method OnChannelMessage(parsed: Option<Envelope<D>>)
      modifies this
      ensures parsed.None? ==> playerUpdates == old(playerUpdates) && playerFires == old(playerFires)
      ensures parsed.Some? && DispatchOf(parsed.value.kind, hasOnPlayerUpdate, hasOnPlayerFire) == ToPlayerUpdate ==>
                playerUpdates == old(playerUpdates) + [parsed.value.data] && playerFires == old(playerFires)
      ensures parsed.Some? && DispatchOf(parsed.value.kind, hasOnPlayerUpdate, hasOnPlayerFire) == ToPlayerFire ==>
                playerFires == old(playerFires) + [parsed.value.data] && playerUpdates == old(playerUpdates)
      ensures parsed.Some? && DispatchOf(parsed.value.kind, hasOnPlayerUpdate, hasOnPlayerFire) == Ignored ==>
                playerUpdates == old(playerUpdates) && playerFires == old(playerFires)
      ensures Ice() == old(Ice()) && dataChannel == old(dataChannel)
      ensures unchanged(this`sent, this`stateReports)
    {
      if parsed.Some? {
        HandleMessage(parsed.value);
      }
    }

    method SendPosition(data: D)
      modifies this
      ensures sent == old(sent) + (if dataChannel == Some(Open) then [Envelope("position", data)] else [])
      ensures Ice() == old(Ice()) && dataChannel == old(dataChannel)
      ensures unchanged(this`playerUpdates, this`playerFires, this`stateReports)
    {
      if dataChannel == Some(Open) {
        sent := sent + [Envelope("position", data)];
      }
    }

    method SendFire(data: D)
      modifies this
      ensures sent == old(sent) + (if dataChannel == Some(Open) then [Envelope("fire", data)] else [])
      ensures Ice() == old(Ice()) && dataChannel == old(dataChannel)
      ensures unchanged(this`playerUpdates, this`playerFires, this`stateReports)
    {
      if dataChannel == Some(Open) {
        sent := sent + [Envelope("fire", data)];
      }
    }

    /** `close`: closes the channel and the connection when they exist; the buffer is kept. */
    method Close()
      modifies this
      ensures dataChannel == (if old(dataChannel).Some? then Some(Closed) else None)
      ensures peer == (if old(peer).Some? then Some(old(peer).value.(closed := true)) else None)
      ensures iceCandidatesBuffer == old(iceCandidatesBuffer)
      ensures unchanged(this`sent, this`playerUpdates, this`playerFires, this`stateReports)
    {
      if dataChannel.Some? {
        dataChannel := Some(Closed);
      }
      if peer.Some? {
        peer := Some(peer.value.(closed := true));
      }
    }
  }
}
