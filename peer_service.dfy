/** The two-party session manager (services/peerService.ts).

    PeerJS is abstracted: the manager keeps a registry of every Peer object it constructed
    (`peers`) and of every DataConnection it was handed (`conns`); `peer` and `connection` are
    the two nullable fields of the class, as indices into those registries. PeerJS delivers
    its events one at a time; each event is a method below, addressed to the object whose
    handler runs. No event is refused: the source registers its handlers without any guard. */
module PeerService {
  import opened Types

  /** The id the first client of a room registers as host. */
  function HostId(roomID: string): (id: string)
    ensures |id| == |roomID| + 8 && id[..|roomID|] == roomID
  {
    roomID + "-ghost-1"
  }

  /** The id a client registers once the host id is taken. */
  function GuestId(roomID: string): (id: string)
    ensures |id| == |roomID| + 8 && id[..|roomID|] == roomID
  {
    roomID + "-ghost-2"
  }

  /** No room's host id is any room's guest id: the two ids differ in their last character. */
  lemma {:induction false} HostIdIsNeverAGuestId(a: string, b: string)
    ensures HostId(a) != GuestId(b)
  {
    if |a| == |b| {
      assert HostId(a)[|a| + 7] == '1';
      assert GuestId(b)[|b| + 7] == '2';
    }
  }

  /** Different rooms give different host ids (and different guest ids). */
  lemma {:induction false} IdsDetermineTheRoom(a: string, b: string)
    ensures HostId(a) == HostId(b) ==> a == b
    ensures GuestId(a) == GuestId(b) ==> a == b
  {
    if HostId(a) == HostId(b) {
      assert a == HostId(a)[..|a|] == HostId(b)[..|b|] == b;
    }
    if GuestId(a) == GuestId(b) {
      assert a == GuestId(a)[..|a|] == GuestId(b)[..|b|] == b;
    }
  }

  /** Which set of handlers a Peer object carries: those of `init` or those of `startAsGuest`. */
  datatype Role = Host | Guest

  /** A Peer object: the room its handlers captured, and whether `destroy()` was called on it. */
  datatype PeerObj = PeerObj(role: Role, room: string, destroyed: bool)
  {
    /** The id it was constructed with. */
    function Id(): string
    {
      if role == Host then HostId(room) else GuestId(room)
    }
  }

  /** Where a DataConnection came from: an inbound `connection` event on peer `at`, or
      `this.peer.connect(target)` on peer `via`, issued by the `open` handler of guest peer `dialler`. */
  datatype Origin = Inbound(at: nat) | Dialled(dialler: nat, via: nat, target: string)

  /** A DataConnection: its `open` flag, whether `handleConnection` registered handlers on it,
      and whether `close()` was called on it. */
  datatype ConnObj = ConnObj(origin: Origin, open: bool, handlers: bool, closeRequested: bool)

  /** A call of one of the two callbacks given to the constructor. */
  datatype Callback = OnStatusChange(status: ConnectionStatus) | OnMessageReceived(data: Datum)

  /** A call of `connection.send(data)` on connection `conn`. */
  datatype Transmission = Transmission(conn: nat, data: Datum)

  /** An event delivered by PeerJS: on peer `p` or on connection `c`. */
  datatype Event =
    | PeerOpen(p: nat)
    | PeerConnection(p: nat)
    | PeerError(p: nat, errType: string)
    | ConnOpen(c: nat)
    | ConnData(c: nat, data: Datum)
    | ConnClose(c: nat)
    | ConnError(c: nat)

  /** The PeerJS error type that means the requested id is already registered. */
  const UnavailableId := "unavailable-id"

  class PeerManager {
    /** this.peer */
    var peer: Option<nat>
    /** this.connection */
    var connection: Option<nat>
    /** Every Peer object constructed by this manager, in order. */
    var peers: seq<PeerObj>
    /** Every DataConnection given to `handleConnection`, in order. */
    var conns: seq<ConnObj>
    /** Every call of onStatusChange and onMessageReceived, in order. */
    var calls: seq<Callback>
    /** Every call of `connection.send`, in order. */
    var sent: seq<Transmission>

    ghost predicate OriginValid(o: Origin)
      reads this
    {
      match o
      case Inbound(at) => at < |peers|
      case Dialled(dialler, via, target) =>
        dialler < |peers| && via < |peers| && peers[dialler].role == Guest && target == HostId(peers[dialler].room)
    }

    /** The invariant: the fields point into the registries, the current peer has not been
        destroyed, the current connection carries handlers, every dial targets the host id of
        the room captured by the guest that issued it, and the first callback of all is the
        'connecting' status reported by `init`. */
    ghost predicate Valid()
      reads this
    {
      && (peer.Some? ==> peer.value < |peers| && !peers[peer.value].destroyed)
      && (connection.Some? ==> connection.value < |conns| && conns[connection.value].handlers)
      && (forall c :: 0 <= c < |conns| ==> OriginValid(conns[c].origin))
      && (forall t :: 0 <= t < |sent| ==> sent[t].conn < |conns|)
      && (peers == [] ==> conns == [] && calls == [] && sent == [])
      && (peers != [] ==> calls != [] && calls[0] == OnStatusChange(Connecting))
    }

    /** The guard of `send` and of `handleConnection`: the current connection reports open. */
    predicate Occupied()
      reads this
    {
      connection.Some? && connection.value < |conns| && conns[connection.value].open
    }

    constructor ()
      ensures Valid()
      ensures peer == None && connection == None
      ensures peers == [] && conns == [] && calls == [] && sent == []
    {
      peer, connection := None, None;
      peers, conns, calls, sent := [], [], [], [];
    }

    /** Reports 'connecting', then constructs a Peer with the host id of the room. */
    method Init(roomID: string) returns (fired: seq<Callback>)
      requires Valid()
      modifies this
      ensures Valid()
      ensures fired == [OnStatusChange(Connecting)] && calls == old(calls) + fired
      ensures peers == old(peers) + [PeerObj(Host, roomID, false)] && peer == Some(|old(peers)|)
      ensures peers[|old(peers)|].Id() == HostId(roomID)
      ensures connection == old(connection) && conns == old(conns) && sent == old(sent)
    {
      fired := [OnStatusChange(Connecting)];
      calls := calls + fired;
      peers := peers + [PeerObj(Host, roomID, false)];
      peer := Some(|peers| - 1);
    }

    /** Constructs the guest Peer: its `open` handler will dial the host id of `roomID`. */
    method StartAsGuest(roomID: string)
      requires Valid() && peers != []
      modifies this
      ensures Valid()
      ensures peers == old(peers) + [PeerObj(Guest, roomID, false)] && peer == Some(|old(peers)|)
      ensures connection == old(connection) && conns == old(conns)
      ensures calls == old(calls) && sent == old(sent)
    {
      peers := peers + [PeerObj(Guest, roomID, false)];
      peer := Some(|peers| - 1);
    }

    /** Hands a fresh connection `c` to the arbiter: it is kept, and given handlers, unless
        the current connection is open. */
    method HandleConnection(c: nat)
      requires Valid() && c < |conns| && !conns[c].handlers
      modifies this
      ensures Valid()
      ensures old(Occupied()) ==> connection == old(connection) && conns == old(conns)
      ensures !old(Occupied()) ==>
        connection == Some(c) && conns == old(conns)[c := old(conns)[c].(handlers := true)]
      ensures peer == old(peer) && peers == old(peers)
      ensures calls == old(calls) && sent == old(sent)
    {
      if connection.Some? && conns[connection.value].open {
        return;
      }
      connection := Some(c);
      conns := conns[c := conns[c].(handlers := true)];
    }

    /** Dials `target` from the current peer, on behalf of guest peer `dialler`, and hands the new
        connection to HandleConnection; with no current peer it does nothing. */
    method ConnectToPartner(dialler: nat, target: string)
      requires Valid() && dialler < |peers| && peers[dialler].role == Guest && target == HostId(peers[dialler].room)
      modifies this
      ensures Valid()
      ensures old(peer) == None ==> conns == old(conns) && connection == old(connection)
      ensures old(peer).Some? ==>
        && conns == old(conns) + [ConnObj(Dialled(dialler, old(peer).value, target), false, !old(Occupied()), false)]
        && connection == (if old(Occupied()) then old(connection) else Some(|old(conns)|))
      ensures peer == old(peer) && peers == old(peers)
      ensures calls == old(calls) && sent == old(sent)
    {
      if peer == None {
        return;
      }
      conns := conns + [ConnObj(Dialled(dialler, peer.value, target), false, false, false)];
      HandleConnection(|conns| - 1);
    }

    /** `open` on peer p: the host only logs; a guest dials the host id of its room. */
    method OnPeerOpen(p: nat) returns (fired: seq<Callback>)
      requires Valid() && p < |peers|
      modifies this
      ensures Valid() && fired == [] && calls == old(calls)
      ensures peers == old(peers) && peer == old(peer) && sent == old(sent)
      ensures (old(peers)[p].role == Host || old(peer) == None) ==>
        conns == old(conns) && connection == old(connection)
      ensures old(peers)[p].role == Guest && old(peer).Some? ==>
        && conns == old(conns) + [ConnObj(Dialled(p, old(peer).value, HostId(old(peers)[p].room)), false, !old(Occupied()), false)]
        && connection == (if old(Occupied()) then old(connection) else Some(|old(conns)|))
    {
      fired := [];
      if peers[p].role == Guest {
        ConnectToPartner(p, HostId(peers[p].room));
      }
    }

    /** `connection` on peer p (host or guest): the inbound connection goes to HandleConnection. */
    method OnPeerConnection(p: nat) returns (fired: seq<Callback>)
      requires Valid() && p < |peers|
      modifies this
      ensures Valid() && fired == [] && calls == old(calls)
      ensures peers == old(peers) && peer == old(peer) && sent == old(sent)
      ensures conns == old(conns) + [ConnObj(Inbound(p), false, !old(Occupied()), false)]
      ensures connection == (if old(Occupied()) then old(connection) else Some(|old(conns)|))
    {
      fired := [];
      conns := conns + [ConnObj(Inbound(p), false, false, false)];
      HandleConnection(|conns| - 1);
    }

    /** `error` on peer p. Only the host peer has an error handler, and only 'unavailable-id'
        changes anything: the current peer is destroyed and a guest peer for the same room
        takes its place. Every other error type, and every error on a guest peer, is ignored. */
    method OnPeerError(p: nat, errType: string) returns (fired: seq<Callback>)
      requires Valid() && p < |peers|
      modifies this
      ensures Valid() && fired == [] && calls == old(calls)
      ensures conns == old(conns) && connection == old(connection) && sent == old(sent)
      ensures !(old(peers)[p].role == Host && errType == UnavailableId) ==>
        peers == old(peers) && peer == old(peer)
      ensures old(peers)[p].role == Host && errType == UnavailableId ==>
        && peer == Some(|old(peers)|)
        && peers == (if old(peer).Some? then old(peers)[old(peer).value := old(peers)[old(peer).value].(destroyed := true)]
                     else old(peers)) + [PeerObj(Guest, old(peers)[p].room, false)]
    {
      fired := [];
      if peers[p].role == Host && errType == UnavailableId {
        if peer.Some? {
          peers := peers[peer.value := peers[peer.value].(destroyed := true)];
        }
        peer := None;
        StartAsGuest(peers[p].room);
      }
    }

    /** `open` on connection c: PeerJS sets its open flag; its handler, if any, reports 'connected'. */
    method OnConnOpen(c: nat) returns (fired: seq<Callback>)
      requires Valid() && c < |conns|
      modifies this
      ensures Valid()
      ensures fired == (if old(conns)[c].handlers then [OnStatusChange(Connected)] else [])
      ensures calls == old(calls) + fired
      ensures conns == old(conns)[c := old(conns)[c].(open := true)]
      ensures peer == old(peer) && peers == old(peers) && connection == old(connection) && sent == old(sent)
    {
      fired := if conns[c].handlers then [OnStatusChange(Connected)] else [];
      calls := calls + fired;
      conns := conns[c := conns[c].(open := true)];
    }

    /** `data` on connection c: its handler, if any, forwards the datum unchanged. */
    method OnConnData(c: nat, data: Datum) returns (fired: seq<Callback>)
      requires Valid() && c < |conns|
      modifies this
      ensures Valid()
      ensures fired == (if old(conns)[c].handlers then [OnMessageReceived(data)] else [])
      ensures calls == old(calls) + fired
      ensures peer == old(peer) && peers == old(peers) && connection == old(connection)
      ensures conns == old(conns) && sent == old(sent)
    {
      fired := if conns[c].handlers then [OnMessageReceived(data)] else [];
      calls := calls + fired;
    }

    /** `close` on connection c: PeerJS clears its open flag; its handler, if any, reports
        'connecting' again. */
    method OnConnClose(c: nat) returns (fired: seq<Callback>)
      requires Valid() && c < |conns|
      modifies this
      ensures Valid()
      ensures fired == (if old(conns)[c].handlers then [OnStatusChange(Connecting)] else [])
      ensures calls == old(calls) + fired
      ensures conns == old(conns)[c := old(conns)[c].(open := false)]
      ensures peer == old(peer) && peers == old(peers) && connection == old(connection) && sent == old(sent)
    {
      fired := if conns[c].handlers then [OnStatusChange(Connecting)] else [];
      calls := calls + fired;
      conns := conns[c := conns[c].(open := false)];
    }

    /** `error` on connection c: its handler, if any, reports 'error'. */
    method OnConnError(c: nat) returns (fired: seq<Callback>)
      requires Valid() && c < |conns|
      modifies this
      ensures Valid()
      ensures fired == (if old(conns)[c].handlers then [OnStatusChange(Error)] else [])
      ensures calls == old(calls) + fired
      ensures peer == old(peer) && peers == old(peers) && connection == old(connection)
      ensures conns == old(conns) && sent == old(sent)
    {
      fired := if conns[c].handlers then [OnStatusChange(Error)] else [];
      calls := calls + fired;
    }

    /** The event `ev` addresses an object that exists. */
    predicate Addresses(ev: Event)
      reads this
    {
      match ev
      case PeerOpen(p) => p < |peers|
      case PeerConnection(p) => p < |peers|
      case PeerError(p, _) => p < |peers|
      case ConnOpen(c) => c < |conns|
      case ConnData(c, _) => c < |conns|
      case ConnClose(c) => c < |conns|
      case ConnError(c) => c < |conns|
    }

    /** What PeerJS running the handler for `ev` leaves, relative to the state before, when
        that handler called the callbacks `fired`: each case is the new state its handler
        method states. */
    twostate predicate Handled(ev: Event, fired: seq<Callback>)
      reads this
    {
      && calls == old(calls) + fired && sent == old(sent)
      && match ev
         case PeerOpen(p) =>
           && p < |old(peers)| && fired == [] && peers == old(peers) && peer == old(peer)
           && ((old(peers)[p].role == Host || old(peer) == None) ==>
                 conns == old(conns) && connection == old(connection))
           && (old(peers)[p].role == Guest && old(peer).Some? ==>
                 && conns == old(conns) + [ConnObj(Dialled(p, old(peer).value, HostId(old(peers)[p].room)), false, !old(Occupied()), false)]
                 && connection == (if old(Occupied()) then old(connection) else Some(|old(conns)|)))
         case PeerConnection(p) =>
           && fired == [] && peers == old(peers) && peer == old(peer)
           && conns == old(conns) + [ConnObj(Inbound(p), false, !old(Occupied()), false)]
           && connection == (if old(Occupied()) then old(connection) else Some(|old(conns)|))
         case PeerError(p, errType) =>
           && p < |old(peers)| && fired == [] && conns == old(conns) && connection == old(connection)
           && (!(old(peers)[p].role == Host && errType == UnavailableId) ==>
                 peers == old(peers) && peer == old(peer))
           && (old(peers)[p].role == Host && errType == UnavailableId ==>
                 && peer == Some(|old(peers)|)
                 && peers == (if old(peer).Some? && old(peer).value < |old(peers)|
                              then old(peers)[old(peer).value := old(peers)[old(peer).value].(destroyed := true)]
                              else old(peers)) + [PeerObj(Guest, old(peers)[p].room, false)])
         case ConnOpen(c) =>
           && c < |old(conns)| && peer == old(peer) && peers == old(peers) && connection == old(connection)
           && fired == (if old(conns)[c].handlers then [OnStatusChange(Connected)] else [])
           && conns == old(conns)[c := old(conns)[c].(open := true)]
         case ConnData(c, data) =>
           && c < |old(conns)| && peer == old(peer) && peers == old(peers) && connection == old(connection)
           && fired == (if old(conns)[c].handlers then [OnMessageReceived(data)] else [])
           && conns == old(conns)
         case ConnClose(c) =>
           && c < |old(conns)| && peer == old(peer) && peers == old(peers) && connection == old(connection)
           && fired == (if old(conns)[c].handlers then [OnStatusChange(Connecting)] else [])
           && conns == old(conns)[c := old(conns)[c].(open := false)]
         case ConnError(c) =>
           && c < |old(conns)| && peer == old(peer) && peers == old(peers) && connection == old(connection)
           && fired == (if old(conns)[c].handlers then [OnStatusChange(Error)] else [])
           && conns == old(conns)
    }

    /** PeerJS runs the handler registered for `ev`: peer events never call a callback
        directly; a connection event calls one exactly when the connection carries handlers. */
    method Handle(ev: Event) returns (fired: seq<Callback>)
      requires Valid() && Addresses(ev)
      modifies this
      ensures Valid() && Handled(ev, fired)
    {
      match ev
      case PeerOpen(p) => fired := OnPeerOpen(p);
      case PeerConnection(p) => fired := OnPeerConnection(p);
      case PeerError(p, t) => fired := OnPeerError(p, t);
      case ConnOpen(c) => fired := OnConnOpen(c);
      case ConnData(c, d) => fired := OnConnData(c, d);
      case ConnClose(c) => fired := OnConnClose(c);
      case ConnError(c) => fired := OnConnError(c);
    }

    /** Transmits `data` on the current connection exactly when it is open, and says whether
        it did. */
    method Send(data: Datum) returns (ok: bool)
      requires Valid()
      modifies this
      ensures Valid()
      ensures ok == old(Occupied())
      ensures sent == if ok then old(sent) + [Transmission(old(connection).value, data)] else old(sent)
      ensures peer == old(peer) && connection == old(connection)
      ensures peers == old(peers) && conns == old(conns) && calls == old(calls)
    {
      ok := connection.Some? && conns[connection.value].open;
      if ok {
        sent := sent + [Transmission(connection.value, data)];
      }
    }

    /** The state `destroy` leaves, relative to the state before: the connection that was
        current has been closed, the peer that was current destroyed, both fields are null,
        and no callback was called and nothing sent. */
    twostate predicate Destroyed()
      reads this
    {
      && peer == None && connection == None
      && conns == (if old(connection).Some? && old(connection).value < |old(conns)|
                   then old(conns)[old(connection).value := old(conns)[old(connection).value].(open := false, closeRequested := true)]
                   else old(conns))
      && peers == (if old(peer).Some? && old(peer).value < |old(peers)|
                   then old(peers)[old(peer).value := old(peers)[old(peer).value].(destroyed := true)]
                   else old(peers))
      && calls == old(calls) && sent == old(sent)
    }

    /** Closes the current connection and destroys the current peer, if any, then clears both
        fields. With both fields already clear it changes nothing. */
    method Destroy()
      requires Valid()
      modifies this
      ensures Valid() && Destroyed()
      ensures old(peer) == None && old(connection) == None ==> unchanged(this)
    {
      if connection.Some? {
        conns := conns[connection.value := conns[connection.value].(open := false, closeRequested := true)];
      }
      if peer.Some? {
        peers := peers[peer.value := peers[peer.value].(destroyed := true)];
      }
      peer, connection := None, None;
    }
  }

  /** Every connection a manager dialled targets a host id, never the id of the guest that
      dialled it. */
  lemma DialsGoToTheHost(m: PeerManager, c: nat)
    requires m.Valid() && c < |m.conns| && m.conns[c].origin.Dialled?
    ensures var o := m.conns[c].origin;
      o.target == HostId(m.peers[o.dialler].room) && o.target != m.peers[o.dialler].Id()
  {
    var o := m.conns[c].origin;
    assert m.OriginValid(o);
    HostIdIsNeverAGuestId(m.peers[o.dialler].room, m.peers[o.dialler].room);
  }
}
