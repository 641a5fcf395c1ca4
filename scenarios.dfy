/** Runs of the session manager driven through PeerJS events, with what a caller can conclude
    from the managers' contracts alone. */
module Scenarios {
  import opened Types
  import opened PeerService
  import opened ChatApp

  /** The second client of a room: its host peer is refused the id, it becomes the guest and
      dials the host id of the room; it is still 'connecting'. */
  method GuestDials(room: string) returns (guest: PeerManager)
    ensures fresh(guest) && guest.Valid()
    ensures guest.calls == [OnStatusChange(Connecting)] && guest.sent == []
    ensures guest.peers == [PeerObj(Host, room, true), PeerObj(Guest, room, false)] && guest.peer == Some(1)
    ensures guest.conns == [ConnObj(Dialled(1, 1, HostId(room)), false, true, false)]
    ensures guest.connection == Some(0)
  {
    guest := new PeerManager();
    var fired := guest.Init(room);
    fired := guest.OnPeerError(0, UnavailableId);
    fired := guest.OnPeerOpen(1);
  }

  /** The first client of a room: it registers the host id, the guest's dial arrives and opens. */
  method HostAccepts(room: string) returns (host: PeerManager)
    ensures fresh(host) && host.Valid()
    ensures host.calls == [OnStatusChange(Connecting), OnStatusChange(Connected)] && host.sent == []
    ensures host.peers == [PeerObj(Host, room, false)] && host.peer == Some(0)
    ensures host.conns == [ConnObj(Inbound(0), true, true, false)]
    ensures host.connection == Some(0)
  {
    host := new PeerManager();
    var fired := host.Init(room);
    fired := host.OnPeerOpen(0);
    fired := host.OnPeerConnection(0);
    fired := host.OnConnOpen(0);
  }

  /** Two clients of one room meet: the first registers the host id; the second is refused
      that id, becomes the guest and dials it; the dial reaches the host peer and both ends
      open. Both report 'connecting' then 'connected'. */
  method Rendezvous(room: string) returns (host: PeerManager, guest: PeerManager)
    ensures fresh(host) && fresh(guest) && host != guest && host.Valid() && guest.Valid()
    ensures host.calls == [OnStatusChange(Connecting), OnStatusChange(Connected)] && host.sent == []
    ensures guest.calls == [OnStatusChange(Connecting), OnStatusChange(Connected)] && guest.sent == []
    ensures |guest.conns| == 1 && guest.conns[0].origin == Dialled(1, 1, host.peers[0].Id())
    ensures host.connection == Some(0) && host.Occupied()
    ensures guest.connection == Some(0) && guest.Occupied()
  {
    host := HostAccepts(room);
    guest := GuestDials(room);
    var fired := guest.OnConnOpen(0);
  }

  /** After they meet, the guest's envelope, delivered unchanged, lands in the host's log
      with the guest's text and timestamp. */
  method TwoClientsMeet(room: string, text: string, timestamp: string, id: string)
    returns (hostCalls: seq<Callback>, guestCalls: seq<Callback>, hostLog: seq<Message>)
    ensures hostCalls == [OnStatusChange(Connecting), OnStatusChange(Connected),
                          OnMessageReceived(Envelope(text, timestamp))]
    ensures guestCalls == [OnStatusChange(Connecting), OnStatusChange(Connected)]
    ensures hostLog == [Message(id, text, Them, timestamp)]
  {
    var host, guest := Rendezvous(room);
    var ok := guest.Send(Envelope(text, timestamp));
    assert ok && guest.sent == [Transmission(0, Envelope(text, timestamp))];
    var fired := host.OnConnData(0, guest.sent[0].data);
    hostCalls, guestCalls := host.calls, guest.calls;
    EnvelopeRoundTrip([], text, timestamp, id);
    hostLog := Receive([], hostCalls[2].data, id);
  }

  /** A host whose partner leaves goes back to 'connecting'; the partner's next dial arrives
      as a new connection, which replaces the closed one and opens. */
  method Reconnects(room: string) returns (host: PeerManager)
    ensures fresh(host) && host.Valid()
    ensures host.calls == [OnStatusChange(Connecting), OnStatusChange(Connected),
                           OnStatusChange(Connecting), OnStatusChange(Connected)]
    ensures host.sent == [] && host.peers == [PeerObj(Host, room, false)] && host.peer == Some(0)
    ensures host.conns == [ConnObj(Inbound(0), false, true, false), ConnObj(Inbound(0), true, true, false)]
    ensures host.connection == Some(1)
  {
    host := new PeerManager();
    var fired := host.Init(room);
    fired := host.OnPeerConnection(0);
    fired := host.OnConnOpen(0);
    fired := host.OnConnClose(0);
    fired := host.OnPeerConnection(0);
    fired := host.OnConnOpen(1);
  }

  /** After `destroy`, a late `close` of the session's connection still reports
      'connecting', `send` refuses, and a second `destroy` changes nothing. */
  method CloseAndDestroy(room: string, data: Datum)
    returns (calls: seq<Callback>, sentAfterDestroy: bool, transmissions: seq<Transmission>)
    ensures calls == [OnStatusChange(Connecting), OnStatusChange(Connected),
                      OnStatusChange(Connecting), OnStatusChange(Connected),
                      OnStatusChange(Connecting)]
    ensures !sentAfterDestroy && transmissions == []
  {
    var m := Reconnects(room);
    m.Destroy();
    var peers, conns := m.peers, m.conns;
    m.Destroy();
    assert m.peers == peers && m.conns == conns;
    var fired := m.OnConnClose(1);
    sentAfterDestroy := m.Send(data);
    calls, transmissions := m.calls, m.sent;
  }

  /** A connection that has not opened yet is replaced by the next one to arrive, though its
      handlers stay registered: when it opens later it still reports 'connected', and `send`
      goes by the newer connection's flag only. */
  method PendingConnectionIsReplaced(room: string, data: Datum)
    returns (current: Option<nat>, calls: seq<Callback>, ok: bool)
    ensures current == Some(1)
    ensures calls == [OnStatusChange(Connecting), OnStatusChange(Connected)]
    ensures !ok
  {
    var m := new PeerManager();
    var fired := m.Init(room);
    fired := m.OnPeerConnection(0);
    fired := m.OnPeerConnection(0);
    fired := m.OnConnOpen(0);
    ok := m.Send(data);
    current, calls := m.connection, m.calls;
  }

  /** A host error other than 'unavailable-id' ('peer-unavailable' or any other) leaves the
      session waiting in 'connecting' as the host; it never reports 'error'. */
  method HostErrorsOtherThanConflict(room: string, errType: string)
    returns (calls: seq<Callback>, roles: seq<Role>)
    requires errType != UnavailableId
    ensures calls == [OnStatusChange(Connecting)]
    ensures roles == [Host]
  {
    var m := new PeerManager();
    var fired := m.Init(room);
    fired := m.OnPeerError(0, errType);
    calls, roles := m.calls, [m.peers[0].role];
    assert |m.peers| == 1;
  }
}
