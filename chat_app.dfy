/** The session state of the chat page (App.tsx): the joined room, the message log, the
    status last reported, and the manager of the current session. */
module ChatApp {
  import opened Types
  import opened PeerService
  import MessageInput

  /** The `type` that marks a chat message. */
  const MessageKind := "message"

  /** The envelope `handleSendMessage` sends: `{ type: 'message', payload: { text, timestamp } }`. */
  function Envelope(text: string, timestamp: string): Datum
  {
    Datum(MessageKind, Payload(text, timestamp))
  }

  /** The inbound-data callback: a datum of type 'message' appends one record from 'them'
      carrying the payload's text and timestamp; any other datum leaves the log as it is. */
  function Receive(log: seq<Message>, data: Datum, id: string): (r: seq<Message>)
    ensures |r| == |log| + (if data.kind == MessageKind then 1 else 0)
    ensures r[..|log|] == log
    ensures |r| > |log| ==>
      r[|log|].sender == Them && r[|log|].text == data.payload.text
      && r[|log|].timestamp == data.payload.timestamp && r[|log|].id == id
  {
    if data.kind == MessageKind then log + [Message(id, data.payload.text, Them, data.payload.timestamp)]
    else log
  }

  /** What the partner's log gains from a sequence of inbound data, each with the id it is
      given on arrival: one record per message, in arrival order. */
  function Incoming(arrivals: seq<(Datum, string)>): seq<Message>
  {
    if arrivals == [] then []
    else
      var (d, id) := arrivals[0];
      (if d.kind == MessageKind then [Message(id, d.payload.text, Them, d.payload.timestamp)] else [])
      + Incoming(arrivals[1..])
  }

  /** The log after the inbound-data callback has run once per arrival, in order. */
  function ReceiveAll(log: seq<Message>, arrivals: seq<(Datum, string)>): seq<Message>
    decreases arrivals
  {
    if arrivals == [] then log else ReceiveAll(Receive(log, arrivals[0].0, arrivals[0].1), arrivals[1..])
  }

  /** Inbound data never reorders or drops earlier entries: the callbacks together append
      exactly the messages among the arrivals, in the order they arrived. */
  lemma {:induction false} ReceiveAllAppends(log: seq<Message>, arrivals: seq<(Datum, string)>)
    ensures ReceiveAll(log, arrivals) == log + Incoming(arrivals)
    decreases arrivals
  {
    if arrivals != [] {
      var (d, id) := arrivals[0];
      ReceiveAllAppends(Receive(log, d, id), arrivals[1..]);
      if d.kind == MessageKind {
        assert Receive(log, d, id) == log + [Message(id, d.payload.text, Them, d.payload.timestamp)];
        assert log + [Message(id, d.payload.text, Them, d.payload.timestamp)] + Incoming(arrivals[1..])
            == log + ([Message(id, d.payload.text, Them, d.payload.timestamp)] + Incoming(arrivals[1..]));
      } else {
        assert Receive(log, d, id) == log;
      }
    }
  }

  /** The envelope built by the sender, delivered unchanged, becomes a record from 'them' with
      the sender's text and timestamp. */
  lemma {:induction false} EnvelopeRoundTrip(log: seq<Message>, text: string, timestamp: string, id: string)
    ensures Receive(log, Envelope(text, timestamp), id) == log + [Message(id, text, Them, timestamp)]
  {
    var r := Receive(log, Envelope(text, timestamp), id);
    assert |r| == |log| + 1;
    assert r[..|log|] == log;
    assert r[|log|] == Message(id, text, Them, timestamp);
    assert r == r[..|log|] + [r[|log|]];
  }

  /** The `disabled` property App gives the message input. */
  predicate InputDisabled(status: ConnectionStatus)
  {
    status != Connected
  }

  /** Unless the last status reported is 'connected', the message input never calls
      onSendMessage, whatever the draft. */
  lemma InputSendsOnlyWhenConnected(status: ConnectionStatus, draft: string)
    ensures MessageInput.Outgoing(draft, InputDisabled(status)).Some? ==> status == Connected
  {
  }

  class App {
    var roomID: Option<string>
    var messages: seq<Message>
    var status: ConnectionStatus
    /** peerManagerRef.current */
    var manager: PeerManager?
    /** Every manager this page created: their callbacks all update this page's state. */
    ghost var managers: set<PeerManager>

    ghost predicate Valid()
      reads this, managers
    {
      && (manager != null ==> manager in managers)
      && (forall m :: m in managers ==> m.Valid())
    }

    /** The room id is truthy: the chat view is shown rather than the join form. */
    predicate Joined()
      reads this
    {
      roomID.Some? && roomID.value != ""
    }

    /** The initial state: no room, an empty log, 'disconnected', no manager. */
    constructor ()
      ensures Valid()
      ensures roomID == None && messages == [] && status == Disconnected
      ensures manager == null && managers == {}
    {
      roomID, messages, status := None, [], Disconnected;
      manager := null;
      managers := {};
    }

    /** A callback of one of this page's managers runs: a status is stored as it is; a datum
        goes through the inbound-data callback, the new record taking id `id`. */
    method Apply(cb: Callback, id: string)
      modifies this`status, this`messages
      ensures cb.OnStatusChange? ==> status == cb.status && messages == old(messages)
      ensures cb.OnMessageReceived? ==> status == old(status) && messages == Receive(old(messages), cb.data, id)
    {
      match cb
      case OnStatusChange(s) => status := s;
      case OnMessageReceived(d) => messages := Receive(messages, d, id);
    }

    /** `onJoin(id)` from the join form sets the room id; when that changes it, the effect on
        the room id runs: its cleanup destroys the previous manager, then, for a non-empty
        id, a new manager is created and initialised with it, reporting 'connecting'. */
    method Join(id: string)
      requires Valid() && !Joined()
      modifies this, managers
      ensures Valid() && roomID == Some(id) && messages == old(messages)
      ensures Some(id) == old(roomID) ==> manager == old(manager) && status == old(status) && managers == old(managers)
      ensures Some(id) != old(roomID) && old(manager) != null ==> old(manager).Destroyed()
      ensures Some(id) != old(roomID) && id == "" ==>
        manager == old(manager) && status == old(status) && managers == old(managers)
      ensures Some(id) != old(roomID) && id != "" ==>
        && fresh(manager) && managers == old(managers) + {manager}
        && manager.calls == [OnStatusChange(Connecting)]
        && manager.peers == [PeerObj(Host, id, false)] && manager.peer == Some(0)
        && manager.conns == [] && manager.connection == None
        && status == Connecting
      ensures forall m :: m in old(managers) && m != old(manager) ==> unchanged(m)
    {
      var previous := roomID;
      roomID := Some(id);
      if roomID == previous {
        return;
      }
      if manager != null {
        manager.Destroy();
      }
      if id != "" {
        var m := new PeerManager();
        manager := m;
        managers := managers + {m};
        var fired := m.Init(id);
        Apply(fired[0], "");
      }
    }

    /** `destruct`: destroys the current manager if there is one, then clears the room id and
        the log and reports 'disconnected'. Clearing a set room id re-runs the effect on it,
        whose cleanup destroys the manager once more, which changes nothing. */
    method Destruct()
      requires Valid()
      modifies this, managers
      ensures Valid() && manager == old(manager) && managers == old(managers)
      ensures roomID == None && messages == [] && status == Disconnected
      ensures old(manager) != null ==> manager.Destroyed()
      ensures forall m :: m in old(managers) && m != old(manager) ==> unchanged(m)
    {
      var previous := roomID;
      if manager != null {
        manager.Destroy();
      }
      roomID, messages, status := None, [], Disconnected;
      if previous != None && manager != null {
        manager.Destroy();
      }
    }

    /** The page's visibility changes: hidden with a room joined runs `destruct`; otherwise
        nothing happens. */
    method VisibilityChange(hidden: bool)
      requires Valid()
      modifies this, managers
      ensures Valid() && manager == old(manager) && managers == old(managers)
      ensures !(hidden && old(Joined())) ==> unchanged(this) && forall m :: m in old(managers) ==> unchanged(m)
      ensures hidden && old(Joined()) ==>
        && roomID == None && messages == [] && status == Disconnected
        && (old(manager) != null ==> manager.Destroyed())
        && forall m :: m in old(managers) && m != old(manager) ==> unchanged(m)
    {
      if hidden && Joined() {
        Destruct();
      }
    }

    /** The page unmounts: the cleanup of the effect on the room id destroys the current manager. */
    method Unmount()
      requires Valid()
      modifies managers
      ensures Valid() && unchanged(this)
      ensures old(manager) != null ==> manager.Destroyed()
      ensures forall m :: m in old(managers) && m != old(manager) ==> unchanged(m)
    {
      if manager != null {
        manager.Destroy();
      }
    }

    /** `handleSendMessage(text)`: sends the envelope through the current manager and appends
        the local echo from 'me' exactly when the manager reports that it sent it. */
    method SendMessage(text: string, timestamp: string, id: string) returns (echoed: bool)
      requires Valid()
      modifies this`messages, manager
      ensures Valid()
      ensures echoed == (old(manager) != null && old(manager.Occupied()))
      ensures messages == if echoed then old(messages) + [Message(id, text, Me, timestamp)] else old(messages)
      ensures echoed ==> manager.sent == old(manager.sent) + [Transmission(old(manager.connection).value, Envelope(text, timestamp))]
      ensures !echoed && manager != null ==> manager.sent == old(manager.sent)
      ensures manager != null ==>
        && manager.peer == old(manager.peer) && manager.connection == old(manager.connection)
        && manager.peers == old(manager.peers) && manager.conns == old(manager.conns)
        && manager.calls == old(manager.calls)
    {
      echoed := false;
      if manager != null {
        echoed := manager.Send(Envelope(text, timestamp));
      }
      if echoed {
        messages := messages + [Message(id, text, Me, timestamp)];
      }
    }

    /** PeerJS delivers `ev` to manager `m`, old or current, and the callback it fires (at
        most one) updates this page: the status verbatim, or the log through Receive. */
    method Deliver(m: PeerManager, ev: Event, id: string) returns (fired: seq<Callback>)
      requires Valid() && m in managers && m.Addresses(ev)
      modifies m, this`status, this`messages
      ensures Valid()
      ensures m.Handled(ev, fired) && |fired| <= 1
      ensures fired == [] ==> status == old(status) && messages == old(messages)
      ensures fired != [] && fired[0].OnStatusChange? ==> status == fired[0].status && messages == old(messages)
      ensures fired != [] && fired[0].OnMessageReceived? ==>
        status == old(status) && messages == Receive(old(messages), fired[0].data, id)
      ensures (ev.PeerOpen? || ev.PeerConnection? || ev.PeerError?) ==>
        status == old(status) && messages == old(messages)
      ensures ev.ConnOpen? && old(m.conns)[ev.c].handlers ==> status == Connected
      ensures ev.ConnClose? && old(m.conns)[ev.c].handlers ==> status == Connecting
      ensures ev.ConnError? && old(m.conns)[ev.c].handlers ==> status == Error
      ensures ev.ConnData? && old(m.conns)[ev.c].handlers ==> messages == Receive(old(messages), ev.data, id)
      ensures (ev.ConnOpen? || ev.ConnData? || ev.ConnClose? || ev.ConnError?) && !old(m.conns)[ev.c].handlers ==> status == old(status) && messages == old(messages)
    {
      fired := m.Handle(ev);
      if fired != [] {
        Apply(fired[0], id);
      }
    }
  }
}
