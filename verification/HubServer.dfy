/** The critical sections of the WebSocket hub as they update its variables. */
module HubServer {
  import opened Hub
  import opened Options

  /** The messages of a list that a client with these rooms is sent. */
  function Subscribed(rooms: set<string>, ms: seq<Message>): seq<Message> {
    if ms == [] then []
    else
      Subscribed(rooms, ms[..|ms| - 1])
      + if IsSubscribed(rooms, ms[|ms| - 1].room) then [ms[|ms| - 1]] else []
  }

  /** A client of all rooms is sent the whole list. */
  lemma {:induction false} AllSubscribed(rooms: set<string>, ms: seq<Message>)
    requires "*" in rooms
    ensures Subscribed(rooms, ms) == ms
  {
    if ms != [] {
      AllSubscribed(rooms, ms[..|ms| - 1]);
    }
  }

  /** What a client is sent of two lists is what it is sent of each, in order. */
  lemma {:induction false} SubscribedAppend(rooms: set<string>, a: seq<Message>, b: seq<Message>)
    ensures Subscribed(rooms, a + b) == Subscribed(rooms, a) + Subscribed(rooms, b)
  {
    if b == [] {
      assert a + b == a;
    } else {
      assert (a + b)[..|a + b| - 1] == a + b[..|b| - 1];
      SubscribedAppend(rooms, a, b[..|b| - 1]);
    }
  }

  /** A client of some rooms is sent a message exactly when its room is among them. */
  lemma SubscribedOne(rooms: set<string>, m: Message)
    requires rooms != {} && "*" !in rooms
    ensures Subscribed(rooms, [m]) == if m.room != "" && m.room in rooms then [m] else []
  {
    assert [m][..0] == [];
  }

  /** The clients subscribed to a room. */
  function Audience(clients: map<nat, set<string>>, room: string): set<nat> {
    set c | c in clients && IsSubscribed(clients[c], room)
  }

  /** A connection: its rooms and the frames written to it. */
  datatype Peer = Peer(rooms: set<string>, frames: seq<Message>)

  /** What the hub's variables hold. */
  datatype View = View(buffer: seq<Message>, broadcast: seq<Message>, peers: map<nat, Peer>)

  /** A message is buffered, then sent unless the channel is full. */
  function Queue(v: View, m: Message): View {
    v.(buffer := Recent(v.buffer + [m]),
       broadcast := if |v.broadcast| < CHANNEL_SIZE then v.broadcast + [m] else v.broadcast)
  }

  function Reached(p: Peer, m: Message): Peer {
    if IsSubscribed(p.rooms, m.room) then p.(frames := p.frames + [m]) else p
  }

  /** Every subscribed peer gets the oldest message of the channel; one whose write fails is removed. */
  function Broadcast(v: View, failing: set<nat>): View {
    if v.broadcast == [] then v
    else
      var m := v.broadcast[0];
      v.(broadcast := v.broadcast[1..],
         peers := map c | c in v.peers && !(c in failing && IsSubscribed(v.peers[c].rooms, m.room)) ::
                    Reached(v.peers[c], m))
  }

  /** A new peer gets the buffered messages of its rooms. */
  function Connected(v: View, conn: nat, roomId: string): View {
    if conn in v.peers then v
    else v.(peers := v.peers[conn := Peer(FirstRooms(roomId), Subscribed(FirstRooms(roomId), v.buffer))])
  }

  /** A peer that asked for no room is sent the whole buffer, any other the messages of its room. */
  lemma ConnectedIsSent(v: View, conn: nat, roomId: string)
    requires conn !in v.peers
    ensures var p := Connected(v, conn, roomId).peers[conn];
      && (roomId == "" ==> p == Peer({"*"}, v.buffer))
      && (roomId != "" ==> p == Peer({roomId}, Subscribed({roomId}, v.buffer)))
  {
    AllSubscribed({"*"}, v.buffer);
  }

  /** A broadcast adds one frame for every peer of all rooms or of the message's room, and removes those it fails on. */
  lemma BroadcastReaches(v: View, failing: set<nat>, c: nat)
    requires v.broadcast != [] && c in v.peers && v.peers[c].rooms != {}
    ensures var m, rooms, t := v.broadcast[0], v.peers[c].rooms, Broadcast(v, failing);
      && t.buffer == v.buffer && t.broadcast == v.broadcast[1..] && t.peers.Keys <= v.peers.Keys
      && if "*" in rooms || (m.room != "" && m.room in rooms)
         then (c in t.peers <==> c !in failing)
              && (c in t.peers ==> t.peers[c] == Peer(rooms, v.peers[c].frames + [m]))
         else c in t.peers && t.peers[c] == v.peers[c]
  {
  }

  /** The loop of `handleBroadcast` over the clients, under the read lock; writes fail on `failing` connections. */
  method WriteAll(clients: map<nat, set<string>>, written: map<nat, seq<Message>>, message: Message, failing: set<nat>)
    returns (frames: map<nat, seq<Message>>, dead: set<nat>)
    requires clients.Keys <= written.Keys
    ensures frames.Keys == written.Keys && dead == Audience(clients, message.room) * failing
    ensures forall c | c in written ::
              frames[c] == if c in Audience(clients, message.room) - failing then written[c] + [message] else written[c]
  {
    frames, dead := written, {};
    ghost var audience := Audience(clients, message.room);
    var todo := clients.Keys;
    while todo != {}
      invariant todo <= clients.Keys && frames.Keys == written.Keys
      invariant forall c | c in written ::
                  frames[c] == if c in audience && c !in failing && c !in todo
                               then written[c] + [message] else written[c]
      invariant forall c :: c in dead <==> c in audience && c in failing && c !in todo
      decreases |todo|
    {
      var c :| c in todo;
      assert c in audience <==> IsSubscribed(clients[c], message.room);
      if IsSubscribed(clients[c], message.room) {
        if c in failing {
          dead := dead + {c};
        } else {
          frames := frames[c := frames[c] + [message]];
        }
      }
      todo := todo - {c};
    }
  }

  /** The peers after a broadcast: the dead are gone, the others keep their rooms and have the new frames. */
  lemma PeersReached(v: View, clients: map<nat, set<string>>, frames: map<nat, seq<Message>>, failing: set<nat>)
    requires v.broadcast != [] && v.peers.Keys == clients.Keys && clients.Keys <= frames.Keys
    requires forall c | c in clients :: v.peers[c].rooms == clients[c]
    requires forall c | c in clients ::
               frames[c] == if c in Audience(clients, v.broadcast[0].room) - failing
                            then v.peers[c].frames + [v.broadcast[0]] else v.peers[c].frames
    ensures var left := clients - Audience(clients, v.broadcast[0].room) * failing;
      (map c | c in left :: Peer(left[c], frames[c])) == Broadcast(v, failing).peers
  {
  }

  class Server {
    var clients: map<nat, set<string>>
    var messageBuffer: seq<Message>
    var broadcast: seq<Message>
    /** The frames written to every connection ever registered. */
    var written: map<nat, seq<Message>>

    constructor ()
      ensures Valid() && clients == map[] && messageBuffer == [] && broadcast == []
    {
      clients, messageBuffer, broadcast, written := map[], [], [], map[];
    }

    predicate Valid()
      reads this
    {
      clients.Keys <= written.Keys
    }

    function State(): View
      requires Valid()
      reads this
    {
      View(messageBuffer, broadcast, map c | c in clients :: Peer(clients[c], written[c]))
    }

    /** `queueBroadcast`: buffer, then send or drop. */
    method QueueBroadcast(m: Message) returns (sent: bool)
      requires Valid()
      modifies this`messageBuffer, this`broadcast
      ensures Valid() && State() == Queue(old(State()), m)
      ensures sent <==> |old(broadcast)| < CHANNEL_SIZE
    {
      messageBuffer := messageBuffer + [m];
      if |messageBuffer| > BUFFER_SIZE {
        messageBuffer := messageBuffer[|messageBuffer| - BUFFER_SIZE..];
      }
      sent := |broadcast| < CHANNEL_SIZE;
      if sent {
        broadcast := broadcast + [m];
      }
    }

    /** One turn of `handleBroadcast`; `failing` are the connections on which a write fails. */
    method HandleBroadcast(failing: set<nat>)
      requires Valid() && broadcast != []
      modifies this`broadcast, this`clients, this`written
      ensures Valid() && State() == Broadcast(old(State()), failing)
      ensures forall c | c in old(written) && c !in clients :: c in written && written[c] == old(written)[c]
    {
      var message := broadcast[0];
      broadcast := broadcast[1..];
      var frames, dead := WriteAll(clients, written, message, failing);
      PeersReached(old(State()), clients, frames, failing);
      written := frames;
      clients := clients - dead;
    }

    /** `WebSocketHandler` up to the end of the replay, with nothing in between. */
    method Connect(conn: nat, roomId: string)
      requires Valid() && conn !in written
      modifies this`clients, this`written
      ensures Valid() && State() == Connected(old(State()), conn, roomId)
      ensures forall c | c in old(written) :: c in written && written[c] == old(written)[c]
    {
      var subs := {if roomId == "" then "*" else roomId};
      clients := clients[conn := subs];
      var buffered := messageBuffer;
      var frames: seq<Message> := [];
      for i := 0 to |buffered|
        invariant frames == Subscribed(subs, buffered[..i])
      {
        assert buffered[..i + 1][..i] == buffered[..i];
        if !IsSubscribed(subs, buffered[i].room) {
          continue;
        }
        frames := frames + [buffered[i]];
      }
      assert buffered[..|buffered|] == buffered;
      written := written[conn := frames];
    }
  }

  // ---------- the critical sections among the interleavings ----------

  /** The hub of the state machine, as its variables show it. */
  function Shown(s: Hub.State): View
    requires Placed(s)
  {
    View(s.buffer, seq(|s.channel|, i requires 0 <= i < |s.channel| => s.history[s.channel[i]]),
         map c | c in s.clients :: Peer(s.clients[c].rooms, s.clients[c].frames))
  }

  lemma ShownAppended(s: Hub.State, m: Message)
    requires Placed(s)
    ensures var t := Do(s, Append(m));
      && Placed(t) && t.places[|s.history|] == InFlight
      && Shown(t) == Shown(s).(buffer := Recent(s.buffer + [m]))
  {
    PlacedStays(s, Append(m));
  }

  lemma ShownSent(s: Hub.State, i: nat)
    requires Placed(s) && i < |s.places| && s.places[i] == InFlight
    ensures var t, v := Do(s, Send(i)), Shown(s);
      && Placed(t)
      && Shown(t) == if |v.broadcast| < CHANNEL_SIZE then v.(broadcast := v.broadcast + [s.history[i]]) else v
  {
    PlacedStays(s, Send(i));
  }

  /** Append and send with nothing in between are `queueBroadcast`. */
  lemma QueueAlone(s: Hub.State, m: Message)
    requires Placed(s)
    ensures var t := Do(Do(s, Append(m)), Send(|s.history|));
      Placed(t) && t.held == s.held && Shown(t) == Queue(Shown(s), m)
  {
    ShownAppended(s, m);
    ShownSent(Do(s, Append(m)), |s.history|);
  }

  /** The subscribed clients whose write fails. */
  function Dead(s: Hub.State, failing: set<nat>): set<nat>
    requires Placed(s) && s.channel != []
  {
    set c | c in s.clients && c in failing && IsSubscribed(s.clients[c].rooms, s.history[s.channel[0]].room)
  }

  lemma ShownReceived(s: Hub.State)
    requires Placed(s) && s.held.None? && s.channel != []
    ensures var t := Do(s, Receive);
      && Placed(t) && t.held == Some(s.channel[0])
      && Shown(t) == Shown(s).(broadcast := Shown(s).broadcast[1..])
      && t.history == s.history && t.clients == s.clients
  {
    PlacedStays(s, Receive);
  }

  lemma ShownDelivered(s: Hub.State)
    requires Placed(s) && s.held.Some?
    ensures var t, v := Do(s, Deliver), Shown(s);
      && Placed(t) && t.held.None?
      && Shown(t) == v.(peers := map c | c in v.peers :: Reached(v.peers[c], s.history[s.held.value]))
  {
    PlacedStays(s, Deliver);
  }

  lemma ShownRemoved(s: Hub.State, cs: set<nat>)
    requires Placed(s)
    ensures var t := Do(s, Remove(cs));
      Placed(t) && t.held == s.held && Shown(t) == Shown(s).(peers := Shown(s).peers - cs)
  {
    PlacedStays(s, Remove(cs));
  }

  /** Receive, deliver and the removal of dead clients with nothing in between are one turn of `handleBroadcast`. */
  lemma BroadcastAlone(s: Hub.State, failing: set<nat>)
    requires Placed(s) && s.held.None? && s.channel != []
    ensures var t := Do(Do(Do(s, Receive), Deliver), Remove(Dead(s, failing)));
      Placed(t) && t.held.None? && Shown(t) == Broadcast(Shown(s), failing)
  {
    ShownReceived(s);
    ShownDelivered(Do(s, Receive));
    ShownRemoved(Do(Do(s, Receive), Deliver), Dead(s, failing));
    BroadcastInSteps(Shown(s), failing, Dead(s, failing));
  }

  lemma BroadcastInSteps(v: View, failing: set<nat>, dead: set<nat>)
    requires v.broadcast != []
    requires forall c :: c in dead <==>
               c in v.peers && c in failing && IsSubscribed(v.peers[c].rooms, v.broadcast[0].room)
    ensures Broadcast(v, failing)
         == v.(broadcast := v.broadcast[1..],
               peers := (map c | c in v.peers :: Reached(v.peers[c], v.broadcast[0])) - dead)
  {
  }

  function Replays(s: Hub.State, c: nat, n: nat): Hub.State {
    if n == 0 then s else Do(Replays(s, c, n - 1), Replay(c))
  }

  /** After `n` replays with nothing in between a client was sent its rooms' messages among the first `n`. */
  predicate ReplayedTo(s: Hub.State, t: Hub.State, c: nat, n: nat) {
    && c in s.clients && c in t.clients && n <= |s.buffer|
    && t == s.(clients := s.clients[c := t.clients[c]])
    && t.clients[c].rooms == s.clients[c].rooms && t.clients[c].snapshot == s.clients[c].snapshot
    && t.clients[c].pending == s.buffer[n..]
    && t.clients[c].frames == Subscribed(s.clients[c].rooms, s.buffer[..n])
  }

  lemma {:induction false} ReplayAlone(s: Hub.State, c: nat, n: nat)
    requires c in s.clients && n <= |s.buffer| <= |s.history|
    requires var k := s.clients[c]; k.snapshot == Some(|s.history|) && k.pending == s.buffer && k.frames == []
    ensures ReplayedTo(s, Replays(s, c, n), c, n)
  {
    if n == 0 {
      assert s.buffer[..0] == [];
    } else {
      ReplayAlone(s, c, n - 1);
      ReplayStep(s, Replays(s, c, n - 1), c, n - 1);
    }
  }

  lemma ReplayStep(s: Hub.State, t: Hub.State, c: nat, n: nat)
    requires ReplayedTo(s, t, c, n) && n < |s.buffer| <= |s.history| && s.clients[c].snapshot == Some(|s.history|)
    ensures ReplayedTo(s, Do(t, Replay(c)), c, n + 1)
  {
    assert s.buffer[..n + 1][..n] == s.buffer[..n] && t.clients[c].pending[0] == s.buffer[n];
    assert s.buffer[n..][1..] == s.buffer[n + 1..];
  }

  lemma NewPeer(s: Hub.State, c: nat, k: Client)
    requires Placed(s)
    ensures var t := s.(clients := s.clients[c := k]);
      Placed(t) && Shown(t) == Shown(s).(peers := Shown(s).peers[c := Peer(k.rooms, k.frames)])
  {
  }

  /** Registration, snapshot and replay with nothing in between are `Connect`. */
  lemma ConnectAlone(s: Hub.State, c: nat, roomId: string)
    requires Placed(s) && Buffered(s) && c !in s.clients
    ensures var t := Replays(Do(Do(s, Register(c, roomId)), Snapshot(c)), c, |s.buffer|);
      Placed(t) && t.held == s.held && Shown(t) == Connected(Shown(s), c, roomId)
  {
    var u := Do(Do(s, Register(c, roomId)), Snapshot(c));
    assert u == s.(clients := s.clients[c := u.clients[c]]);
    ReplayAlone(u, c, |s.buffer|);
    var t := Replays(u, c, |s.buffer|);
    assert t == s.(clients := s.clients[c := t.clients[c]]);
    NewPeer(s, c, t.clients[c]);
    assert s.buffer[..|s.buffer|] == s.buffer;
  }

  // ---------- whole runs of the server ----------

  /** A call of the server; a broadcast on an empty channel waits. */
  datatype Call = Publish(m: Message) | Turn(failing: set<nat>) | Join(conn: nat, roomId: string)

  function Serve(calls: seq<Call>): View {
    if calls == [] then View([], [], map[])
    else
      var v := Serve(calls[..|calls| - 1]);
      match calls[|calls| - 1]
      case Publish(m) => Queue(v, m)
      case Turn(failing) => Broadcast(v, failing)
      case Join(conn, roomId) => Connected(v, conn, roomId)
  }

  function ReplayLabels(c: nat, n: nat): seq<Label> {
    if n == 0 then [] else ReplayLabels(c, n - 1) + [Replay(c)]
  }

  lemma ExecOneMore(labels: seq<Label>, l: Label)
    ensures Exec(labels + [l]) == Do(Exec(labels), l)
  {
  }

  lemma {:induction false} ExecReplays(labels: seq<Label>, c: nat, n: nat)
    ensures Exec(labels + ReplayLabels(c, n)) == Replays(Exec(labels), c, n)
  {
    if n == 0 {
      assert labels + [] == labels;
    } else {
      ExecReplays(labels, c, n - 1);
      assert labels + ReplayLabels(c, n) == labels + ReplayLabels(c, n - 1) + [Replay(c)];
      ExecOneMore(labels + ReplayLabels(c, n - 1), Replay(c));
    }
  }

  lemma ExecTwoMore(labels: seq<Label>, k: Label, l: Label)
    ensures Exec(labels + [k, l]) == Do(Do(Exec(labels), k), l)
  {
    assert labels + [k, l] == labels + [k] + [l];
    ExecOneMore(labels, k);
    ExecOneMore(labels + [k], l);
  }

  /** Between two calls that nothing interrupts, no message is with the broadcaster. */
  predicate Resting(s: Hub.State) {
    Placed(s) && s.held.None?
  }

  lemma TurnCall(labels: seq<Label>, failing: set<nat>) returns (more: seq<Label>)
    requires Resting(Exec(labels))
    ensures var t := Exec(labels + more); Resting(t) && Shown(t) == Broadcast(Shown(Exec(labels)), failing)
  {
    var s := Exec(labels);
    if s.channel == [] {
      more := [];
      assert labels + more == labels;
    } else {
      more := [Receive, Deliver] + [Remove(Dead(s, failing))];
      ExecTwoMore(labels, Receive, Deliver);
      ExecOneMore(labels + [Receive, Deliver], Remove(Dead(s, failing)));
      assert labels + more == labels + [Receive, Deliver] + [Remove(Dead(s, failing))];
      BroadcastAlone(s, failing);
    }
  }

  function JoinLabels(conn: nat, roomId: string, n: nat): seq<Label> {
    [Register(conn, roomId), Snapshot(conn)] + ReplayLabels(conn, n)
  }

  lemma JoinSplits(labels: seq<Label>, conn: nat, roomId: string, n: nat)
    ensures labels + JoinLabels(conn, roomId, n)
         == labels + [Register(conn, roomId), Snapshot(conn)] + ReplayLabels(conn, n)
  {
  }

  lemma ExecJoin(labels: seq<Label>, conn: nat, roomId: string, n: nat)
    ensures Exec(labels + JoinLabels(conn, roomId, n))
         == Replays(Do(Do(Exec(labels), Register(conn, roomId)), Snapshot(conn)), conn, n)
  {
    JoinSplits(labels, conn, roomId, n);
    ExecReplays(labels + [Register(conn, roomId), Snapshot(conn)], conn, n);
    ExecTwoMore(labels, Register(conn, roomId), Snapshot(conn));
  }

  lemma JoinCall(labels: seq<Label>, conn: nat, roomId: string) returns (more: seq<Label>)
    requires Resting(Exec(labels)) && Buffered(Exec(labels))
    ensures var t := Exec(labels + more); Resting(t) && Shown(t) == Connected(Shown(Exec(labels)), conn, roomId)
  {
    var s := Exec(labels);
    if conn in s.clients {
      more := [];
      assert labels + more == labels;
    } else {
      more := JoinLabels(conn, roomId, |s.buffer|);
      ExecJoin(labels, conn, roomId, |s.buffer|);
      ConnectAlone(s, conn, roomId);
    }
  }

  /** Every run of server calls, each undisturbed, is one interleaving of the hub, so all its guarantees hold there. */
  lemma {:induction false} ServerIsAnInterleaving(calls: seq<Call>) returns (labels: seq<Label>)
    ensures var s := Exec(labels); Resting(s) && Shown(s) == Serve(calls)
  {
    if calls == [] {
      labels := [];
    } else {
      labels := ServerIsAnInterleaving(calls[..|calls| - 1]);
      InvRun(labels);
      var more;
      match calls[|calls| - 1] {
        case Publish(m) =>
          more := [Append(m), Send(|Exec(labels).history|)];
          ExecTwoMore(labels, more[0], more[1]);
          QueueAlone(Exec(labels), m);
        case Turn(failing) => more := TurnCall(labels, failing);
        case Join(conn, roomId) => more := JoinCall(labels, conn, roomId);
      }
      labels := labels + more;
    }
  }

  /** The frames a list of indices stands for. */
  function Frames(history: seq<Message>, lo: nat, hi: nat, copies: multiset<nat>): seq<Message>
    requires lo <= hi <= |history|
  {
    if lo == hi then []
    else Frames(history, lo, hi - 1, copies) + if hi - 1 in copies then [history[hi - 1]] else []
  }

  /**
   * A client of the state machine that only asked for its first rooms and has been replayed everything got exactly
   * the frames of `Connect`: the subscribed messages of the buffer at its snapshot, in order.
   */
  lemma {:induction false} ReplayMatchesConnect(history: seq<Message>, rooms: set<string>, lo: nat, hi: nat,
                                                copies: multiset<nat>)
    requires lo <= hi <= |history|
    requires forall i | lo <= i < hi :: i in copies <==> IsSubscribed(rooms, history[i].room)
    ensures Frames(history, lo, hi, copies) == Subscribed(rooms, history[lo..hi])
  {
    if lo < hi {
      ReplayMatchesConnect(history, rooms, lo, hi - 1, copies);
      var ms := history[lo..hi];
      assert ms[..|ms| - 1] == history[lo..hi - 1] && ms[|ms| - 1] == history[hi - 1];
    } else {
      assert history[lo..hi] == [];
    }
  }

  /** The replay of the interleaved hub is the replay of `Connect`. */
  lemma ReplayedInFull(labels: seq<Label>, c: nat)
    requires c in Exec(labels).clients
    requires var k := Exec(labels).clients[c]; k.snapshot.Some? && k.pending == [] && k.rooms == k.first
    ensures var s, k := Exec(labels), Exec(labels).clients[c];
      var n := k.snapshot.value;
      && n <= |s.history|
      && Frames(s.history, Oldest(n), n, k.replayed) == Subscribed(k.first, Recent(s.history[..n]))
  {
    InvRun(labels);
    var s, k := Exec(labels), Exec(labels).clients[c];
    var n := k.snapshot.value;
    ReplayMatchesConnect(s.history, k.first, Oldest(n), n, k.replayed);
    assert Recent(s.history[..n]) == s.history[Oldest(n)..n];
  }
}
