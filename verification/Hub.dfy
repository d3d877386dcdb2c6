/**
 * The WebSocket hub: a replay buffer, a bounded lossy channel, a broadcaster and connecting clients. Producers,
 * broadcaster and clients interleave at the locks and channel operations; a list of labels is one interleaving.
 */
module Hub {
  import opened Options

  const BUFFER_SIZE := 500
  const CHANNEL_SIZE := 200

  datatype Message = Message(room: string, data: string)

  /** `isSubscribed`. */
  predicate IsSubscribed(subs: set<string>, room: string) {
    subs == {} || "*" in subs || (room != "" && room in subs)
  }

  /** The rooms a connection asks for; none means all. */
  function FirstRooms(roomId: string): set<string> {
    {if roomId == "" then "*" else roomId}
  }

  /** The last messages the buffer keeps. */
  function Recent(ms: seq<Message>): seq<Message> {
    if |ms| > BUFFER_SIZE then ms[|ms| - BUFFER_SIZE..] else ms
  }

  function Oldest(n: nat): nat {
    if n > BUFFER_SIZE then n - BUFFER_SIZE else 0
  }

  /** Where a message is: with its producer, in the channel, with the broadcaster, delivered, or dropped. */
  datatype Place = InFlight | Queued | Held | Delivered | Dropped

  /**
   * A client: its rooms at registration and now, the number of messages ever appended when it registered and when it
   * took its snapshot, the buffered messages still to be replayed, the copies it got, by message index, and the
   * frames written to its connection, in order.
   */
  datatype Client = Client(first: set<string>, rooms: set<string>, joined: nat, snapshot: Option<nat>,
                           pending: seq<Message>, replayed: multiset<nat>, live: multiset<nat>, frames: seq<Message>)

  /** `history` is every message ever appended; the channel and the broadcaster hold indices into it. */
  datatype State = State(history: seq<Message>, places: seq<Place>, buffer: seq<Message>, channel: seq<nat>,
                         held: Option<nat>, clients: map<nat, Client>)

  datatype Label =
    | Append(m: Message)
    | Send(i: nat)
    | Receive
    | Deliver
    | Register(c: nat, roomId: string)
    | Snapshot(c: nat)
    | Replay(c: nat)
    | AddRoom(c: nat, room: string)
    | Remove(cs: set<nat>)

  function Got(c: Client, i: nat, m: Message): Client {
    if IsSubscribed(c.rooms, m.room) then c.(live := c.live + multiset{i}, frames := c.frames + [m]) else c
  }

  /** The index of the next message to be replayed. */
  function NextIndex(c: Client): int {
    (if c.snapshot.Some? then c.snapshot.value else 0) - |c.pending|
  }

  function ReplayOne(c: Client): Client {
    if c.pending == [] || NextIndex(c) < 0 then c
    else
      var m := c.pending[0];
      var t := c.(pending := c.pending[1..]);
      if IsSubscribed(c.rooms, m.room)
      then t.(replayed := c.replayed + multiset{NextIndex(c)}, frames := c.frames + [m])
      else t
  }

  function Do(s: State, l: Label): State {
    match l
    case Append(m) =>
      s.(history := s.history + [m], places := s.places + [InFlight], buffer := Recent(s.buffer + [m]))
    case Send(i) =>
      if i >= |s.places| || s.places[i] != InFlight then s
      else if |s.channel| < CHANNEL_SIZE then s.(places := s.places[i := Queued], channel := s.channel + [i])
      else s.(places := s.places[i := Dropped])
    case Receive =>
      if s.held.Some? || s.channel == [] || s.channel[0] >= |s.places| then s
      else s.(places := s.places[s.channel[0] := Held], held := Some(s.channel[0]), channel := s.channel[1..])
    case Deliver =>
      if s.held.None? || s.held.value >= |s.places| || s.held.value >= |s.history| then s
      else
        var i := s.held.value;
        s.(places := s.places[i := Delivered], held := None,
           clients := map c | c in s.clients :: Got(s.clients[c], i, s.history[i]))
    case Register(c, roomId) =>
      if c in s.clients then s
      else
        var rooms := FirstRooms(roomId);
        s.(clients := s.clients[c := Client(rooms, rooms, |s.history|, None, [], multiset{}, multiset{}, [])])
    case Snapshot(c) =>
      if c !in s.clients || s.clients[c].snapshot.Some? then s
      else s.(clients := s.clients[c := s.clients[c].(snapshot := Some(|s.history|), pending := s.buffer)])
    case Replay(c) => if c !in s.clients then s else s.(clients := s.clients[c := ReplayOne(s.clients[c])])
    case AddRoom(c, room) =>
      if c !in s.clients then s
      else s.(clients := s.clients[c := s.clients[c].(rooms := s.clients[c].rooms + {room})])
    case Remove(cs) => s.(clients := s.clients - cs)
  }

  const EMPTY := State([], [], [], [], None, map[])

  function Exec(labels: seq<Label>): State {
    if labels == [] then EMPTY else Do(Exec(labels[..|labels| - 1]), labels[|labels| - 1])
  }

  // ---------- what every interleaving keeps ----------

  /** The channel and the broadcaster hold each message at most once. */
  predicate Placed(s: State) {
    && |s.places| == |s.history|
    && (forall k | 0 <= k < |s.channel| :: s.channel[k] < |s.places| && s.places[s.channel[k]] == Queued)
    && (forall j, k | 0 <= j < k < |s.channel| :: s.channel[j] != s.channel[k])
    && (s.held.Some? ==> s.held.value < |s.places| && s.places[s.held.value] == Held)
  }

  predicate Buffered(s: State) {
    s.buffer == Recent(s.history)
  }

  /** Broadcast copies: one of every subscribed message delivered since registration, none of any other. */
  predicate LiveCopies(s: State, c: Client) {
    && c.joined <= |s.history|
    && c.first != {} && c.first <= c.rooms
    && (forall i | i in c.live :: c.live[i] == 1 && i < |s.places| && s.places[i] == Delivered && i < |s.history|
                               && IsSubscribed(c.rooms, s.history[i].room))
    && (forall i | c.joined <= i < |s.places| && s.places[i] == Delivered && i < |s.history|
                && IsSubscribed(c.first, s.history[i].room) :: c.live[i] == 1)
  }

  /** Replayed copies: the buffer as it was at the snapshot, in order, up to what is still to be replayed. */
  predicate ReplayCopies(s: State, c: Client) {
    if c.snapshot.None? then c.pending == [] && c.replayed == multiset{}
    else
      var n, next := c.snapshot.value, NextIndex(c);
      && c.joined <= n <= |s.history|
      && Oldest(n) <= next && c.pending == s.history[next..n]
      && (forall i | i in c.replayed :: c.replayed[i] == 1 && Oldest(n) <= i < next
                                     && IsSubscribed(c.rooms, s.history[i].room))
      && (forall i | Oldest(n) <= i < next && IsSubscribed(c.first, s.history[i].room) :: c.replayed[i] == 1)
  }

  predicate Inv(s: State) {
    && Placed(s) && Buffered(s)
    && (forall c | c in s.clients :: LiveCopies(s, s.clients[c]) && ReplayCopies(s, s.clients[c]))
  }

  lemma PlacedStays(s: State, l: Label)
    requires Placed(s)
    ensures Placed(Do(s, l))
  {
  }

  lemma BufferedStays(s: State, l: Label)
    requires Buffered(s)
    ensures Buffered(Do(s, l))
  {
  }

  /** More messages, none of them delivered yet. */
  predicate Grown(s: State, t: State) {
    && |s.places| == |s.history| && |t.places| == |t.history| && s.history <= t.history
    && (forall i | 0 <= i < |t.places| :: t.places[i] == Delivered <==> i < |s.places| && s.places[i] == Delivered)
  }

  lemma GrownBy(s: State, l: Label)
    requires Placed(s) && !l.Deliver?
    ensures Grown(s, Do(s, l))
  {
  }

  lemma LiveStays(s: State, t: State, c: Client)
    requires Grown(s, t) && LiveCopies(s, c)
    ensures LiveCopies(t, c)
  {
  }

  lemma ReplayStays(s: State, t: State, c: Client)
    requires s.history <= t.history && ReplayCopies(s, c)
    ensures ReplayCopies(t, c)
  {
  }

  /** The broadcaster gives every subscribed client one copy of the message it holds. */
  lemma DeliverOne(s: State, t: State, c: Client, i: nat)
    requires |s.places| == |s.history| && i < |s.places| && s.places[i] == Held && LiveCopies(s, c)
    requires t.history == s.history && t.places == s.places[i := Delivered]
    ensures LiveCopies(t, Got(c, i, s.history[i]))
  {
  }

  lemma SnapshotOne(s: State, c: Client)
    requires Buffered(s) && ReplayCopies(s, c) && c.snapshot.None? && c.joined <= |s.history|
    ensures ReplayCopies(s, c.(snapshot := Some(|s.history|), pending := s.buffer))
  {
  }

  lemma ReplayNext(s: State, c: Client)
    requires ReplayCopies(s, c) && c.first != {} && c.first <= c.rooms
    ensures ReplayCopies(s, ReplayOne(c))
  {
  }

  lemma MoreRooms(s: State, c: Client, room: string)
    requires LiveCopies(s, c) && ReplayCopies(s, c)
    ensures LiveCopies(s, c.(rooms := c.rooms + {room})) && ReplayCopies(s, c.(rooms := c.rooms + {room}))
  {
  }

  /** A label that concerns one client: what it is afterwards still agrees with the history before. */
  lemma OwnStep(s: State, l: Label, c: nat)
    requires Buffered(s) && c in s.clients && LiveCopies(s, s.clients[c]) && ReplayCopies(s, s.clients[c])
    requires !l.Deliver? && c in Do(s, l).clients
    ensures LiveCopies(s, Do(s, l).clients[c]) && ReplayCopies(s, Do(s, l).clients[c])
  {
    match l {
      case Snapshot(d) =>
        if d == c && s.clients[c].snapshot.None? {
          SnapshotOne(s, s.clients[c]);
        }
      case Replay(d) =>
        if d == c {
          ReplayNext(s, s.clients[c]);
        }
      case AddRoom(d, room) =>
        if d == c {
          MoreRooms(s, s.clients[c], room);
        }
      case _ =>
    }
  }

  lemma NewClient(s: State, l: Label, c: nat)
    requires Placed(s) && c !in s.clients && c in Do(s, l).clients
    ensures LiveCopies(s, Do(s, l).clients[c]) && ReplayCopies(s, Do(s, l).clients[c])
  {
  }

  lemma ClientsStay(s: State, l: Label, c: nat)
    requires Placed(s) && Buffered(s) && c in Do(s, l).clients
    requires c in s.clients ==> LiveCopies(s, s.clients[c]) && ReplayCopies(s, s.clients[c])
    ensures LiveCopies(Do(s, l), Do(s, l).clients[c]) && ReplayCopies(Do(s, l), Do(s, l).clients[c])
  {
    if l.Deliver? {
      if s.held.Some? {
        var i, t := s.held.value, Do(s, l);
        DeliverOne(s, t, s.clients[c], i);
        ReplayStays(s, t, t.clients[c]);
      }
    } else {
      if c in s.clients {
        OwnStep(s, l, c);
      } else {
        NewClient(s, l, c);
      }
      GrownBy(s, l);
      LiveStays(s, Do(s, l), Do(s, l).clients[c]);
      ReplayStays(s, Do(s, l), Do(s, l).clients[c]);
    }
  }

  lemma {:induction false} InvRun(labels: seq<Label>)
    ensures Inv(Exec(labels))
  {
    if labels != [] {
      var s, l := Exec(labels[..|labels| - 1]), labels[|labels| - 1];
      InvRun(labels[..|labels| - 1]);
      PlacedStays(s, l);
      BufferedStays(s, l);
      forall c | c in Do(s, l).clients
        ensures LiveCopies(Do(s, l), Do(s, l).clients[c]) && ReplayCopies(Do(s, l), Do(s, l).clients[c])
      {
        ClientsStay(s, l, c);
      }
    }
  }

  // ---------- the guarantees ----------

  /** The buffer is always the last 500 messages appended, or all of them. */
  lemma {:induction false} BufferIsRecent(labels: seq<Label>)
    ensures var h := Exec(labels).history;
      Exec(labels).buffer == if |h| > 500 then h[|h| - 500..] else h
  {
    InvRun(labels);
  }

  /** No message reaches a client more than once replayed and once broadcast, and none it did not subscribe to. */
  lemma AtMostTwice(labels: seq<Label>, c: nat, i: nat)
    requires c in Exec(labels).clients
    ensures var k := Exec(labels).clients[c];
      && k.replayed[i] <= 1 && k.live[i] <= 1
      && (k.replayed[i] + k.live[i] > 0 ==>
            && i < |Exec(labels).history|
            && var room := Exec(labels).history[i].room;
               "*" in k.rooms || (room != "" && room in k.rooms))
  {
    InvRun(labels);
  }

  /** A message is replayed, about to be, or past the snapshot and broadcast once it is delivered. */
  predicate Covered(s: State, k: Client, i: nat)
    requires k.snapshot.Some? && i < |s.history|
  {
    && |s.places| == |s.history|
    && if i < k.snapshot.value
       then k.replayed[i] == 1 || (0 <= i - NextIndex(k) < |k.pending| && k.pending[i - NextIndex(k)] == s.history[i])
       else s.places[i] == Delivered ==> k.live[i] == 1
  }

  lemma CoveredByCopies(s: State, k: Client, i: nat)
    requires Placed(s) && LiveCopies(s, k) && ReplayCopies(s, k) && k.snapshot.Some?
    requires Oldest(k.snapshot.value) <= i < |s.history| && IsSubscribed(k.first, s.history[i].room)
    ensures Covered(s, k, i)
  {
  }

  /**
   * No gap: every message from 500 before a client's snapshot onward, in a room it asked for when it connected or of
   * any room when it asked for all, was replayed to it or is about to be, or was broadcast to it, is still under way,
   * or was dropped on a full channel.
   */
  lemma NoGap(labels: seq<Label>, c: nat, i: nat)
    requires c in Exec(labels).clients && Exec(labels).clients[c].snapshot.Some?
    requires Oldest(Exec(labels).clients[c].snapshot.value) <= i < |Exec(labels).history|
    requires var first, room := Exec(labels).clients[c].first, Exec(labels).history[i].room;
      "*" in first || (room != "" && room in first)
    ensures Covered(Exec(labels), Exec(labels).clients[c], i)
  {
    InvRun(labels);
    CoveredByCopies(Exec(labels), Exec(labels).clients[c], i);
  }

  /** A message is dropped exactly by its own send on a full channel. */
  lemma DroppedOnFullChannel(s: State, l: Label, i: nat)
    requires Placed(s) && i < |s.places| && s.places[i] != Dropped
    ensures Do(s, l).places[i] == Dropped <==> l == Send(i) && s.places[i] == InFlight && |s.channel| >= 200
  {
  }

  /** When all is quiet and nothing was dropped, every such message has reached the client, once or twice. */
  lemma QuietMeansReceived(labels: seq<Label>, c: nat, i: nat)
    requires c in Exec(labels).clients
    requires Exec(labels).clients[c].snapshot.Some? && Exec(labels).clients[c].pending == []
    requires Oldest(Exec(labels).clients[c].snapshot.value) <= i < |Exec(labels).history|
    requires var first, room := Exec(labels).clients[c].first, Exec(labels).history[i].room;
      "*" in first || (room != "" && room in first)
    requires forall j | 0 <= j < |Exec(labels).places| :: Exec(labels).places[j] == Delivered
    ensures 1 <= Exec(labels).clients[c].replayed[i] + Exec(labels).clients[c].live[i] <= 2
  {
    NoGap(labels, c, i);
    AtMostTwice(labels, c, i);
  }
}
