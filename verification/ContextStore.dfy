/** The chat window of `context_store.go`: a primary and a legacy list per room, in the expiring store. */
module ContextStore {
  import opened Keys
  import opened ExpiringStore
  import opened Options
  import opened Policy
  import opened Redis

  /** How long a room is kept after its last message. */
  const ROOM_TTL := 6 * HOUR

  /** The commands of a push. */
  const COMMANDS := 6

  /** One of them: LPUSH, LTRIM and EXPIRE, each on the primary and then on the legacy list. */
  function Command(s: Store, room: string, bot: bool, i: nat): Option<Store> {
    match i
    case 0 => LPush(s, ChatKey(room), bot)
    case 1 => LPush(s, LegacyKey(room), bot)
    case 2 => LTrim(s, ChatKey(room), WINDOW)
    case 3 => LTrim(s, LegacyKey(room), WINDOW)
    case 4 => Some(Expire(s, ChatKey(room), ROOM_TTL))
    case _ => Some(Expire(s, LegacyKey(room), ROOM_TTL))
  }

  /** The first `n` commands, up to one that is refused; false when one is. */
  function Pushing(s: Store, room: string, bot: bool, n: nat): (Store, bool) {
    if n == 0 then (s, true)
    else
      var (t, ok) := Pushing(s, room, bot, n - 1);
      if !ok then (t, false)
      else match Command(t, room, bot, n - 1)
        case None => (t, false)
        case Some(u) => (u, true)
  }

  /** `PushChatMessage` when it comes to an end after `n` commands. */
  function PushUpTo(s: Store, room: string, bot: bool, n: nat): Store {
    Pushing(s, room, bot, if n < COMMANDS then n else COMMANDS).0
  }

  function PushChat(s: Store, room: string, bot: bool): Store {
    PushUpTo(s, room, bot, COMMANDS)
  }

  /** `GetRecentChatWindow`: the legacy list is read when the primary one gives nothing. */
  function RecentWindow(s: Store, room: string, limit: int): Option<seq<bool>> {
    match ListAt(s, ChatKey(room))
    case None => None
    case Some(chat) =>
      if Range(chat, limit) != [] then Some(Range(chat, limit))
      else
        match ListAt(s, LegacyKey(room))
        case None => None
        case Some(legacy) => Some(Range(legacy, limit))
  }

  class ContextStore {
    const redis: RedisClient

    constructor (redis: RedisClient)
      ensures this.redis == redis
    {
      this.redis := redis;
    }

    /** `n` is the number of commands that run before one fails. */
    method PushChatMessage(room: string, bot: bool, n: nat)
      modifies redis
      ensures redis.State() == PushUpTo(old(redis.State()), room, bot, n)
    {
      assert Kept(redis.precision, ROOM_TTL) == ROOM_TTL;
      ghost var s := redis.State();
      var ok, i := true, 0;
      while ok && i < n && i < COMMANDS
        invariant i <= COMMANDS && i <= n
        invariant (redis.State(), ok) == Pushing(s, room, bot, i)
        decreases n - i
      {
        ok := RunCommand(room, bot, i);
        i := i + 1;
      }
      if !ok {
        PushingStopped(s, room, bot, i, if n < COMMANDS then n else COMMANDS);
      }
    }

    method RunCommand(room: string, bot: bool, i: nat) returns (ok: bool)
      requires Kept(redis.precision, ROOM_TTL) == ROOM_TTL
      modifies redis
      ensures match Command(old(redis.State()), room, bot, i)
        case None => !ok && redis.State() == old(redis.State())
        case Some(t) => ok && redis.State() == t
    {
      match i {
        case 0 => ok := redis.LPush(ChatKey(room), bot);
        case 1 => ok := redis.LPush(LegacyKey(room), bot);
        case 2 => ok := redis.LTrim(ChatKey(room), WINDOW);
        case 3 => ok := redis.LTrim(LegacyKey(room), WINDOW);
        case 4 =>
          redis.Expire(ChatKey(room), ROOM_TTL);
          ok := true;
        case _ =>
          redis.Expire(LegacyKey(room), ROOM_TTL);
          ok := true;
      }
    }

    /** Nothing when a read fails. */
    method GetRecentChatWindow(room: string, limit: int, f: Fault) returns (messages: Option<seq<bool>>)
      ensures messages == if f.Fine? then RecentWindow(redis.State(), room, limit) else None
    {
      if !f.Fine? {
        return None;
      }
      messages := redis.LRange(ChatKey(room), limit);
      if messages == Some([]) {
        messages := redis.LRange(LegacyKey(room), limit);
      }
    }
  }

  // ---------- what a window holds over a run ----------

  /** Only lists that are not empty are ever stored under the keys of a room. */
  predicate Typed(s: Store, k: Key) {
    k in s.entries ==> s.entries[k].value.Messages? && s.entries[k].value.bots != []
  }

  /** The key holds the list, until the given time. */
  predicate Holds(s: Store, k: Key, list: seq<bool>, until: int) {
    k in s.entries && s.entries[k] == Entry(Messages(list), Some(until))
  }

  function LiveList(s: Store, k: Key): seq<bool> {
    if Live(s, k) && s.entries[k].value.Messages? then s.entries[k].value.bots else []
  }

  lemma {:induction false} PushingStopped(s: Store, room: string, bot: bool, i: nat, n: nat)
    requires i <= n && !Pushing(s, room, bot, i).1
    ensures Pushing(s, room, bot, n) == Pushing(s, room, bot, i)
  {
    if i < n {
      PushingStopped(s, room, bot, i, n - 1);
    }
  }

  /** A list that is not empty, and its expiry. */
  predicate Carries(s: Store, k: Key, list: seq<bool>, expiry: Option<int>) {
    && k in s.entries && s.entries[k] == Entry(Messages(list), expiry)
    && list != [] && (expiry.Some? ==> s.now < expiry.value)
  }

  lemma LPushCarries(s: Store, k: Key, bot: bool)
    requires Typed(s, k)
    ensures var t := LPush(s, k, bot);
      && t.Some? && t.value.now == s.now
      && Carries(t.value, k, [bot] + LiveList(s, k), if Live(s, k) then s.entries[k].expiry else None)
      && forall l | l != k :: SameEntry(s, t.value, l)
  {
  }

  lemma LTrimCarries(s: Store, k: Key, list: seq<bool>, expiry: Option<int>)
    requires Carries(s, k, list, expiry)
    ensures var t := LTrim(s, k, WINDOW);
      && t.Some? && t.value.now == s.now && Carries(t.value, k, Newest(list, WINDOW), expiry)
      && forall l | l != k :: SameEntry(s, t.value, l)
  {
  }

  lemma ExpireCarries(s: Store, k: Key, list: seq<bool>, expiry: Option<int>)
    requires Carries(s, k, list, expiry)
    ensures var t := Expire(s, k, ROOM_TTL);
      && t.now == s.now && Carries(t, k, list, Some(s.now + ROOM_TTL))
      && forall l | l != k :: SameEntry(s, t, l)
  {
  }

  /** What the first `n` commands leave under a key of the room: nothing yet, the new list, trimmed, kept six hours. */
  predicate Pushed(s: Store, t: Store, k: Key, bot: bool, started: bool, trimmed: bool, kept: bool) {
    var list := [bot] + LiveList(s, k);
    && t.now == s.now
    && if !started then SameEntry(s, t, k)
       else Carries(t, k, if trimmed then Newest(list, WINDOW) else list,
                    if kept then Some(s.now + ROOM_TTL) else if Live(s, k) then s.entries[k].expiry else None)
  }

  lemma {:induction false} PushingPushes(s: Store, room: string, bot: bool, n: nat)
    requires n <= COMMANDS && Typed(s, ChatKey(room)) && Typed(s, LegacyKey(room))
    ensures var (t, ok) := Pushing(s, room, bot, n);
      && ok && Pushed(s, t, ChatKey(room), bot, n > 0, n > 2, n > 4)
      && Pushed(s, t, LegacyKey(room), bot, n > 1, n > 3, n > 5)
  {
    if n > 0 {
      PushingPushes(s, room, bot, n - 1);
      NextCommand(s, Pushing(s, room, bot, n - 1).0, room, bot, n - 1);
    }
  }

  lemma NextCommand(s: Store, t: Store, room: string, bot: bool, n: nat)
    requires n < COMMANDS && Typed(s, ChatKey(room)) && Typed(s, LegacyKey(room))
    requires Pushed(s, t, ChatKey(room), bot, n > 0, n > 2, n > 4)
    requires Pushed(s, t, LegacyKey(room), bot, n > 1, n > 3, n > 5)
    ensures var u := Command(t, room, bot, n);
      && u.Some? && Pushed(s, u.value, ChatKey(room), bot, n + 1 > 0, n + 1 > 2, n + 1 > 4)
      && Pushed(s, u.value, LegacyKey(room), bot, n + 1 > 1, n + 1 > 3, n + 1 > 5)
  {
    var chat, legacy := [bot] + LiveList(s, ChatKey(room)), [bot] + LiveList(s, LegacyKey(room));
    var was := if Live(s, ChatKey(room)) then s.entries[ChatKey(room)].expiry else None;
    var old_ := if Live(s, LegacyKey(room)) then s.entries[LegacyKey(room)].expiry else None;
    match n {
      case 0 => LPushCarries(t, ChatKey(room), bot);
      case 1 => LPushCarries(t, LegacyKey(room), bot);
      case 2 => LTrimCarries(t, ChatKey(room), chat, was);
      case 3 => LTrimCarries(t, LegacyKey(room), legacy, old_);
      case 4 => ExpireCarries(t, ChatKey(room), Newest(chat, WINDOW), was);
      case 5 => ExpireCarries(t, LegacyKey(room), Newest(legacy, WINDOW), old_);
    }
  }

  /** A push puts the message in front of both lists, keeps the newest 50, and keeps them for six hours from now. */
  lemma PushedRoom(s: Store, room: string, bot: bool)
    requires Typed(s, ChatKey(room)) && Typed(s, LegacyKey(room))
    ensures var t := PushChat(s, room, bot);
      && t.now == s.now
      && Holds(t, ChatKey(room), Newest([bot] + LiveList(s, ChatKey(room)), 50), s.now + 6 * 3600 * 1000)
      && Holds(t, LegacyKey(room), Newest([bot] + LiveList(s, LegacyKey(room)), 50), s.now + 6 * 3600 * 1000)
  {
    PushingPushes(s, room, bot, COMMANDS);
  }

  predicate LastsUntil(s: Store, k: Key, t: int) {
    k in s.entries && (s.entries[k].expiry.Some? ==> t <= s.entries[k].expiry.value)
  }

  /** However far a push gets, both keys hold lists, and the primary one lasts as long as before, or six hours. */
  lemma PartlyPushed(s: Store, room: string, bot: bool, n: nat, until: int)
    requires Typed(s, ChatKey(room)) && Typed(s, LegacyKey(room)) && until <= s.now + ROOM_TTL
    ensures var t := PushUpTo(s, room, bot, n);
      && t.now == s.now && Typed(t, ChatKey(room)) && Typed(t, LegacyKey(room))
      && (n > 4 || LastsUntil(s, ChatKey(room), until) ==> LastsUntil(t, ChatKey(room), until))
  {
    PushingPushes(s, room, bot, if n < COMMANDS then n else COMMANDS);
  }

  lemma {:induction false} PushingLeaves(s: Store, room: string, bot: bool, n: nat, k: Key)
    requires k != ChatKey(room) && k != LegacyKey(room)
    ensures SameEntry(s, Pushing(s, room, bot, n).0, k)
  {
    if n > 0 {
      PushingLeaves(s, room, bot, n - 1, k);
      var (t, ok) := Pushing(s, room, bot, n - 1);
      if Command(t, room, bot, n - 1).Some? {
        CommandLeaves(t, room, bot, n - 1, k);
      }
    }
  }

  lemma CommandLeaves(s: Store, room: string, bot: bool, i: nat, k: Key)
    requires k != ChatKey(room) && k != LegacyKey(room) && Command(s, room, bot, i).Some?
    ensures SameEntry(s, Command(s, room, bot, i).value, k)
  {
  }

  lemma PushLeaves(s: Store, room: string, bot: bool, n: nat, k: Key)
    requires k != ChatKey(room) && k != LegacyKey(room)
    ensures SameEntry(s, PushUpTo(s, room, bot, n), k)
  {
    PushingLeaves(s, room, bot, if n < COMMANDS then n else COMMANDS, k);
  }

  datatype Op = Wait(d: nat) | Say(room: string, bot: bool)

  function Apply(s: Store, op: Op): Store {
    match op
    case Wait(d) => Advance(s, d)
    case Say(room, bot) => PushChat(s, room, bot)
  }

  function Follow(now: int, ops: seq<Op>): Store {
    if ops == [] then Store(now, map[]) else Apply(Follow(now, ops[..|ops| - 1]), ops[|ops| - 1])
  }

  /** A conversation: everything said since the last silence of six hours, newest first, and when it falls silent. */
  datatype Talk = Talk(now: int, said: seq<bool>, until: int)

  function Since(t: Talk): seq<bool> {
    if t.now < t.until then t.said else []
  }

  function Listen(now: int, ops: seq<Op>, room: string): Talk {
    if ops == [] then Talk(now, [], now)
    else
      var t := Listen(now, ops[..|ops| - 1], room);
      match ops[|ops| - 1]
      case Wait(d) => t.(now := t.now + d)
      case Say(r, bot) => if r == room then Talk(t.now, [bot] + Since(t), t.now + ROOM_TTL) else t
  }

  /** Both lists of a room hold the newest 50 messages of its conversation. */
  predicate Keeps(s: Store, room: string, t: Talk) {
    && s.now == t.now
    && if t.said == [] then ChatKey(room) !in s.entries && LegacyKey(room) !in s.entries && t.until <= t.now
       else
         && Holds(s, ChatKey(room), Newest(t.said, WINDOW), t.until)
         && Holds(s, LegacyKey(room), Newest(t.said, WINDOW), t.until)
  }

  lemma KeepsStep(s: Store, room: string, t: Talk, r: string, bot: bool)
    requires Keeps(s, room, t)
    ensures Keeps(PushChat(s, r, bot), room, if r == room then Talk(t.now, [bot] + Since(t), t.now + ROOM_TTL) else t)
  {
    if r == room {
      PushedRoom(s, room, bot);
      assert Newest([bot] + Newest(t.said, WINDOW), WINDOW) == Newest([bot] + t.said, WINDOW);
    } else {
      PushLeaves(s, r, bot, COMMANDS, ChatKey(room));
      PushLeaves(s, r, bot, COMMANDS, LegacyKey(room));
    }
  }

  lemma {:induction false} KeepsRun(now: int, ops: seq<Op>, room: string)
    ensures Keeps(Follow(now, ops), room, Listen(now, ops, room))
  {
    if ops != [] {
      var s, t := Follow(now, ops[..|ops| - 1]), Listen(now, ops[..|ops| - 1], room);
      KeepsRun(now, ops[..|ops| - 1], room);
      match ops[|ops| - 1] {
        case Wait(d) =>
        case Say(r, bot) => KeepsStep(s, room, t, r, bot);
      }
    }
  }

  /**
   * In every run of pushes to any rooms, a window is the newest messages, 50 at most, pushed to the room since it was
   * last silent for six hours, and the legacy list never has more to give.
   */
  lemma WindowIsRecent(now: int, ops: seq<Op>, room: string, limit: int)
    requires limit > 0
    ensures var said := Since(Listen(now, ops, room));
      RecentWindow(Follow(now, ops), room, limit) == Some(Newest(said, if limit < 50 then limit else 50))
  {
    KeepsRun(now, ops, room);
    var t := Listen(now, ops, room);
    assert Range(Newest(t.said, WINDOW), limit) == Newest(t.said, if limit < WINDOW then limit else WINDOW);
  }
}
