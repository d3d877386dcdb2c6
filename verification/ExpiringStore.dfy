/** The expiring store behind every counter and marker. Times are milliseconds. */
module ExpiringStore {
  import opened Keys
  import opened Options

  const SECOND := 1000
  const HOUR := 3600 * SECOND
  const DAY := 24 * HOUR

  /** A list holds chat messages, newest first, by their `IsBot` flags. */
  datatype Value = Number(n: int) | Text(s: string) | Messages(bots: seq<bool>)

  datatype Entry = Entry(value: Value, expiry: Option<int>)

  datatype Store = Store(now: int, entries: map<Key, Entry>)

  /** EXPIRE takes whole seconds: the client drops the rest of a duration. Milliseconds stands for an exact client. */
  datatype Precision = Milliseconds | WholeSeconds

  function Kept(p: Precision, ttl: int): int {
    if p.Milliseconds? then ttl
    else if 0 < ttl < SECOND then SECOND
    else ttl - ttl % SECOND
  }

  /** It is the largest number of whole seconds in the duration, but at least one. */
  lemma KeptExactly(ttl: int, seconds: int)
    requires ttl > 0
    ensures Kept(WholeSeconds, ttl) == seconds * 1000
       <==> if ttl < 1000 then seconds == 1 else seconds * 1000 <= ttl < (seconds + 1) * 1000
    ensures Kept(Milliseconds, ttl) == ttl
  {
  }

  predicate Live(s: Store, k: Key) {
    k in s.entries && (s.entries[k].expiry.Some? ==> s.now < s.entries[k].expiry.value)
  }

  function Get(s: Store, k: Key): Option<Value> {
    if Live(s, k) then Some(s.entries[k].value) else None
  }

  /** The number a counter stands at; a missing counter stands at zero. */
  function Counter(s: Store, k: Key): int {
    if Live(s, k) && s.entries[k].value.Number? then s.entries[k].value.n else 0
  }

  function Advance(s: Store, d: nat): Store {
    s.(now := s.now + d)
  }

  /** SET with a time to live; without a positive one the value stays. */
  function Set(s: Store, k: Key, v: Value, ttl: int): Store {
    s.(entries := s.entries[k := Entry(v, if ttl > 0 then Some(s.now + ttl) else None)])
  }

  /** SETNX with a time to live. */
  function SetNX(s: Store, k: Key, v: Value, ttl: int): Store {
    if Live(s, k) then s else Set(s, k, v, ttl)
  }

  /** INCR keeps the time to live, and refuses a value that is not a number. */
  function Incr(s: Store, k: Key): Option<Store> {
    if !Live(s, k) then Some(s.(entries := s.entries[k := Entry(Number(1), None)]))
    else match s.entries[k].value
      case Number(n) => Some(s.(entries := s.entries[k := s.entries[k].(value := Number(n + 1))]))
      case _ => None
  }

  function Expire(s: Store, k: Key, ttl: int): Store {
    if !Live(s, k) then s
    else if ttl <= 0 then s.(entries := s.entries - {k})
    else s.(entries := s.entries[k := s.entries[k].(expiry := Some(s.now + ttl))])
  }

  /** A live key lives on for a positive time, to the instant, and is removed otherwise; a dead key stays dead. */
  lemma ExpireExactly(s: Store, k: Key, ttl: int, d: nat)
    ensures Live(Advance(Expire(s, k, ttl), d), k) <==> Live(s, k) && d < ttl
  {
  }

  /** The newest `n` messages, or all if there are fewer. */
  function Newest(list: seq<bool>, n: nat): seq<bool> {
    if |list| > n then list[..n] else list
  }

  /** LRANGE from 0 to `limit - 1`, where a negative end counts from the last element. */
  function Range(list: seq<bool>, limit: int): seq<bool> {
    if limit > 0 then Newest(list, limit) else if |list| + limit > 0 then list[..|list| + limit] else []
  }

  /** The list under a key; a missing key is an empty list, and another value an error. */
  function ListAt(s: Store, k: Key): Option<seq<bool>> {
    if !Live(s, k) then Some([])
    else match s.entries[k].value
      case Messages(bots) => Some(bots)
      case _ => None
  }

  /** LPUSH keeps the time to live. */
  function LPush(s: Store, k: Key, bot: bool): Option<Store> {
    match ListAt(s, k)
    case None => None
    case Some(list) =>
      var expiry := if Live(s, k) then s.entries[k].expiry else None;
      Some(s.(entries := s.entries[k := Entry(Messages([bot] + list), expiry)]))
  }

  /** LTRIM to the first `n > 0` elements. */
  function LTrim(s: Store, k: Key, n: nat): Option<Store> {
    match ListAt(s, k)
    case None => None
    case Some(list) =>
      Some(if Live(s, k) then s.(entries := s.entries[k := s.entries[k].(value := Messages(Newest(list, n)))]) else s)
  }

  /** Nothing about a key has changed. */
  predicate SameEntry(s: Store, t: Store, k: Key) {
    t.now == s.now && (k in t.entries <==> k in s.entries) && (k in s.entries ==> t.entries[k] == s.entries[k])
  }

  /** The outcome of sending a command: it ran, it did not run, or it ran and its reply was lost. */
  datatype Fault = Fine | Refused | Lost

  /** A key set while it was dead, for `ttl` milliseconds or, when that is not positive, for good. */
  datatype Lease = Lease(key: Key, from: int, ttl: int)

  predicate Running(l: Lease, now: int) {
    l.ttl <= 0 || now < l.from + l.ttl
  }

  /** Every lease that runs still has its key in the store, for at least as long. */
  predicate Held(s: Store, ls: seq<Lease>) {
    forall i | 0 <= i < |ls| ::
      && ls[i].from <= s.now
      && (Running(ls[i], s.now) ==> ls[i].key in s.entries && Outlasts(s.entries[ls[i].key], ls[i]))
  }

  predicate Outlasts(e: Entry, l: Lease) {
    e.expiry.Some? ==> l.ttl > 0 && l.from + l.ttl <= e.expiry.value
  }

  /** Two leases of one key never overlap. */
  predicate Apart(ls: seq<Lease>) {
    forall i, j | 0 <= i < j < |ls| && ls[i].key == ls[j].key :: ls[i].ttl > 0 && ls[i].from + ls[i].ttl <= ls[j].from
  }

  /** Taking a lease on a dead key keeps all leases held and apart. */
  lemma TakeLease(s: Store, ls: seq<Lease>, k: Key, v: Value, ttl: int)
    requires Held(s, ls) && Apart(ls) && !Live(s, k)
    ensures Held(Set(s, k, v, ttl), ls + [Lease(k, s.now, ttl)]) && Apart(ls + [Lease(k, s.now, ttl)])
  {
  }

  /** Time and writes to other keys leave leases held. */
  lemma OtherKeys(s: Store, t: Store, ls: seq<Lease>)
    requires Held(s, ls) && s.now <= t.now
    requires forall i | 0 <= i < |ls| && ls[i].key in s.entries ::
               ls[i].key in t.entries && t.entries[ls[i].key] == s.entries[ls[i].key]
    ensures Held(t, ls)
  {
  }
}
