/** The Redis client: one method per command, on an expiring store with an explicit clock. */
module Redis {
  import opened Keys
  import opened ExpiringStore
  import opened Options
  import S = ExpiringStore

  class RedisClient {
    var now: int
    var entries: map<Key, Entry>
    const precision: Precision

    constructor (now: int, precision: Precision)
      ensures State() == Store(now, map[]) && this.precision == precision
    {
      this.now, this.entries, this.precision := now, map[], precision;
    }

    function State(): Store
      reads this
    {
      Store(now, entries)
    }

    method Wait(d: nat)
      modifies this
      ensures State() == Advance(old(State()), d)
    {
      now := now + d;
    }

    method Get(k: Key) returns (v: Option<Value>)
      ensures v == S.Get(State(), k)
    {
      if k in entries && (entries[k].expiry.None? || now < entries[k].expiry.value) {
        v := Some(entries[k].value);
      } else {
        v := None;
      }
    }

    method Exists(k: Key) returns (b: bool)
      ensures b <==> Live(State(), k)
    {
      var v := Get(k);
      b := v.Some?;
    }

    method SetWithTTL(k: Key, v: Value, ttl: int)
      modifies this
      ensures State() == S.Set(old(State()), k, v, ttl)
    {
      entries := entries[k := Entry(v, if ttl > 0 then Some(now + ttl) else None)];
    }

    method SetNX(k: Key, v: Value, ttl: int) returns (wasSet: bool)
      modifies this
      ensures wasSet <==> !Live(old(State()), k)
      ensures State() == S.SetNX(old(State()), k, v, ttl)
    {
      var present := Exists(k);
      wasSet := !present;
      if wasSet {
        SetWithTTL(k, v, ttl);
      }
    }

    method Incr(k: Key) returns (count: Option<int>)
      modifies this
      ensures match S.Incr(old(State()), k)
        case None => count.None? && State() == old(State())
        case Some(s) => count == Some(Counter(old(State()), k) + 1) && State() == s && Counter(s, k) == count.value
    {
      var v := Get(k);
      if v.None? {
        entries := entries[k := Entry(Number(1), None)];
        count := Some(1);
      } else if v.value.Number? {
        entries := entries[k := entries[k].(value := Number(v.value.n + 1))];
        count := Some(v.value.n + 1);
      } else {
        count := None;
      }
    }

    method Expire(k: Key, ttl: int)
      modifies this
      ensures State() == S.Expire(old(State()), k, Kept(precision, ttl))
    {
      var present := Exists(k);
      var t := Kept(precision, ttl);
      if present && t <= 0 {
        entries := entries - {k};
      } else if present {
        entries := entries[k := entries[k].(expiry := Some(now + t))];
      }
    }

    /** LPUSH, refused on a value that is not a list. */
    method LPush(k: Key, bot: bool) returns (ok: bool)
      modifies this
      ensures match S.LPush(old(State()), k, bot)
        case None => !ok && State() == old(State())
        case Some(s) => ok && State() == s
    {
      var v := Get(k);
      ok := v.None? || v.value.Messages?;
      if v.None? {
        entries := entries[k := Entry(Messages([bot]), None)];
        assert [bot] + [] == [bot];
      } else if ok {
        entries := entries[k := entries[k].(value := Messages([bot] + v.value.bots))];
      }
    }

    method LTrim(k: Key, n: nat) returns (ok: bool)
      modifies this
      ensures match S.LTrim(old(State()), k, n)
        case None => !ok && State() == old(State())
        case Some(s) => ok && State() == s
    {
      var v := Get(k);
      ok := v.None? || v.value.Messages?;
      if v.Some? && ok {
        entries := entries[k := entries[k].(value := Messages(Newest(v.value.bots, n)))];
      }
    }

    /** LRANGE from 0 to `limit - 1`. */
    method LRange(k: Key, limit: int) returns (list: Option<seq<bool>>)
      ensures list == match ListAt(State(), k) case None => None case Some(l) => Some(Range(l, limit))
    {
      var v := Get(k);
      match v {
        case None => list := Some([]);
        case Some(Messages(bots)) => list := Some(Range(bots, limit));
        case Some(_) => list := None;
      }
    }
  }
}
