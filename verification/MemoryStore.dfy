/** The in-memory key-value store: values with an expiry time, lists, and sets
    ordered by score. One call is one atomic step; `now` is the clock it reads. */
module MemoryStore {
  import opened Wrappers
  import opened WorkerTypes
  import opened Lists

  datatype Entry = Entry(value: Value, expiresAt: Option<int>)
  datatype Scored = Scored(member: JobId, score: int)

  datatype Lines = Lines(lists: map<Key, seq<JobId>>, zsets: map<Key, seq<Scored>>)

  /** `order` lists the keys of `kv` in the order they were first set. */
  datatype Contents = Contents(kv: map<Key, Entry>, order: seq<Key>, lines: Lines)

  const EMPTY := Contents(map[], [], Lines(map[], map[]))

  // ---------------------------------------------------------------- expiring values

  predicate Live(c: Contents, key: Key, now: int) {
    key in c.kv && (c.kv[key].expiresAt.Some? ==> now <= c.kv[key].expiresAt.value)
  }

  /** A missing time to live and a time to live of zero both mean "never". */
  function Deadline(now: int, ttlMs: int): Option<int> { if ttlMs == 0 then None else Some(now + ttlMs) }

  function Put(c: Contents, key: Key, value: Value, deadline: Option<int>): Contents {
    c.(kv := c.kv[key := Entry(value, deadline)], order := if key in c.kv then c.order else c.order + [key])
  }

  function Drop(c: Contents, key: Key): Contents {
    c.(kv := c.kv - {key}, order := Without(c.order, key))
  }

  /** What a read leaves behind: an expired entry is deleted when it is met. */
  function Settled(c: Contents, key: Key, now: int): Contents {
    if key in c.kv && !Live(c, key, now) then Drop(c, key) else c
  }

  function CountOf(v: Value): int { if v.NumberText? then v.n else 0 }

  function NextCount(c: Contents, key: Key, now: int): int {
    if Live(c, key, now) then CountOf(c.kv[key].value) + 1 else 1
  }

  /** PTTL: -2 without the key, -1 without an expiry, never below zero otherwise. */
  function TimeLeft(c: Contents, key: Key, now: int): int {
    if key !in c.kv then -2
    else if c.kv[key].expiresAt == None then -1
    else if c.kv[key].expiresAt.value < now then 0
    else c.kv[key].expiresAt.value - now
  }

  // ---------------------------------------------------------------- lists

  function ListAt(l: Lines, key: Key): seq<JobId> { if key in l.lists then l.lists[key] else [] }

  function Pushed(l: Lines, key: Key, id: JobId): Lines {
    l.(lists := l.lists[key := ListAt(l, key) + [id]])
  }

  function Popped(l: Lines, key: Key): Lines {
    if ListAt(l, key) == [] then l else l.(lists := l.lists[key := ListAt(l, key)[1..]])
  }

  function Removed(l: Lines, key: Key, id: JobId): Lines {
    if key in l.lists then l.(lists := l.lists[key := Without(l.lists[key], id)]) else l
  }

  // ---------------------------------------------------------------- scored sets

  function SetAt(l: Lines, key: Key): seq<Scored> { if key in l.zsets then l.zsets[key] else [] }

  function Members(z: seq<Scored>): (r: seq<JobId>)
    ensures |r| == |z|
    ensures forall i | 0 <= i < |z| :: r[i] == z[i].member
  {
    if z == [] then [] else [z[0].member] + Members(z[1..])
  }

  /** Map.set: an existing member is rescored where it stands, a new one goes last. */
  function Rescored(z: seq<Scored>, x: Scored): (r: seq<Scored>)
    ensures Members(r) == if x.member in Members(z) then Members(z) else Members(z) + [x.member]
    ensures x in r && forall y: Scored | y.member != x.member :: y in r <==> y in z
  {
    if z == [] then [x]
    else if z[0].member == x.member then
      assert ([x] + z[1..])[1..] == z[1..];
      [x] + z[1..]
    else
      var tail := Rescored(z[1..], x);
      assert ([z[0]] + tail)[1..] == tail;
      assert Members(z) == [z[0].member] + Members(z[1..]);
      [z[0]] + tail
  }

  function Unscored(z: seq<Scored>, id: JobId): (r: seq<Scored>)
    ensures Members(r) == Without(Members(z), id)
    ensures forall y: Scored :: y in r <==> y in z && y.member != id
  {
    if z == [] then []
    else if z[0].member == id then Unscored(z[1..], id)
    else [z[0]] + Unscored(z[1..], id)
  }

  function ScoredIn(l: Lines, key: Key, x: Scored): Lines {
    l.(zsets := l.zsets[key := Rescored(SetAt(l, key), x)])
  }

  function ScoredOut(l: Lines, key: Key, id: JobId): Lines {
    if key in l.zsets then l.(zsets := l.zsets[key := Unscored(l.zsets[key], id)]) else l
  }

  function Within(z: seq<Scored>, min: int, max: int): (r: seq<Scored>)
    ensures forall y: Scored :: y in r <==> y in z && min <= y.score <= max
  {
    if z == [] then []
    else if min <= z[0].score <= max then [z[0]] + Within(z[1..], min, max)
    else Within(z[1..], min, max)
  }

  /** Array.sort by score is stable: an earlier element stays ahead of those it ties with. */
  function Inserted(x: Scored, sorted: seq<Scored>): (r: seq<Scored>)
    ensures multiset(r) == multiset(sorted) + multiset{x}
  {
    if sorted == [] || x.score <= sorted[0].score then [x] + sorted
    else
      assert sorted == [sorted[0]] + sorted[1..];
      [sorted[0]] + Inserted(x, sorted[1..])
  }

  function SortByScore(z: seq<Scored>): (r: seq<Scored>)
    ensures multiset(r) == multiset(z)
  {
    if z == [] then []
    else
      assert z == [z[0]] + z[1..];
      Inserted(z[0], SortByScore(z[1..]))
  }

  /** Entries of one score keep the order they had. */
  lemma {:induction false} SortIsStable(z: seq<Scored>, score: int)
    ensures Within(SortByScore(z), score, score) == Within(z, score, score)
  {
    if z != [] {
      SortIsStable(z[1..], score);
      InsertedFirst(z[0], SortByScore(z[1..]), score);
      assert ([z[0]] + SortByScore(z[1..]))[1..] == SortByScore(z[1..]);
    }
  }

  lemma {:induction false} InsertedFirst(x: Scored, sorted: seq<Scored>, score: int)
    ensures Within(Inserted(x, sorted), score, score) == Within([x] + sorted, score, score)
  {
    assert ([x] + sorted)[1..] == sorted;
    if sorted != [] && x.score > sorted[0].score {
      InsertedFirst(x, sorted[1..], score);
      assert ([x] + sorted[1..])[1..] == sorted[1..];
      assert ([sorted[0]] + Inserted(x, sorted[1..]))[1..] == Inserted(x, sorted[1..]);
    }
  }

  function RangeByScore(z: seq<Scored>, min: int, max: int): seq<JobId> {
    Members(SortByScore(Within(z, min, max)))
  }

  class Store {
    var kv: map<Key, Entry>
    var order: seq<Key>
    var lists: map<Key, seq<JobId>>
    var zsets: map<Key, seq<Scored>>

    ghost function View(): Contents
      reads this
    {
      Contents(kv, order, Lines(lists, zsets))
    }

    constructor ()
      ensures View() == EMPTY
    {
      kv, order, lists, zsets := map[], [], map[], map[];
    }

    method Set(key: Key, value: Value, ttlMs: int, now: int)
      modifies this
      ensures View() == Put(old(View()), key, value, Deadline(now, ttlMs))
      ensures kv == old(kv)[key := Entry(value, if ttlMs == 0 then None else Some(now + ttlMs))]
    {
      if key !in kv { order := order + [key]; }
      kv := kv[key := Entry(value, if ttlMs != 0 then Some(now + ttlMs) else None)];
    }

    method Expired(key: Key, now: int) returns (expired: bool)
      modifies this
      ensures expired == !Live(old(View()), key, now)
      ensures expired <==> key in old(kv) ==> old(kv)[key].expiresAt.Some? && old(kv)[key].expiresAt.value < now
      ensures View() == Settled(old(View()), key, now)
      ensures kv == if expired then old(kv) - {key} else old(kv)
    {
      if key !in kv { return true; }
      if kv[key].expiresAt.Some? && kv[key].expiresAt.value < now {
        kv, order := kv - {key}, Without(order, key);
        return true;
      }
      return false;
    }

    method Get(key: Key, now: int) returns (value: Option<Value>)
      modifies this
      ensures value == if Live(old(View()), key, now) then Some(old(kv)[key].value) else None
      ensures View() == Settled(old(View()), key, now)
    {
      var expired := Expired(key, now);
      if expired { return None; }
      return Some(kv[key].value);
    }

    method Del(key: Key)
      modifies this
      ensures View() == Drop(old(View()), key)
    {
      kv, order := kv - {key}, Without(order, key);
    }

    method SetNx(key: Key, value: Value, ttlMs: int, now: int) returns (claimed: bool)
      modifies this
      ensures claimed == !Live(old(View()), key, now)
      ensures View() ==
        if claimed then Put(Settled(old(View()), key, now), key, value, Deadline(now, ttlMs)) else old(View())
    {
      claimed := Expired(key, now);
      if claimed { Set(key, value, ttlMs, now); }
    }

    method Incr(key: Key, ttlMs: int, now: int) returns (next: int)
      modifies this
      ensures next == NextCount(old(View()), key, now)
      ensures View() == Put(Settled(old(View()), key, now), key, NumberText(next), Deadline(now, ttlMs))
    {
      var expired := Expired(key, now);
      var current := if expired then 0 else CountOf(kv[key].value);
      next := current + 1;
      Set(key, NumberText(next), ttlMs, now);
    }

    method Expire(key: Key, ttlMs: int, now: int)
      modifies this
      ensures View() ==
        if key in old(kv) then Put(old(View()), key, old(kv)[key].value, Some(now + ttlMs)) else old(View())
    {
      if key in kv { kv := kv[key := kv[key].(expiresAt := Some(now + ttlMs))]; }
    }

    method Pttl(key: Key, now: int) returns (ms: int)
      ensures ms == TimeLeft(View(), key, now)
    {
      if key !in kv { return -2; }
      if kv[key].expiresAt == None { return -1; }
      return if kv[key].expiresAt.value < now then 0 else kv[key].expiresAt.value - now;
    }

    method RPush(key: Key, id: JobId) returns (length: nat)
      modifies this
      ensures View() == old(View()).(lines := Pushed(old(View()).lines, key, id))
      ensures length == |ListAt(View().lines, key)|
      ensures lists == old(lists)[key := (if key in old(lists) then old(lists)[key] else []) + [id]]
    {
      var list := if key in lists then lists[key] else [];
      lists := lists[key := list + [id]];
      length := |list| + 1;
    }

    method LPop(key: Key) returns (first: Option<JobId>)
      modifies this
      ensures first == if ListAt(old(View()).lines, key) == [] then None else Some(ListAt(old(View()).lines, key)[0])
      ensures View() == old(View()).(lines := Popped(old(View()).lines, key))
      ensures first == None <==> key !in old(lists) || old(lists)[key] == []
      ensures first.Some? ==> key in lists && old(lists)[key] == [first.value] + lists[key]
    {
      if key !in lists || lists[key] == [] { return None; }
      first := Some(lists[key][0]);
      lists := lists[key := lists[key][1..]];
    }

    method LLen(key: Key) returns (length: nat)
      ensures length == |ListAt(View().lines, key)|
    {
      length := if key in lists then |lists[key]| else 0;
    }

    method LRem(key: Key, id: JobId) returns (removed: nat)
      modifies this
      ensures View() == old(View()).(lines := Removed(old(View()).lines, key, id))
      ensures removed == Times(ListAt(old(View()).lines, key), id)
    {
      if key !in lists { return 0; }
      var before := lists[key];
      lists := lists[key := Without(before, id)];
      WithoutShrinks(before, id);
      removed := |before| - |lists[key]|;
    }

    method ZAdd(key: Key, score: int, member: JobId)
      modifies this
      ensures View() == old(View()).(lines := ScoredIn(old(View()).lines, key, Scored(member, score)))
      ensures key in zsets && Scored(member, score) in zsets[key]
    {
      zsets := zsets[key := Rescored(if key in zsets then zsets[key] else [], Scored(member, score))];
    }

    method ZRangeByScore(key: Key, min: int, max: int) returns (members: seq<JobId>)
      ensures members == RangeByScore(SetAt(View().lines, key), min, max)
    {
      if key !in zsets { return []; }
      members := Members(SortByScore(Within(zsets[key], min, max)));
    }

    method ZRem(key: Key, member: JobId)
      modifies this
      ensures View() == old(View()).(lines := ScoredOut(old(View()).lines, key, member))
      ensures forall x: Scored | key in zsets && x in zsets[key] :: x.member != member
    {
      if key in zsets { zsets := zsets[key := Unscored(zsets[key], member)]; }
    }

    method ZCard(key: Key) returns (size: nat)
      ensures size == |SetAt(View().lines, key)|
    {
      size := if key in zsets then |zsets[key]| else 0;
    }

    /** keys(`job:*`): every stored key of a job, expired or not. */
    method JobKeys() returns (keys: seq<Key>)
      ensures keys == OnlyJobs(order)
    {
      keys := OnlyJobs(order);
    }
  }

  function OnlyJobs(keys: seq<Key>): (r: seq<Key>)
    ensures forall k :: k in r <==> k in keys && k.JobKey?
  {
    if keys == [] then []
    else if keys[0].JobKey? then [keys[0]] + OnlyJobs(keys[1..])
    else OnlyJobs(keys[1..])
  }
}
