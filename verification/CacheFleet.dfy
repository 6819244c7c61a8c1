/** Any number of product tasks over one table, each with a cache of its own: how stale can a hit be? */
module CacheFleet {
  import opened Common
  import opened ProductCache

  /** A version of the table, and when it became current. */
  datatype Version = Version(table: Table, since: int)

  /**
   * What a request found: which read it made, in which version, and when; and when it was stored. `late`: stored
   * after a newer own write was flushed.
   */
  datatype Found = Found(key: Key, items: seq<Item>, version: nat, readAt: int, storedAt: int, late: bool)

  /**
   * `reading` holds requests that have read the table and not yet stored what they found; `own` is the version of
   * the last own write whose flush is done.
   */
  datatype Task = Task(entries: Entries<Found>, reading: map<nat, Found>, written: nat, own: nat)

  datatype State = State(ttl: int, now: int, past: seq<Version>, tasks: map<nat, Task>)

  datatype Action =
    | Tick(now: int)
    | Write(task: nat, table: Table)
    | Flush(task: nat)
    | Read(task: nat, request: nat, key: Key, items: seq<Item>)
    | Store(task: nat, request: nat, evicted: set<string>)
    | ReadAndStore(task: nat, key: Key, items: seq<Item>, evicted: set<string>)

  /** What a read of the table may return. An absent product is not found, and not cached. */
  predicate Answer(t: Table, key: Key, items: seq<Item>) {
    match key
    case ItemKey(id) => id in t && items == [t[id]]
    case ListKey(category, limit) => Listing(items, t, category, limit)
  }

  predicate CanRead(s: State, task: nat, key: Key, items: seq<Item>) {
    task in s.tasks && s.past != [] && Answer(s.past[|s.past| - 1].table, key, items)
  }

  function Fresh(s: State, key: Key, items: seq<Item>): Found
    requires s.past != []
  {
    Found(key, items, |s.past| - 1, s.now, s.now, false)
  }

  function Keep(t: Task, f: Found, now: int, ttl: int, evicted: set<string>): Task {
    t.(entries := Stored(t.entries, f.key.Text(), f.(storedAt := now, late := f.version < t.own), now, ttl, evicted))
  }

  /** One step of one task; a step that is not enabled changes nothing. */
  function Apply(s: State, a: Action): State {
    match a
    case Tick(now) => if now < s.now then s else s.(now := now)
    case Write(i, table) =>
      if i !in s.tasks then s
      else s.(past := s.past + [Version(table, s.now)], tasks := s.tasks[i := s.tasks[i].(written := |s.past|)])
    case Flush(i) =>
      if i !in s.tasks then s
      else s.(tasks := s.tasks[i := s.tasks[i].(entries := map[], own := s.tasks[i].written)])
    case Read(i, r, key, items) =>
      if !CanRead(s, i, key, items) || r in s.tasks[i].reading then s
      else s.(tasks := s.tasks[i := s.tasks[i].(reading := s.tasks[i].reading[r := Fresh(s, key, items)])])
    case Store(i, r, evicted) =>
      if i !in s.tasks || r !in s.tasks[i].reading then s
      else
        var t := s.tasks[i];
        s.(tasks := s.tasks[i := Keep(t, t.reading[r], s.now, s.ttl, evicted).(reading := t.reading - {r})])
    case ReadAndStore(i, key, items, evicted) =>
      if !CanRead(s, i, key, items) then s
      else s.(tasks := s.tasks[i := Keep(s.tasks[i], Fresh(s, key, items), s.now, s.ttl, evicted)])
  }

  function Exec(s: State, run: seq<Action>): State {
    if run == [] then s else Apply(Exec(s, run[..|run| - 1]), run[|run| - 1])
  }

  predicate Init(s: State) {
    && |s.past| == 1 && s.past[0].since <= s.now
    && forall i :: i in s.tasks ==> s.tasks[i] == Task(map[], map[], 0, 0)
  }

  // ---- what every step keeps ------------------------------------------------

  /** Version `v` was the current one at time `t`. */
  predicate Current(past: seq<Version>, v: nat, t: int) {
    v < |past| && past[v].since <= t && (v + 1 < |past| ==> t <= past[v + 1].since)
  }

  /** The find is what its read returned, from the version that was current then. */
  predicate Honest(past: seq<Version>, now: int, f: Found) {
    Current(past, f.version, f.readAt) && f.readAt <= now && Answer(past[f.version].table, f.key, f.items)
  }

  predicate EntryInv(s: State, t: Task, key: string) {
    key in t.entries ==>
      var e := t.entries[key];
      && e.value.key.Text() == key && Honest(s.past, s.now, e.value)
      && e.value.readAt <= e.value.storedAt <= s.now && e.expires == e.value.storedAt + s.ttl
      && (e.value.late <==> e.value.version < t.own)
  }

  predicate ReadInv(s: State, t: Task, r: nat) {
    r in t.reading ==> Honest(s.past, s.now, t.reading[r])
  }

  ghost predicate TaskInv(s: State, t: Task) {
    && t.own <= t.written < |s.past|
    && (forall key :: EntryInv(s, t, key))
    && (forall r :: ReadInv(s, t, r))
  }

  predicate PastInv(s: State) {
    && s.past != []
    && (forall i :: 0 <= i < |s.past| ==> s.past[i].since <= s.now)
  }

  ghost predicate Inv(s: State) {
    PastInv(s) && forall i :: i in s.tasks ==> TaskInv(s, s.tasks[i])
  }

  /** Honest finds stay honest while time passes and versions are added. */
  lemma TimePasses(s: State, s': State, t: Task)
    requires PastInv(s) && PastInv(s') && TaskInv(s, t) && s.now <= s'.now && s'.ttl == s.ttl
    requires s'.past == s.past || exists v :: s'.past == s.past + [v] && v.since == s.now
    ensures TaskInv(s', t)
  {
    forall f: Found | Honest(s.past, s.now, f) ensures Honest(s'.past, s'.now, f) {
    }
    forall key ensures EntryInv(s', t, key) { assert EntryInv(s, t, key); }
    forall r ensures ReadInv(s', t, r) { assert ReadInv(s, t, r); }
  }

  lemma KeepIsSound(s: State, t: Task, f: Found, evicted: set<string>)
    requires PastInv(s) && TaskInv(s, t) && Honest(s.past, s.now, f)
    ensures TaskInv(s, Keep(t, f, s.now, s.ttl, evicted))
  {
    var t' := Keep(t, f, s.now, s.ttl, evicted);
    forall key ensures EntryInv(s, t', key) { assert EntryInv(s, t, key); }
    forall r ensures ReadInv(s, t', r) { assert ReadInv(s, t, r); }
  }

  lemma FreshIsHonest(s: State, task: nat, key: Key, items: seq<Item>)
    requires PastInv(s) && CanRead(s, task, key, items)
    ensures Honest(s.past, s.now, Fresh(s, key, items))
  {
  }

  /** Only one task changes and the world stays as it is. */
  lemma OneTask(s: State, s': State, task: nat)
    requires Inv(s) && s'.past == s.past && s'.now == s.now && s'.ttl == s.ttl && task in s'.tasks
    requires s'.tasks == s.tasks[task := s'.tasks[task]] && TaskInv(s, s'.tasks[task])
    ensures Inv(s')
  {
    forall i | i in s'.tasks ensures TaskInv(s', s'.tasks[i]) {
      assert TaskInv(s, s'.tasks[i]);
      TimePasses(s, s', s'.tasks[i]);
    }
  }

  lemma WriteKeeps(s: State, task: nat, table: Table)
    requires Inv(s)
    ensures Inv(Apply(s, Write(task, table)))
  {
    var s' := Apply(s, Write(task, table));
    if task in s.tasks {
      assert s'.past == s.past + [Version(table, s.now)];
      forall i | i in s'.tasks ensures TaskInv(s', s'.tasks[i]) {
        TimePasses(s, s', s.tasks[i]);
        forall key ensures EntryInv(s', s'.tasks[i], key) { assert EntryInv(s', s.tasks[i], key); }
        forall r ensures ReadInv(s', s'.tasks[i], r) { assert ReadInv(s', s.tasks[i], r); }
      }
    }
  }

  lemma FlushKeeps(s: State, task: nat)
    requires Inv(s)
    ensures Inv(Apply(s, Flush(task)))
  {
    var s' := Apply(s, Flush(task));
    if task in s.tasks {
      var t' := s'.tasks[task];
      forall r ensures ReadInv(s, t', r) { assert ReadInv(s, s.tasks[task], r); }
      forall key ensures EntryInv(s, t', key) { }
      OneTask(s, s', task);
    }
  }

  lemma ReadKeeps(s: State, task: nat, r: nat, key: Key, items: seq<Item>)
    requires Inv(s)
    ensures Inv(Apply(s, Read(task, r, key, items)))
  {
    var s' := Apply(s, Read(task, r, key, items));
    if CanRead(s, task, key, items) && r !in s.tasks[task].reading {
      var t, t' := s.tasks[task], s'.tasks[task];
      FreshIsHonest(s, task, key, items);
      forall k ensures EntryInv(s, t', k) { assert EntryInv(s, t, k); }
      forall q ensures ReadInv(s, t', q) { assert ReadInv(s, t, q); }
      OneTask(s, s', task);
    }
  }

  lemma StoreKeeps(s: State, task: nat, r: nat, evicted: set<string>)
    requires Inv(s)
    ensures Inv(Apply(s, Store(task, r, evicted)))
  {
    var s' := Apply(s, Store(task, r, evicted));
    if task in s.tasks && r in s.tasks[task].reading {
      var t, t' := s.tasks[task], s'.tasks[task];
      assert ReadInv(s, t, r);
      var kept := Keep(t, t.reading[r], s.now, s.ttl, evicted);
      KeepIsSound(s, t, t.reading[r], evicted);
      forall k ensures EntryInv(s, t', k) { assert EntryInv(s, kept, k); }
      forall q ensures ReadInv(s, t', q) { assert ReadInv(s, t, q); }
      OneTask(s, s', task);
    }
  }

  lemma StepKeeps(s: State, a: Action)
    requires Inv(s)
    ensures Inv(Apply(s, a))
  {
    var s' := Apply(s, a);
    match a {
      case Tick(now) =>
        forall i | i in s'.tasks ensures TaskInv(s', s'.tasks[i]) { TimePasses(s, s', s.tasks[i]); }
      case Write(task, table) => WriteKeeps(s, task, table);
      case Flush(task) => FlushKeeps(s, task);
      case Read(task, r, key, items) => ReadKeeps(s, task, r, key, items);
      case Store(task, r, evicted) => StoreKeeps(s, task, r, evicted);
      case ReadAndStore(task, key, items, evicted) =>
        if CanRead(s, task, key, items) {
          FreshIsHonest(s, task, key, items);
          KeepIsSound(s, s.tasks[task], Fresh(s, key, items), evicted);
          OneTask(s, s', task);
        }
    }
  }

  lemma {:induction false} RunKeepsInv(s: State, run: seq<Action>)
    requires Init(s)
    ensures Inv(Exec(s, run))
  {
    if run == [] {
    } else {
      RunKeepsInv(s, run[..|run| - 1]);
      StepKeeps(Exec(s, run[..|run| - 1]), run[|run| - 1]);
    }
  }

  // ---- the results ----------------------------------------------------------

  /** What task `i` would answer from its cache. */
  function Hit(s: State, i: nat, key: Key): Option<Found> {
    if i in s.tasks then Lookup(s.tasks[i].entries, key.Text(), s.now) else None
  }

  /**
   * A hit returns what the table held, for that key, when the entry's read was made. It was stored less than one
   * TTL ago, and is older than the last flushed write of its own owner exactly if it was stored late. The one
   * exception to "for that key" is the pair of keys that share a text.
   */
  lemma HitsAreHonest(s: State, run: seq<Action>, i: nat, key: Key)
    requires Init(s)
    ensures var t := Exec(s, run);
            var hit := Hit(t, i, key);
            hit != None ==>
              && Honest(t.past, t.now, hit.value)
              && hit.value.readAt <= hit.value.storedAt && t.now - t.ttl < hit.value.storedAt <= t.now
              && (hit.value.late <==> hit.value.version < t.tasks[i].own)
              && (hit.value.key == key || (key.ListKey? && hit.value.key.ListKey? && Star(key) && Star(hit.value.key)))
  {
    RunKeepsInv(s, run);
    var t := Exec(s, run);
    if Hit(t, i, key) != None {
      assert EntryInv(t, t.tasks[i], key.Text());
      KeysCollideIff(Hit(t, i, key).value.key, key);
    }
  }

  /** No request is caught between its read and its store. */
  predicate Atomic(run: seq<Action>) {
    forall a :: a in run ==> !a.Store?
  }

  ghost predicate Prompt(s: State) {
    forall i, key :: i in s.tasks && key in s.tasks[i].entries ==>
      var e := s.tasks[i].entries[key]; !e.value.late && e.value.storedAt == e.value.readAt
  }

  lemma PromptStep(s: State, a: Action)
    requires Inv(s) && Prompt(s) && !a.Store?
    ensures Prompt(Apply(s, a))
  {
    var s' := Apply(s, a);
    forall i, key | i in s'.tasks && key in s'.tasks[i].entries
      ensures !s'.tasks[i].entries[key].value.late
              && s'.tasks[i].entries[key].value.storedAt == s'.tasks[i].entries[key].value.readAt
    {
      assert TaskInv(s, s.tasks[i]);
      assert (key in s.tasks[i].entries && s'.tasks[i].entries[key] == s.tasks[i].entries[key])
             || (a.ReadAndStore? && a.task == i && key == a.key.Text());
    }
  }

  lemma {:induction false} AtomicRunsArePrompt(s: State, run: seq<Action>)
    requires Init(s) && Atomic(run)
    ensures Prompt(Exec(s, run))
  {
    if run == [] {
    } else {
      var front, a := run[..|run| - 1], run[|run| - 1];
      AtomicRunsArePrompt(s, front);
      RunKeepsInv(s, front);
      assert a in run;
      PromptStep(Exec(s, front), a);
    }
  }

  /**
   * With atomic fills, a hit shows a version that was current less than one TTL ago: every write is seen by every
   * task within the TTL.
   */
  lemma StalenessIsBounded(s: State, run: seq<Action>, i: nat, key: Key)
    requires Init(s) && Atomic(run)
    ensures var t := Exec(s, run);
            var hit := Hit(t, i, key);
            hit != None ==>
              Current(t.past, hit.value.version, hit.value.readAt) && t.now - t.ttl < hit.value.readAt <= t.now
  {
    RunKeepsInv(s, run);
    AtomicRunsArePrompt(s, run);
    var t := Exec(s, run);
    if Hit(t, i, key) != None { assert EntryInv(t, t.tasks[i], key.Text()); }
  }

  /** With atomic fills, a task never serves a version older than its own last flushed write. */
  lemma OwnWritesAreSeen(s: State, run: seq<Action>, i: nat, key: Key)
    requires Init(s) && Atomic(run)
    ensures var t := Exec(s, run);
            var hit := Hit(t, i, key);
            hit != None ==> hit.value.version >= t.tasks[i].own
  {
    RunKeepsInv(s, run);
    AtomicRunsArePrompt(s, run);
    var t := Exec(s, run);
    if Hit(t, i, key) != None { assert EntryInv(t, t.tasks[i], key.Text()); }
  }

  /** Without that, a request that read before the write and stores after the flush brings the old value back. */
  lemma SplitFillRevivesOldValue(ttl: int, before: Table, after: Table, id: string)
    requires id in before && ttl > 0
    ensures var s := State(ttl, 0, [Version(before, 0)], map[0 := Task(map[], map[], 0, 0)]);
            var key := ItemKey(id);
            var run := [Read(0, 0, key, [before[id]]), Write(0, after), Flush(0), Store(0, 0, {})];
            var t := Exec(s, run);
            var hit := Hit(t, 0, key);
            && Init(s) && 0 in t.tasks && t.tasks[0].own == 1
            && hit != None && hit.value.items == [before[id]] && hit.value.version == 0
  {
    var s := State(ttl, 0, [Version(before, 0)], map[0 := Task(map[], map[], 0, 0)]);
    var key := ItemKey(id);
    var run := [Read(0, 0, key, [before[id]]), Write(0, after), Flush(0), Store(0, 0, {})];
    assert run[..3][..2] == run[..2] && run[..2][..1] == run[..1] && run[..1][..0] == [];
    var f := Found(key, [before[id]], 0, 0, 0, false);
    assert Exec(s, run[..1]) == s.(tasks := map[0 := Task(map[], map[0 := f], 0, 0)]);
    assert Exec(s, run[..3]).tasks == map[0 := Task(map[], map[0 := f], 1, 1)];
  }

  // ---- the handlers as steps ------------------------------------------------

  /** A cache as its task sees it: keys, items and expiry. */
  function Plain(es: Entries<Found>): Entries<seq<Item>> {
    map k | k in es :: Timed(es[k].value.items, es[k].expires)
  }

  /** A read that nobody disturbs is no step on a hit or for an absent product, and one atomic fill on a miss. */
  lemma ProductReadIsAStep(s: State, i: nat, id: string, evicted: set<string>)
    requires i in s.tasks && s.past != []
    ensures var t, key := s.past[|s.past| - 1].table, ItemKey(id);
            var s' := if Hit(s, i, key) != None || id !in t then s
                      else Apply(s, ReadAndStore(i, key, [t[id]], evicted));
            && i in s'.tasks && Plain(s'.tasks[i].entries)
               == ProductRead(Plain(s.tasks[i].entries), t, id, s.now, s.ttl, evicted)
            && (Hit(s, i, key) != None ==>
                  Lookup(Plain(s.tasks[i].entries), key.Text(), s.now) == Some(Hit(s, i, key).value.items))
  {
  }

  lemma ListReadIsAStep(s: State, i: nat, key: Key, found: seq<Item>, evicted: set<string>)
    requires i in s.tasks && s.past != [] && key.ListKey?
    requires Listing(found, s.past[|s.past| - 1].table, key.category, key.limit)
    ensures var s' := if Hit(s, i, key) != None then s else Apply(s, ReadAndStore(i, key, found, evicted));
            && i in s'.tasks && Plain(s'.tasks[i].entries)
               == ListRead(Plain(s.tasks[i].entries), key, found, s.now, s.ttl, evicted)
            && (Hit(s, i, key) != None ==>
                  Lookup(Plain(s.tasks[i].entries), key.Text(), s.now) == Some(Hit(s, i, key).value.items))
  {
  }

  /** The flush of the protocol is the handler's invalidation. */
  lemma InvalidationIsAStep(s: State, i: nat)
    requires i in s.tasks
    ensures Plain(Apply(s, Flush(i)).tasks[i].entries) == map[]
  {
  }
}
