/** Idempotent order creation: concurrent requests that share a key. */
module Idempotency {
  import opened Common
  import opened SagaTypes
  import Orders

  type RecordId = string

  function RecordIdOf(user: UserId, key: string): RecordId {
    user + "#" + key
  }

  /**
   * Two (user, key) pairs get the same record exactly when they are equal, or one user id swallows a '#' of the
   * other's key.
   */
  lemma RecordIdsCollideIff(u: UserId, k: string, v: UserId, l: string)
    requires |u| <= |v|
    ensures RecordIdOf(u, k) == RecordIdOf(v, l) <==>
            (u == v && k == l) || (|u| < |v| && u + "#" == v[..|u| + 1] && k == v[|u| + 1..] + "#" + l)
  {
    var a, b := RecordIdOf(u, k), RecordIdOf(v, l);
    assert a[..|u|] == u && a[|u|] == '#' && a[|u| + 1..] == k;
    assert b[..|v|] == v && b[|v|] == '#' && b[|v| + 1..] == l;
    if |u| < |v| {
      assert b[..|u| + 1] == v[..|u| + 1] && b[|u| + 1..] == v[|u| + 1..] + "#" + l;
      assert a == a[..|u| + 1] + a[|u| + 1..] && b == b[..|u| + 1] + b[|u| + 1..];
      assert a[..|u| + 1] == u + "#";
    }
  }

  lemma RecordIdsDiffer(u: UserId, k: string, v: UserId, l: string)
    requires '#' !in u && '#' !in v
    ensures RecordIdOf(u, k) == RecordIdOf(v, l) ==> u == v && k == l
  {
    if |u| <= |v| {
      RecordIdsCollideIff(u, k, v, l);
      if |u| < |v| { assert v[..|u| + 1][|u|] == v[|u|]; assert (u + "#")[|u|] == '#'; }
    } else {
      RecordIdsCollideIff(v, l, u, k);
      assert u[..|v| + 1][|v|] == u[|v|];
      assert (v + "#")[|v|] == '#';
    }
  }

  /** `done == None` is IN_PROGRESS. A completion of a record that has gone leaves one without a hash. */
  datatype Record = Record(hash: Option<string>, done: Option<OrderId>)

  type Store = map<RecordId, Record>

  datatype Claim = Proceed | Replay(orderId: OrderId) | Conflict | Busy

  function Inspect(store: Store, id: RecordId, hash: string): Claim {
    if id !in store then Proceed
    else if store[id].hash != Some(hash) then Conflict
    else if store[id].done != None then Replay(store[id].done.value)
    else Busy
  }

  function Completed(store: Store, id: RecordId, o: OrderId): Store {
    store[id := if id in store then store[id].(done := Some(o)) else Record(None, Some(o))]
  }

  // ---- concurrent requests --------------------------------------------------

  datatype Phase =
    | Start                       // about to attempt the conditional put
    | Missed                      // the put failed; about to read the record
    | Working                     // may price and commit
    | Committed(o: OrderId)       // the order is written, the record is not completed yet
    | Finished(reply: Reply)

  datatype Reply = Created(o: OrderId) | Replayed(o: OrderId) | Refused | InFlight | Failed

  datatype Request = Request(user: UserId, key: string, hash: string, phase: Phase)
  {
    function Id(): RecordId { RecordIdOf(user, key) }

    function Tagged(): Tag { Tag(user, key, hash) }
  }

  /** An order remembers the request it was created for. */
  datatype Tag = Tag(user: UserId, key: string, hash: string)
  {
    function Id(): RecordId { RecordIdOf(user, key) }
  }

  datatype State = State(store: Store, orders: map<OrderId, Tag>, requests: map<nat, Request>)

  const EMPTY := State(map[], map[], map[])

  datatype Action =
    | Arrive(i: nat, user: UserId, key: string, hash: string)
    | Put(i: nat)
    | Look(i: nat)
    | Abandon(i: nat)             // pricing or the commit failed: release the key
    | Commit(i: nat, o: OrderId)
    | Complete(i: nat)
    | Die(i: nat)
    | Expire(id: RecordId)

  function Move(s: State, i: nat, p: Phase): State
    requires i in s.requests
  {
    s.(requests := s.requests[i := s.requests[i].(phase := p)])
  }

  /** The claim of a request whose put failed: it goes on also if it finds no record, or the named order is gone. */
  predicate PassesOver(s: State, r: Request) {
    var claim := Inspect(s.store, r.Id(), r.hash);
    claim == Proceed || (claim.Replay? && claim.orderId !in s.orders)
  }

  function Looked(s: State, r: Request): Phase {
    if PassesOver(s, r) then Working
    else match Inspect(s.store, r.Id(), r.hash)
         case Conflict => Finished(Refused)
         case Replay(o) => Finished(Replayed(o))
         case _ => Finished(InFlight)
  }

  /** One attempted step of one request; an attempt that is not enabled changes nothing. */
  function Apply(s: State, a: Action): State {
    match a
    case Arrive(i, user, key, hash) =>
      if i in s.requests then s else s.(requests := s.requests[i := Request(user, key, hash, Start)])
    case Put(i) =>
      if i !in s.requests || s.requests[i].phase != Start then s
      else if s.requests[i].Id() in s.store then Move(s, i, Missed)
      else Move(s.(store := s.store[s.requests[i].Id() := Record(Some(s.requests[i].hash), None)]), i, Working)
    case Look(i) =>
      if i !in s.requests || s.requests[i].phase != Missed then s else Move(s, i, Looked(s, s.requests[i]))
    case Abandon(i) =>
      if i !in s.requests || s.requests[i].phase != Working then s
      else Move(s.(store := s.store - {s.requests[i].Id()}), i, Finished(Failed))
    case Commit(i, o) =>
      if i !in s.requests || s.requests[i].phase != Working || o in s.orders then s
      else Move(s.(orders := s.orders[o := s.requests[i].Tagged()]), i, Committed(o))
    case Complete(i) =>
      if i !in s.requests || !s.requests[i].phase.Committed? then s
      else
        var r := s.requests[i];
        Move(s.(store := Completed(s.store, r.Id(), r.phase.o)), i, Finished(Created(r.phase.o)))
    case Die(i) =>
      if i !in s.requests || s.requests[i].phase.Finished? then s else Move(s, i, Finished(Failed))
    case Expire(id) => s.(store := s.store - {id})
  }

  function Exec(s: State, run: seq<Action>): State {
    if run == [] then s else Apply(Exec(s, run[..|run| - 1]), run[|run| - 1])
  }

  /** The two steps after which a record no longer guards its key: it expires, or a request passes it over. */
  predicate Loosens(s: State, a: Action, id: RecordId) {
    match a
    case Expire(x) => x == id
    case Look(i) =>
      i in s.requests && s.requests[i].phase == Missed && s.requests[i].Id() == id && PassesOver(s, s.requests[i])
    case _ => false
  }

  predicate Calm(s: State, run: seq<Action>, id: RecordId) {
    run == [] ||
    (Calm(s, run[..|run| - 1], id) && !Loosens(Exec(s, run[..|run| - 1]), run[|run| - 1], id))
  }

  lemma OneMore(s: State, run: seq<Action>, a: Action, id: RecordId)
    ensures Exec(s, run + [a]) == Apply(Exec(s, run), a)
    ensures Calm(s, run + [a], id) <==> Calm(s, run, id) && !Loosens(Exec(s, run), a, id)
  {
    assert (run + [a])[..|run|] == run;
  }

  // ---- what a guarded key keeps ---------------------------------------------

  ghost predicate Holds(s: State, i: nat, id: RecordId) {
    i in s.requests && s.requests[i].Id() == id && (s.requests[i].phase == Working || s.requests[i].phase.Committed?)
  }

  ghost predicate Made(s: State, o: OrderId, id: RecordId) {
    o in s.orders && s.orders[o].Id() == id
  }

  ghost predicate Safe(s: State, id: RecordId) {
    && (forall i, j :: Holds(s, i, id) && Holds(s, j, id) ==> i == j)
    && (forall o, p :: Made(s, o, id) && Made(s, p, id) ==> o == p)
    && (forall i :: Holds(s, i, id) ==> id in s.store && s.store[id] == Record(Some(s.requests[i].hash), None))
    && (forall i, o :: Holds(s, i, id) && Made(s, o, id) ==> s.requests[i].phase == Committed(o))
    && (forall i :: Holds(s, i, id) && s.requests[i].phase.Committed? ==> Made(s, s.requests[i].phase.o, id))
    && (forall o :: Made(s, o, id) ==> id in s.store && s.store[id].hash == Some(s.orders[o].hash))
    && (id in s.store && s.store[id].done != None ==> Made(s, s.store[id].done.value, id))
  }

  /** If nobody new works on the record and its tables stay, the key stays safe. */
  lemma NobodyNew(s: State, t: State, id: RecordId)
    requires Safe(s, id) && t.orders == s.orders
    requires (id in t.store <==> id in s.store) && (id in t.store ==> t.store[id] == s.store[id])
    requires forall j :: Holds(t, j, id) ==> Holds(s, j, id) && t.requests[j] == s.requests[j]
    ensures Safe(t, id)
  {
    assert forall o :: Made(t, o, id) <==> Made(s, o, id);
  }

  lemma PutKeepsKey(s: State, i: nat, id: RecordId)
    requires Safe(s, id)
    ensures Safe(Apply(s, Put(i)), id)
  {
    var t := Apply(s, Put(i));
    if Holds(t, i, id) && !Holds(s, i, id) {
      assert id !in s.store;
      forall j ensures Holds(t, j, id) <==> j == i { assert !Holds(s, j, id); }
      forall o ensures !Made(t, o, id) { assert !Made(s, o, id); }
    } else {
      NobodyNew(s, t, id);
    }
  }

  lemma LookKeepsKey(s: State, i: nat, id: RecordId)
    requires Safe(s, id) && !Loosens(s, Look(i), id)
    ensures Safe(Apply(s, Look(i)), id)
  {
    NobodyNew(s, Apply(s, Look(i)), id);
  }

  lemma NothingMadeYet(s: State, i: nat, id: RecordId)
    requires Safe(s, id) && Holds(s, i, id) && s.requests[i].phase == Working
    ensures forall p :: !Made(s, p, id)
  {
  }

  /** Releasing a key: the holder gives it up, and no order was made under it. */
  lemma AbandonKeepsKey(s: State, i: nat, id: RecordId)
    requires Safe(s, id)
    ensures Safe(Apply(s, Abandon(i)), id)
  {
    var t := Apply(s, Abandon(i));
    if Holds(s, i, id) && s.requests[i].phase == Working {
      NothingMadeYet(s, i, id);
      forall j ensures !Holds(t, j, id) { assert Holds(t, j, id) ==> Holds(s, j, id); }
      forall o ensures !Made(t, o, id) { assert !Made(s, o, id); }
    } else {
      NobodyNew(s, t, id);
    }
  }

  /** A commit under the record itself: the worker that holds it turns into the one that made its order. */
  lemma CommitHere(s: State, i: nat, o: OrderId, id: RecordId)
    requires Safe(s, id) && Holds(s, i, id) && s.requests[i].phase == Working && o !in s.orders
    ensures Safe(Apply(s, Commit(i, o)), id)
  {
    var t := Apply(s, Commit(i, o));
    NothingMadeYet(s, i, id);
    forall j ensures Holds(t, j, id) <==> j == i { assert j != i ==> Holds(t, j, id) == Holds(s, j, id); }
    forall p ensures Made(t, p, id) <==> p == o { assert !Made(s, p, id); }
  }

  lemma CommitElsewhere(s: State, i: nat, o: OrderId, id: RecordId)
    requires Safe(s, id) && !Holds(s, i, id)
    ensures Safe(Apply(s, Commit(i, o)), id)
  {
    var t := Apply(s, Commit(i, o));
    assert forall j :: Holds(t, j, id) ==> Holds(s, j, id) && j != i;
    assert forall p :: Made(t, p, id) <==> Made(s, p, id);
  }

  lemma CommitKeepsKey(s: State, i: nat, o: OrderId, id: RecordId)
    requires Safe(s, id)
    ensures Safe(Apply(s, Commit(i, o)), id)
  {
    if Apply(s, Commit(i, o)) != s {
      if Holds(s, i, id) { CommitHere(s, i, o, id); } else { CommitElsewhere(s, i, o, id); }
    }
  }

  lemma CompleteKeepsKey(s: State, i: nat, id: RecordId)
    requires Safe(s, id)
    ensures Safe(Apply(s, Complete(i)), id)
  {
    var t := Apply(s, Complete(i));
    if Holds(s, i, id) && s.requests[i].phase.Committed? {
      forall j ensures !Holds(t, j, id) { assert Holds(t, j, id) ==> Holds(s, j, id); }
      forall o ensures Made(t, o, id) <==> Made(s, o, id) { }
    } else {
      NobodyNew(s, t, id);
    }
  }

  lemma StepKeepsKey(s: State, a: Action, id: RecordId)
    requires Safe(s, id) && !Loosens(s, a, id)
    ensures Safe(Apply(s, a), id)
  {
    match a
    case Put(i) => PutKeepsKey(s, i, id);
    case Look(i) => LookKeepsKey(s, i, id);
    case Abandon(i) => AbandonKeepsKey(s, i, id);
    case Commit(i, o) => CommitKeepsKey(s, i, o, id);
    case Complete(i) => CompleteKeepsKey(s, i, id);
    case _ => NobodyNew(s, Apply(s, a), id);
  }

  /** A guarded key stays safe along every run that does not loosen its record. */
  lemma {:induction false} RunKeepsKey(s: State, run: seq<Action>, id: RecordId)
    requires Safe(s, id) && Calm(s, run, id)
    ensures Safe(Exec(s, run), id)
  {
    if run == [] {
    } else {
      RunKeepsKey(s, run[..|run| - 1], id);
      StepKeepsKey(Exec(s, run[..|run| - 1]), run[|run| - 1], id);
    }
  }

  /** At most one order per (user, key), however the requests interleave, unless a step loosened the record. */
  lemma AtMostOneOrder(run: seq<Action>, o: OrderId, p: OrderId)
    requires var s := Exec(EMPTY, run);
             && o in s.orders && p in s.orders
             && s.orders[o].user == s.orders[p].user && s.orders[o].key == s.orders[p].key
             && Calm(EMPTY, run, s.orders[o].Id())
    ensures o == p
  {
    var s := Exec(EMPTY, run);
    RunKeepsKey(EMPTY, run, s.orders[o].Id());
    assert Made(s, o, s.orders[o].Id()) && Made(s, p, s.orders[o].Id());
  }

  /** A COMPLETED record names an existing order, created by the same user under the same key from the same payload. */
  lemma CompletedNamesItsOrder(run: seq<Action>, user: UserId, key: string)
    requires '#' !in user && forall o :: o in Exec(EMPTY, run).orders ==> '#' !in Exec(EMPTY, run).orders[o].user
    requires var s, id := Exec(EMPTY, run), RecordIdOf(user, key);
             Calm(EMPTY, run, id) && id in s.store && s.store[id].done != None
    ensures var s, id := Exec(EMPTY, run), RecordIdOf(user, key);
            var o := s.store[id].done.value;
            && o in s.orders && s.orders[o].user == user && s.orders[o].key == key
            && s.store[id].hash == Some(s.orders[o].hash)
  {
    var s, id := Exec(EMPTY, run), RecordIdOf(user, key);
    var o := s.store[id].done.value;
    RunKeepsKey(EMPTY, run, id);
    assert Made(s, o, id);
    RecordIdsDiffer(user, key, s.orders[o].user, s.orders[o].key);
  }

  /** A replayed request gets the order its own key created from its own payload; that order is never missing. */
  lemma ReplayIsTheSameOrder(run: seq<Action>, i: nat)
    requires var s := Exec(EMPTY, run);
             i in s.requests && s.requests[i].phase == Missed && Calm(EMPTY, run, s.requests[i].Id())
    requires forall j :: j in Exec(EMPTY, run).requests ==> '#' !in Exec(EMPTY, run).requests[j].user
    requires forall o :: o in Exec(EMPTY, run).orders ==> '#' !in Exec(EMPTY, run).orders[o].user
    ensures var s, t := Exec(EMPTY, run), Apply(Exec(EMPTY, run), Look(i));
            var r := s.requests[i];
            Inspect(s.store, r.Id(), r.hash).Replay? ==>
              && t.requests[i].phase == Finished(Replayed(s.store[r.Id()].done.value))
              && s.store[r.Id()].done.value in t.orders && t.orders[s.store[r.Id()].done.value] == r.Tagged()
  {
    var s := Exec(EMPTY, run);
    var r := s.requests[i];
    RunKeepsKey(EMPTY, run, r.Id());
    if Inspect(s.store, r.Id(), r.hash).Replay? {
      var o := s.store[r.Id()].done.value;
      assert Made(s, o, r.Id());
      RecordIdsDiffer(r.user, r.key, s.orders[o].user, s.orders[o].key);
    }
  }

  // ---- when a key no longer guards ------------------------------------------

  ghost predicate Twice(s: State, id: RecordId) {
    exists o, p :: o != p && Made(s, o, id) && Made(s, p, id)
  }

  /** A further run, loosening nothing, in which two orders are committed under the record. */
  ghost predicate CanDouble(s: State, id: RecordId) {
    exists more :: Calm(s, more, id) && Twice(Exec(s, more), id)
  }

  lemma SafeKeysCannotDouble(s: State, id: RecordId)
    requires Safe(s, id)
    ensures !CanDouble(s, id)
  {
    forall more | Calm(s, more, id) ensures !Twice(Exec(s, more), id) {
      RunKeepsKey(s, more, id);
    }
  }

  /** With a worker already past the record and the record gone, a new request under the same key commits as well. */
  function SecondOrder(r: Request, i: nat, j: nat, o: OrderId, p: OrderId): seq<Action> {
    [Arrive(j, r.user, r.key, r.hash)] + [Put(j)] + [Commit(i, o)] + [Commit(j, p)]
  }

  lemma NewcomerWorks(s: State, r: Request, j: nat)
    requires j !in s.requests && r.Id() !in s.store
    ensures var run := [Arrive(j, r.user, r.key, r.hash)] + [Put(j)];
            && Calm(s, run, r.Id())
            && Exec(s, run) == s.(store := s.store[r.Id() := Record(Some(r.hash), None)],
                                  requests := s.requests[j := r.(phase := Working)])
  {
    var a := Arrive(j, r.user, r.key, r.hash);
    OneMore(s, [], a, r.Id());
    assert [] + [a] == [a];
    OneMore(s, [a], Put(j), r.Id());
    var t := Apply(s, a);
    assert t.requests[j].Id() == r.Id();
    assert t.requests[j := r.(phase := Working)] == s.requests[j := r.(phase := Working)];
  }

  lemma WorkerAndNewcomer(s: State, i: nat, j: nat, o: OrderId, p: OrderId)
    requires i in s.requests && s.requests[i].phase == Working && s.requests[i].Id() !in s.store
    requires j !in s.requests && o != p && o !in s.orders && p !in s.orders
    ensures var r := s.requests[i];
            && Calm(s, SecondOrder(r, i, j, o, p), r.Id())
            && Exec(s, SecondOrder(r, i, j, o, p)).orders == s.orders[o := r.Tagged()][p := r.Tagged()]
  {
    var r := s.requests[i];
    var run := [Arrive(j, r.user, r.key, r.hash)] + [Put(j)];
    NewcomerWorks(s, r, j);
    OneMore(s, run, Commit(i, o), r.Id());
    OneMore(s, run + [Commit(i, o)], Commit(j, p), r.Id());
  }

  lemma WorkerCanDouble(s: State, i: nat)
    requires i in s.requests && s.requests[i].phase == Working && s.requests[i].Id() !in s.store
    ensures CanDouble(s, s.requests[i].Id())
  {
    var r := s.requests[i];
    var j := FreshNat(s.requests.Keys);
    var o := FreshText(s.orders.Keys);
    var p := FreshText(s.orders.Keys + {o});
    WorkerAndNewcomer(s, i, j, o, p);
    var t := Exec(s, SecondOrder(r, i, j, o, p));
    assert Made(t, o, r.Id()) && Made(t, p, r.Id());
    assert Twice(t, r.Id());
  }

  /**
   * The vanished-record branch, exactly. Take any reachable state whose record was never loosened, and a request
   * whose put failed. After its read, two orders can be committed under the key without any further loosening
   * if and only if the read finds no record. (That it finds one whose order is gone cannot happen here.)
   */
  lemma LookIsUnsafeIff(run: seq<Action>, i: nat)
    requires var s := Exec(EMPTY, run);
             i in s.requests && s.requests[i].phase == Missed && Calm(EMPTY, run, s.requests[i].Id())
    ensures var s := Exec(EMPTY, run);
            CanDouble(Apply(s, Look(i)), s.requests[i].Id()) <==> s.requests[i].Id() !in s.store
  {
    var s := Exec(EMPTY, run);
    var id, t := s.requests[i].Id(), Apply(s, Look(i));
    RunKeepsKey(EMPTY, run, id);
    if id !in s.store {
      WorkerCanDouble(t, i);
    } else {
      LookKeepsKey(s, i, id);
      SafeKeysCannotDouble(t, id);
    }
  }

  lemma OrderCanDouble(s: State, o: OrderId)
    requires o in s.orders && s.orders[o].Id() !in s.store
    ensures CanDouble(s, s.orders[o].Id())
  {
    var tag := s.orders[o];
    var r := Request(tag.user, tag.key, tag.hash, Start);
    var j := FreshNat(s.requests.Keys);
    var p := FreshText(s.orders.Keys);
    var run := [Arrive(j, r.user, r.key, r.hash)] + [Put(j)];
    NewcomerWorks(s, r, j);
    OneMore(s, run, Commit(j, p), tag.Id());
    var t := Exec(s, run + [Commit(j, p)]);
    assert Made(t, o, tag.Id()) && Made(t, p, tag.Id());
    assert Twice(t, tag.Id());
  }

  /**
   * Likewise for an expiry: it lets two orders through exactly when someone is working under the key, or has an
   * order.
   */
  lemma ExpiryIsUnsafeIff(run: seq<Action>, id: RecordId)
    requires Calm(EMPTY, run, id)
    ensures var s := Exec(EMPTY, run);
            CanDouble(Apply(s, Expire(id)), id) <==> (exists i :: Holds(s, i, id)) || (exists o :: Made(s, o, id))
  {
    var s := Exec(EMPTY, run);
    var t := Apply(s, Expire(id));
    RunKeepsKey(EMPTY, run, id);
    if o :| Made(s, o, id) {
      OrderCanDouble(t, o);
    } else if i :| Holds(s, i, id) {
      WorkerCanDouble(t, i);
    } else {
      assert (forall i :: !Holds(t, i, id)) && (forall o :: !Made(t, o, id)) by {
        assert forall i :: Holds(t, i, id) == Holds(s, i, id);
        assert forall o :: Made(t, o, id) == Made(s, o, id);
      }
      SafeKeysCannotDouble(t, id);
    }
  }

  /** Two requests with one key; the first fails between the put and the read of the second. */
  function Opening(u: UserId, k: string, h: string): seq<Action> {
    [Arrive(0, u, k, h)] + [Arrive(1, u, k, h)] + [Put(0)] + [Put(1)] + [Abandon(0)]
  }

  lemma OpeningPuts(u: UserId, k: string, h: string)
    ensures var run := [Arrive(0, u, k, h)] + [Arrive(1, u, k, h)] + [Put(0)];
            var r, id := Request(u, k, h, Start), RecordIdOf(u, k);
            && Calm(EMPTY, run, id)
            && Exec(EMPTY, run)
               == State(map[id := Record(Some(h), None)], map[], map[0 := r.(phase := Working), 1 := r])
  {
    var id, r := RecordIdOf(u, k), Request(u, k, h, Start);
    var run := [Arrive(0, u, k, h)];
    OneMore(EMPTY, [], run[0], id);
    assert [] + run == run;
    OneMore(EMPTY, run, Arrive(1, u, k, h), id);
    run := run + [Arrive(1, u, k, h)];
    assert Exec(EMPTY, run) == State(map[], map[], map[0 := r, 1 := r]);
    OneMore(EMPTY, run, Put(0), id);
  }

  lemma OpeningState(u: UserId, k: string, h: string)
    ensures var r, id := Request(u, k, h, Start), RecordIdOf(u, k);
            && Calm(EMPTY, Opening(u, k, h), id)
            && Exec(EMPTY, Opening(u, k, h))
               == State(map[], map[], map[0 := r.(phase := Finished(Failed)), 1 := r.(phase := Missed)])
  {
    var id, r := RecordIdOf(u, k), Request(u, k, h, Start);
    var run := [Arrive(0, u, k, h)] + [Arrive(1, u, k, h)] + [Put(0)];
    var s := State(map[id := Record(Some(h), None)], map[], map[0 := r.(phase := Working), 1 := r]);
    OpeningPuts(u, k, h);
    OneMore(EMPTY, run, Put(1), id);
    assert Apply(s, Put(1)) == s.(requests := s.requests[1 := r.(phase := Missed)]);
    OneMore(EMPTY, run + [Put(1)], Abandon(0), id);
    assert s.store - {id} == map[];
  }

  lemma {:induction false} ExecConcat(s: State, run: seq<Action>, more: seq<Action>)
    ensures Exec(s, run + more) == Exec(Exec(s, run), more)
  {
    if more == [] {
      assert run + more == run;
    } else {
      ExecConcat(s, run, more[..|more| - 1]);
      assert (run + more)[..|run + more| - 1] == run + more[..|more| - 1];
    }
  }

  /** An instance: the second request reads after the first gave up, a third arrives, and both of them commit. */
  lemma VanishedRecordAllowsTwoOrders(u: UserId, k: string, h: string, o: OrderId, p: OrderId)
    requires o != p
    ensures var r := Request(u, k, h, Start);
            Exec(EMPTY, Opening(u, k, h) + [Look(1)] + SecondOrder(r, 1, 2, o, p)).orders
            == map[o := Tag(u, k, h), p := Tag(u, k, h)]
    ensures CanDouble(Exec(EMPTY, Opening(u, k, h) + [Look(1)]), RecordIdOf(u, k))
  {
    var r, run, id := Request(u, k, h, Start), Opening(u, k, h), RecordIdOf(u, k);
    OpeningState(u, k, h);
    LookIsUnsafeIff(run, 1);
    OneMore(EMPTY, run, Look(1), id);
    var s := Exec(EMPTY, run + [Look(1)]);
    assert s.requests[1] == r.(phase := Working);
    WorkerAndNewcomer(s, 1, 2, o, p);
    ExecConcat(EMPTY, run + [Look(1)], SecondOrder(r, 1, 2, o, p));
  }

  // ---- the store and the route ----------------------------------------------

  /** The claim: a conditional put, and if that fails a read of what the table holds `later`. */
  function Claimed(store: Store, later: Store, id: RecordId, hash: string): (Store, Claim) {
    if id !in store then (store[id := Record(Some(hash), None)], Proceed) else (later, Inspect(later, id, hash))
  }

  class IdempotencyStore {
    var table: Store

    constructor ()
      ensures table == map[]
    {
      table := map[];
    }

    /** Other requests may turn the table into `later` between the failed put and the read. */
    method TryClaim(user: UserId, key: string, hash: string, later: Store) returns (r: Claim)
      modifies this
      ensures (table, r) == Claimed(old(table), later, RecordIdOf(user, key), hash)
      ensures var id := RecordIdOf(user, key);
              && (r == Proceed <==> id !in old(table) || id !in later)
              && (id !in old(table) ==> table == old(table)[id := Record(Some(hash), None)])
              && (id in old(table) ==> table == later)
              && (id in old(table) && id in later ==>
                    && (r == Conflict <==> later[id].hash != Some(hash))
                    && (r == Busy <==> later[id].hash == Some(hash) && later[id].done == None)
                    && (forall o :: r == Replay(o) <==> later[id] == Record(Some(hash), Some(o))))
    {
      var id := RecordIdOf(user, key);
      if id !in table {
        table := table[id := Record(Some(hash), None)];
        return Proceed;
      }
      table := later;
      if id !in table {
        return Proceed;
      }
      var existing := table[id];
      if existing.hash != Some(hash) {
        return Conflict;
      }
      if existing.done.Some? {
        return Replay(existing.done.value);
      }
      return Busy;
    }

    method Complete(user: UserId, key: string, o: OrderId)
      modifies this
      ensures table == Completed(old(table), RecordIdOf(user, key), o)
      ensures var id := RecordIdOf(user, key);
              && id in table && table[id].done == Some(o)
              && table[id].hash == (if id in old(table) then old(table)[id].hash else None)
              && table - {id} == old(table) - {id}
    {
      var id := RecordIdOf(user, key);
      var hash := if id in table then table[id].hash else None;
      table := table[id := Record(hash, Some(o))];
    }

    method Release(user: UserId, key: string)
      modifies this
      ensures table == old(table) - {RecordIdOf(user, key)}
    {
      table := table - {RecordIdOf(user, key)};
    }
  }

  /** What the request asks for, and the key it comes with, if any. */
  datatype Call = Call(user: UserId, email: Option<string>, key: Option<string>, hash: string, id: OrderId, now: int)
  {
    predicate Keyed() { key != None && key != Some("") }

    function RecordId(): RecordId
      requires Keyed()
    {
      RecordIdOf(user, key.value)
    }
  }

  /** The server-side quote: the priced lines, or one of the two errors. */
  datatype Quoted = Lines(items: seq<Line>) | CatalogueDown | NotSold(p: ProductId)

  /** Which later calls fail: the transaction, the completion of the key, its release. */
  datatype Faults = Faults(commit: bool, complete: bool, release: bool)

  /**
   * 201, 200 with the replay header, 422 and 409 for the key, 503 and 422 for the price, and errors before or after
   * the commit.
   */
  datatype Response =
    | Accepted(o: OrderId) | Again(o: OrderId) | KeyReused | AlreadyInFlight
    | PricingUnavailable | ProductUnavailable(p: ProductId)
    | CommitFailed | KeyStoreFailed | LostAfterCommit(o: OrderId)

  /** The request gets past its key: it has none, or claims it, or the order that the record names is gone. */
  predicate GoesOn(store: Store, later: Store, db: Orders.Db, c: Call) {
    c.Keyed() ==>
      var claim := Claimed(store, later, c.RecordId(), c.hash).1;
      claim == Proceed || (claim.Replay? && claim.orderId !in db.orders)
  }

  /** The transaction goes through. */
  predicate Commits(db: Orders.Db, c: Call, priced: Quoted, f: Faults) {
    priced.Lines? && !f.commit && Orders.PutWithCommand(db, c.id, c.user, c.email, priced.items, c.now) != None
  }

  function Turned(store: Store, later: Store, c: Call): Response
    requires c.Keyed()
  {
    match Claimed(store, later, c.RecordId(), c.hash).1
    case Conflict => KeyReused
    case Replay(o) => Again(o)
    case _ => AlreadyInFlight
  }

  /** What POST /v1/orders leaves in the two tables, and its answer. */
  function Routed(store: Store, later: Store, db: Orders.Db, c: Call, priced: Quoted, f: Faults)
    : (Store, Orders.Db, Response)
  {
    var claimed := if c.Keyed() then Claimed(store, later, c.RecordId(), c.hash).0 else store;
    if !GoesOn(store, later, db, c) then (claimed, db, Turned(store, later, c))
    else if Commits(db, c, priced, f) then
      var db' := Orders.PutWithCommand(db, c.id, c.user, c.email, priced.items, c.now).value;
      if !c.Keyed() then (claimed, db', Accepted(c.id))
      else if f.complete then (claimed, db', LostAfterCommit(c.id))
      else (Completed(claimed, c.RecordId(), c.id), db', Accepted(c.id))
    else if c.Keyed() && f.release then (claimed, db, KeyStoreFailed)
    else
      (if c.Keyed() then claimed - {c.RecordId()} else claimed, db,
       if priced.CatalogueDown? then PricingUnavailable
       else if priced.NotSold? then ProductUnavailable(priced.p) else CommitFailed)
  }

  method CreateOrder(keys: IdempotencyStore, repo: Orders.OrderRepository, c: Call, later: Store, priced: Quoted,
                     f: Faults)
    returns (r: Response)
    modifies keys, repo
    ensures (keys.table, repo.Contents(), r) == Routed(old(keys.table), later, old(repo.Contents()), c, priced, f)
  {
    if c.Keyed() {
      var claim := keys.TryClaim(c.user, c.key.value, c.hash, later);
      match claim {
      case Conflict => return KeyReused;
      case Busy => return AlreadyInFlight;
      case Replay(o) =>
        if o in repo.orders {
          return Again(o);
        }
      case Proceed =>
      }
    }
    var ok := false;
    if priced.Lines? && !f.commit {
      ok := repo.Put(c.id, c.user, c.email, priced.items, c.now);
    }
    if !ok {
      if c.Keyed() {
        if f.release {
          return KeyStoreFailed;
        }
        keys.Release(c.user, c.key.value);
      }
      return if priced.CatalogueDown? then PricingUnavailable
             else if priced.NotSold? then ProductUnavailable(priced.p) else CommitFailed;
    }
    if c.Keyed() {
      if f.complete {
        return LostAfterCommit(c.id);
      }
      keys.Complete(c.user, c.key.value, c.id);
    }
    return Accepted(c.id);
  }

  /**
   * An order is written exactly on 201 and when only the completion failed; and a failure before the commit frees the
   * key.
   */
  lemma RouteIsAllOrNothing(store: Store, later: Store, db: Orders.Db, c: Call, priced: Quoted, f: Faults)
    ensures var (store', db', r) := Routed(store, later, db, c, priced, f);
            && (db' != db <==> r.Accepted? || r.LostAfterCommit?)
            && (db' != db ==> c.id !in db.orders && c.id in db'.orders && CreatedId(c.id) in db'.outbox)
            && (c.Keyed() && (r.PricingUnavailable? || r.ProductUnavailable? || r.CommitFailed?) ==>
                  c.RecordId() !in store')
            && (c.Keyed() && r.Accepted? ==> c.RecordId() in store' && store'[c.RecordId()].done == Some(c.id))
            && (c.Keyed() && r.Accepted? && c.RecordId() !in store ==> store'[c.RecordId()].hash == Some(c.hash))
  {
  }

  /** Someone got here first, and the record is still there for the read. */
  predicate Met(store: Store, later: Store, c: Call) {
    c.Keyed() && c.RecordId() in store && c.RecordId() in later
  }

  /** When each answer about the key is given, on the fields of the record that was met. */
  lemma KeyIsAnswered(store: Store, later: Store, db: Orders.Db, c: Call, priced: Quoted, f: Faults)
    ensures var (store', db', r) := Routed(store, later, db, c, priced, f);
            && (r == KeyReused <==> Met(store, later, c) && later[c.RecordId()].hash != Some(c.hash))
            && (r == AlreadyInFlight <==> Met(store, later, c) && later[c.RecordId()] == Record(Some(c.hash), None))
            && (forall o :: r == Again(o) <==>
                  Met(store, later, c) && later[c.RecordId()] == Record(Some(c.hash), Some(o)) && o in db.orders)
            && (r == KeyReused || r == AlreadyInFlight || r.Again? ==> db' == db && store' == later)
  {
  }

  /** The request got past its key. */
  predicate PastTheKey(store: Store, later: Store, db: Orders.Db, c: Call) {
    Met(store, later, c) ==>
      var record := later[c.RecordId()];
      record.hash == Some(c.hash) && record.done != None && record.done.value !in db.orders
  }

  /** When each answer about the order is given, and what a new order and its command say. */
  lemma OrderIsAnswered(store: Store, later: Store, db: Orders.Db, c: Call, priced: Quoted, f: Faults)
    ensures var (store', db', r) := Routed(store, later, db, c, priced, f);
            var past := PastTheKey(store, later, db, c);
            var writes := priced.Lines? && !f.commit && c.id !in db.orders && CreatedId(c.id) !in db.outbox;
            && (r == Accepted(c.id) <==> past && writes && !(c.Keyed() && f.complete))
            && (r == LostAfterCommit(c.id) <==> past && writes && c.Keyed() && f.complete)
            && (r == KeyStoreFailed <==> past && !writes && c.Keyed() && f.release)
            && (r == PricingUnavailable <==> past && priced == CatalogueDown && !(c.Keyed() && f.release))
            && (forall p :: r == ProductUnavailable(p) <==> past && priced == NotSold(p) && !(c.Keyed() && f.release))
            && (r == CommitFailed <==> past && priced.Lines? && !writes && !(c.Keyed() && f.release))
            && (db' != db ==>
                  && c.id in db'.orders && CreatedId(c.id) in db'.outbox
                  && db'.orders[c.id].userId == c.user && db'.orders[c.id].items == priced.items
                  && db'.orders[c.id].status == Pending
                  && db'.outbox[CreatedId(c.id)].payload == OrderCreated(c.id, c.user, c.email, priced.items))
  {
  }

  function ClaimSteps(s: State, i: nat, c: Call): seq<Action>
    requires c.Keyed()
  {
    [Arrive(i, c.user, c.key.value, c.hash)] + [Put(i)] + (if c.RecordId() in s.store then [Look(i)] else [])
  }

  /** The same request as steps of the protocol, when nobody disturbs it. */
  function RouteSteps(s: State, db: Orders.Db, i: nat, c: Call, priced: Quoted, f: Faults): seq<Action>
    requires c.Keyed()
  {
    ClaimSteps(s, i, c)
    + (if !GoesOn(s.store, s.store, db, c) then []
       else if Commits(db, c, priced, f) then [Commit(i, c.id)] + [if f.complete then Die(i) else Complete(i)]
       else [if f.release then Die(i) else Abandon(i)])
  }

  function ReplyOf(r: Response): Reply {
    match r
    case Accepted(o) => Created(o)
    case Again(o) => Replayed(o)
    case KeyReused => Refused
    case AlreadyInFlight => InFlight
    case _ => Failed
  }

  lemma ClaimTaken(s: State, i: nat, c: Call)
    requires c.Keyed() && i !in s.requests && c.RecordId() !in s.store
    ensures Exec(s, ClaimSteps(s, i, c))
            == State(s.store[c.RecordId() := Record(Some(c.hash), None)], s.orders,
                     s.requests[i := Request(c.user, c.key.value, c.hash, Working)])
  {
    var r := Request(c.user, c.key.value, c.hash, Start);
    NewcomerWorks(s, r, i);
    assert ClaimSteps(s, i, c) == [Arrive(i, r.user, r.key, r.hash)] + [Put(i)];
  }

  lemma PutMisses(s: State, r: Request, i: nat)
    requires i !in s.requests && r.Id() in s.store
    ensures Exec(s, [Arrive(i, r.user, r.key, r.hash)] + [Put(i)])
            == s.(requests := s.requests[i := r.(phase := Missed)])
  {
    var a := Arrive(i, r.user, r.key, r.hash);
    var t := s.(requests := s.requests[i := r.(phase := Start)]);
    OneMore(s, [], a, "");
    assert [] + [a] == [a];
    OneMore(s, [a], Put(i), "");
    assert Apply(s, a) == t && t.requests[i].Id() == r.Id();
    assert t.requests[i := r.(phase := Missed)] == s.requests[i := r.(phase := Missed)];
  }

  lemma ClaimMissed(s: State, i: nat, c: Call)
    requires c.Keyed() && i !in s.requests && c.RecordId() in s.store
    ensures var r := Request(c.user, c.key.value, c.hash, Missed);
            Exec(s, ClaimSteps(s, i, c)) == s.(requests := s.requests[i := r.(phase := Looked(s, r))])
  {
    var r := Request(c.user, c.key.value, c.hash, Missed);
    var run, t := [Arrive(i, r.user, r.key, r.hash)] + [Put(i)], s.(requests := s.requests[i := r]);
    PutMisses(s, r, i);
    OneMore(s, run, Look(i), "");
    assert Looked(t, r) == Looked(s, r);
    assert t.requests[i := r.(phase := Looked(s, r))] == s.requests[i := r.(phase := Looked(s, r))];
  }

  /** The state after the claim: the caller works, or has its answer. */
  function AfterClaim(s: State, db: Orders.Db, i: nat, c: Call): State
    requires c.Keyed()
  {
    var phase := if GoesOn(s.store, s.store, db, c) then Working else Finished(ReplyOf(Turned(s.store, s.store, c)));
    State(Claimed(s.store, s.store, c.RecordId(), c.hash).0, s.orders,
          s.requests[i := Request(c.user, c.key.value, c.hash, phase)])
  }

  lemma ClaimIsARun(s: State, db: Orders.Db, i: nat, c: Call)
    requires c.Keyed() && i !in s.requests && s.orders.Keys == db.orders.Keys
    ensures Exec(s, ClaimSteps(s, i, c)) == AfterClaim(s, db, i, c)
  {
    if c.RecordId() in s.store { ClaimMissed(s, i, c); } else { ClaimTaken(s, i, c); }
  }

  lemma CommitIsARun(s: State, run: seq<Action>, i: nat, o: OrderId, dies: bool)
    requires var t := Exec(s, run); i in t.requests && t.requests[i].phase == Working && o !in t.orders
    ensures var t, u := Exec(s, run), Exec(s, run + ([Commit(i, o)] + [if dies then Die(i) else Complete(i)]));
            && u.store == (if dies then t.store else Completed(t.store, t.requests[i].Id(), o))
            && u.orders.Keys == t.orders.Keys + {o} && i in u.requests
            && u.requests[i].phase == Finished(if dies then Failed else Created(o))
  {
    var last := if dies then Die(i) else Complete(i);
    OneMore(s, run, Commit(i, o), "");
    OneMore(s, run + [Commit(i, o)], last, "");
    assert run + ([Commit(i, o)] + [last]) == run + [Commit(i, o)] + [last];
  }

  lemma GivingUpIsARun(s: State, run: seq<Action>, i: nat, dies: bool)
    requires var t := Exec(s, run); i in t.requests && t.requests[i].phase == Working
    ensures var t, u := Exec(s, run), Exec(s, run + [if dies then Die(i) else Abandon(i)]);
            && u.store == (if dies then t.store else t.store - {t.requests[i].Id()})
            && u.orders == t.orders && i in u.requests && u.requests[i].phase == Finished(Failed)
  {
    OneMore(s, run, if dies then Die(i) else Abandon(i), "");
  }

  /** The protocol's state after a request says what the route left and answered. */
  predicate Matches(t: State, i: nat, routed: (Store, Orders.Db, Response)) {
    && t.store == routed.0 && t.orders.Keys == routed.1.orders.Keys
    && i in t.requests && t.requests[i].phase == Finished(ReplyOf(routed.2))
  }

  lemma TurnedAwayIsARun(s: State, db: Orders.Db, i: nat, c: Call, priced: Quoted, f: Faults)
    requires c.Keyed() && i !in s.requests && s.orders.Keys == db.orders.Keys
    requires !GoesOn(s.store, s.store, db, c)
    ensures Matches(Exec(s, RouteSteps(s, db, i, c, priced, f)), i, Routed(s.store, s.store, db, c, priced, f))
  {
    ClaimIsARun(s, db, i, c);
    assert ClaimSteps(s, i, c) + [] == ClaimSteps(s, i, c);
  }

  lemma CommittedIsARun(s: State, db: Orders.Db, i: nat, c: Call, priced: Quoted, f: Faults)
    requires c.Keyed() && i !in s.requests && s.orders.Keys == db.orders.Keys
    requires GoesOn(s.store, s.store, db, c) && Commits(db, c, priced, f)
    ensures Matches(Exec(s, RouteSteps(s, db, i, c, priced, f)), i, Routed(s.store, s.store, db, c, priced, f))
  {
    ClaimIsARun(s, db, i, c);
    CommitIsARun(s, ClaimSteps(s, i, c), i, c.id, f.complete);
  }

  lemma GivenUpIsARun(s: State, db: Orders.Db, i: nat, c: Call, priced: Quoted, f: Faults)
    requires c.Keyed() && i !in s.requests && s.orders.Keys == db.orders.Keys
    requires GoesOn(s.store, s.store, db, c) && !Commits(db, c, priced, f)
    ensures Matches(Exec(s, RouteSteps(s, db, i, c, priced, f)), i, Routed(s.store, s.store, db, c, priced, f))
  {
    ClaimIsARun(s, db, i, c);
    GivingUpIsARun(s, ClaimSteps(s, i, c), i, f.release);
  }

  /** An undisturbed call with a key is a run of the protocol, so what every run keeps holds of the route. */
  lemma RouteIsARun(s: State, db: Orders.Db, i: nat, c: Call, priced: Quoted, f: Faults)
    requires c.Keyed() && i !in s.requests && s.orders.Keys == db.orders.Keys
    ensures Matches(Exec(s, RouteSteps(s, db, i, c, priced, f)), i, Routed(s.store, s.store, db, c, priced, f))
  {
    if !GoesOn(s.store, s.store, db, c) {
      TurnedAwayIsARun(s, db, i, c, priced, f);
    } else if Commits(db, c, priced, f) {
      CommittedIsARun(s, db, i, c, priced, f);
    } else {
      GivenUpIsARun(s, db, i, c, priced, f);
    }
  }
}
