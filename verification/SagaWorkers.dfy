/**
 * The code that drives the saga: the two queue consumers and the two outbox relays, written as the services
 * run them, each shown to take only steps of the protocol. Every method also returns the steps it took.
 */
module SagaWorkers {
  import opened Common
  import opened SagaTypes
  import opened Messaging
  import opened Saga
  import Inventory
  import Orders

  /** Which calls fail during one pass: the environment's choice. */
  datatype Faults = Faults(readFails: bool, sendFails: set<OutcomeId>, markFails: set<OutcomeId>)

  /** A handler says "delete", says "leave for redelivery", or raises. */
  datatype Handling = Delete | Leave | Raise

  lemma ExecDeleteCommand(w: Wiring, s: State, run: seq<Action>, m: Message)
    ensures var t := Exec(w, s, run);
            Exec(w, s, run + [OnCommand(DeleteCommand(m))]) == t.(commands := t.commands.Delete(m))
  {
    ExecOne(w, s, run, OnCommand(DeleteCommand(m)));
  }

  lemma ExecDeleteOutcome(w: Wiring, s: State, run: seq<Action>, e: Outcome)
    ensures var t := Exec(w, s, run);
            Exec(w, s, run + [OnOutcome(DeleteOutcome(e))]) == t.(outcomes := t.outcomes.Delete(e))
  {
    ExecOne(w, s, run, OnOutcome(DeleteOutcome(e)));
  }

  lemma ExecTwo(w: Wiring, s: State, run: seq<Action>, a: Action, b: Action)
    ensures Exec(w, s, run + [a, b]) == Apply(w, Apply(w, Exec(w, s, run), a), b)
  {
    ExecOne(w, s, run, a);
    ExecOne(w, s, run + [a], b);
    assert run + [a] + [b] == run + [a, b];
  }

  lemma ExecThree(w: Wiring, s: State, run: seq<Action>, a: Action, b: Action, c: Action)
    ensures Exec(w, s, run + [a, b, c]) == Apply(w, Apply(w, Apply(w, Exec(w, s, run), a), b), c)
  {
    ExecTwo(w, s, run, a, b);
    ExecOne(w, s, run + [a, b], c);
    assert run + [a, b] + [c] == run + [a, b, c];
  }

  /** The steps a publisher takes for one row, given what fails. */
  function PublishSteps(e: Outcome, f: Faults): seq<Action> {
    if e.id in f.sendFails then [OnPublish(OutRead(e.id)), OnPublish(OutCrash(e, false))]
    else if e.id in f.markFails then [OnPublish(OutRead(e.id)), OnPublish(OutSend(e)), OnPublish(OutCrash(e, true))]
    else [OnPublish(OutRead(e.id)), OnPublish(OutSend(e)), OnPublish(OutMark(e))]
  }

  lemma PublishSendFails(w: Wiring, s: State, run: seq<Action>, id: OutcomeId)
    requires var t := Exec(w, s, run); id in t.inv.outbox && !t.inv.outbox[id].published
    ensures var t := Exec(w, s, run);
            Exec(w, s, run + [OnPublish(OutRead(id)), OnPublish(OutCrash(Announcement(t.inv, id), false))]) == t
  {
    var t := Exec(w, s, run);
    var e, p := Announcement(t.inv, id), t.publisher;
    assert p.Check(e).LeaveRead(e) == p;
    ExecTwo(w, s, run, OnPublish(OutRead(id)), OnPublish(OutCrash(e, false)));
  }

  /** A publisher that has sent an outcome and left is as if it had never come. */
  lemma PublisherLeaves(s: State, e: Outcome)
    ensures s.publisher.Check(e).Send(e).LeaveSent(e) == s.publisher
  {
  }

  lemma PublishMarkFails(w: Wiring, s: State, run: seq<Action>, id: OutcomeId)
    requires var t := Exec(w, s, run); id in t.inv.outbox && !t.inv.outbox[id].published
    ensures var t := Exec(w, s, run);
            var e := Announcement(t.inv, id);
            Exec(w, s, run + [OnPublish(OutRead(id)), OnPublish(OutSend(e)), OnPublish(OutCrash(e, true))])
            == t.(outcomes := t.outcomes.Put(e))
  {
    var t := Exec(w, s, run);
    var e := Announcement(t.inv, id);
    PublisherLeaves(t, e);
    ExecThree(w, s, run, OnPublish(OutRead(id)), OnPublish(OutSend(e)), OnPublish(OutCrash(e, true)));
  }

  lemma PublishMarks(w: Wiring, s: State, run: seq<Action>, id: OutcomeId)
    requires var t := Exec(w, s, run); id in t.inv.outbox && !t.inv.outbox[id].published
    ensures var t := Exec(w, s, run);
            var e := Announcement(t.inv, id);
            Exec(w, s, run + [OnPublish(OutRead(id)), OnPublish(OutSend(e)), OnPublish(OutMark(e))])
            == t.(outcomes := t.outcomes.Put(e), inv := Inventory.MarkPublished(t.inv, id))
  {
    var t := Exec(w, s, run);
    var e := Announcement(t.inv, id);
    PublisherLeaves(t, e);
    ExecThree(w, s, run, OnPublish(OutRead(id)), OnPublish(OutSend(e)), OnPublish(OutMark(e)));
  }

  lemma PublishOneRow(w: Wiring, s: State, run: seq<Action>, id: OutcomeId, f: Faults)
    requires var t := Exec(w, s, run); id in t.inv.outbox && !t.inv.outbox[id].published
    ensures var t := Exec(w, s, run);
            var e := Announcement(t.inv, id);
            Exec(w, s, run + PublishSteps(e, f)) ==
            if id in f.sendFails then t
            else if id in f.markFails then t.(outcomes := t.outcomes.Put(e))
            else t.(outcomes := t.outcomes.Put(e), inv := Inventory.MarkPublished(t.inv, id))
  {
    if id in f.sendFails {
      PublishSendFails(w, s, run, id);
    } else if id in f.markFails {
      PublishMarkFails(w, s, run, id);
    } else {
      PublishMarks(w, s, run, id);
    }
  }

  /** A relay worker finds the row pending and sends its message. */
  function SendSteps(m: Message): seq<Action> {
    [OnRelay(RelayRead(m.eventId)), OnRelay(RelaySend(m))]
  }

  function RelaySteps(m: Message, sendFails: bool, markFails: bool): seq<Action> {
    if sendFails then [OnRelay(RelayRead(m.eventId)), OnRelay(RelayCrash(m, false))]
    else SendSteps(m) + [if markFails then OnRelay(RelayCrash(m, true)) else OnRelay(RelayMark(m))]
  }

  function Sent(q: Queue<Message>, m: Message): Queue<Message> {
    if m.eventId.FulfilmentId? then q else q.Put(m)
  }

  lemma RelaySendFails(w: Wiring, s: State, m: Message)
    requires m.eventId in s.od.outbox && s.od.outbox[m.eventId] == Orders.OutboxRow(m.body, false)
    ensures Exec(w, s, [OnRelay(RelayRead(m.eventId)), OnRelay(RelayCrash(m, false))]) == s
  {
    var run := [OnRelay(RelayRead(m.eventId)), OnRelay(RelayCrash(m, false))];
    assert s.relay.Check(m).LeaveRead(m) == s.relay;
    ExecTwo(w, s, [], run[0], run[1]);
    assert [] + run == run;
  }

  lemma ExecRelayCrash(w: Wiring, s: State, run: seq<Action>, m: Message)
    ensures var t := Exec(w, s, run);
            Exec(w, s, run + [OnRelay(RelayCrash(m, true))]) == t.(relay := t.relay.LeaveSent(m))
  {
    ExecOne(w, s, run, OnRelay(RelayCrash(m, true)));
  }

  lemma ExecRelayMark(w: Wiring, s: State, run: seq<Action>, m: Message)
    requires m in Exec(w, s, run).relay.sent
    ensures var t := Exec(w, s, run);
            Exec(w, s, run + [OnRelay(RelayMark(m))])
            == t.(relay := t.relay.LeaveSent(m), od := Orders.MarkDelivered(t.od, m.eventId))
  {
    ExecOne(w, s, run, OnRelay(RelayMark(m)));
  }

  lemma RelaySendGoesOut(w: Wiring, s: State, m: Message)
    requires m.eventId in s.od.outbox && s.od.outbox[m.eventId] == Orders.OutboxRow(m.body, false)
    ensures Exec(w, s, SendSteps(m)) == s.(relay := s.relay.Check(m).Send(m), commands := Sent(s.commands, m))
  {
    var run := SendSteps(m);
    ExecTwo(w, s, [], run[0], run[1]);
    assert [] + run == run;
  }

  /** A worker that has sent a message and left is as if it had never come. */
  lemma SenderLeaves(s: State, m: Message)
    ensures s.relay.Check(m).Send(m).LeaveSent(m) == s.relay
  {
  }

  lemma RelayMarkFails(w: Wiring, s: State, m: Message)
    requires m.eventId in s.od.outbox && s.od.outbox[m.eventId] == Orders.OutboxRow(m.body, false)
    ensures Exec(w, s, SendSteps(m) + [OnRelay(RelayCrash(m, true))]) == s.(commands := Sent(s.commands, m))
  {
    RelaySendGoesOut(w, s, m);
    ExecRelayCrash(w, s, SendSteps(m), m);
    SenderLeaves(s, m);
  }

  lemma RelayDelivers(w: Wiring, s: State, m: Message)
    requires m.eventId in s.od.outbox && s.od.outbox[m.eventId] == Orders.OutboxRow(m.body, false)
    ensures Exec(w, s, SendSteps(m) + [OnRelay(RelayMark(m))])
            == s.(commands := Sent(s.commands, m), od := Orders.MarkDelivered(s.od, m.eventId))
  {
    RelaySendGoesOut(w, s, m);
    ExecRelayMark(w, s, SendSteps(m), m);
    SenderLeaves(s, m);
  }

  lemma RelayOneRow(w: Wiring, s: State, m: Message, sendFails: bool, markFails: bool)
    requires m.eventId in s.od.outbox && s.od.outbox[m.eventId] == Orders.OutboxRow(m.body, false)
    ensures Exec(w, s, RelaySteps(m, sendFails, markFails)) ==
            if sendFails then s
            else if markFails then s.(commands := Sent(s.commands, m))
            else s.(commands := Sent(s.commands, m), od := Orders.MarkDelivered(s.od, m.eventId))
  {
    if sendFails {
      RelaySendFails(w, s, m);
    } else if markFails {
      RelayMarkFails(w, s, m);
    } else {
      RelayDelivers(w, s, m);
    }
  }

  predicate Succeeds(id: OutcomeId, f: Faults) {
    id !in f.sendFails && id !in f.markFails
  }

  function Successes(ids: seq<OutcomeId>, f: Faults): nat {
    if ids == [] then 0 else Successes(ids[..|ids| - 1], f) + (if Succeeds(ids[|ids| - 1], f) then 1 else 0)
  }

  function Announced(outbox: map<OutcomeId, Inventory.OutcomeRow>, ids: seq<OutcomeId>, f: Faults)
    : map<OutcomeId, Inventory.OutcomeRow>
  {
    map id | id in outbox :: if id in ids && Succeeds(id, f) then outbox[id].(published := true) else outbox[id]
  }

  lemma AnnounceOneMore(outbox: map<OutcomeId, Inventory.OutcomeRow>, ids: seq<OutcomeId>, i: nat, f: Faults)
    requires i < |ids| && ids[i] in outbox && !outbox[ids[i]].published && forall j :: 0 <= j < i ==> ids[j] != ids[i]
    ensures var before, after := Announced(outbox, ids[..i], f), Announced(outbox, ids[..i + 1], f);
            && ids[i] in before && before[ids[i]] == outbox[ids[i]]
            && after == (if Succeeds(ids[i], f) then before[ids[i] := before[ids[i]].(published := true)] else before)
    ensures Successes(ids[..i + 1], f) == Successes(ids[..i], f) + (if Succeeds(ids[i], f) then 1 else 0)
  {
    assert ids[..i + 1][..i] == ids[..i] && ids[..i + 1] == ids[..i] + [ids[i]];
  }

  /** The outcome queue after the rows' announcements were sent, except those whose sending fails. */
  function SentOut(q: Queue<Outcome>, db: Inventory.Db, ids: seq<OutcomeId>, f: Faults): Queue<Outcome>
    requires forall i :: 0 <= i < |ids| ==> ids[i] in db.outbox
  {
    if ids == [] then q
    else
      var n := |ids| - 1;
      var before := SentOut(q, db, ids[..n], f);
      if ids[n] in f.sendFails then before else before.Put(Announcement(db, ids[n]))
  }

  lemma SentOneMore(q: Queue<Outcome>, db: Inventory.Db, ids: seq<OutcomeId>, i: nat, f: Faults)
    requires i < |ids| && forall j :: 0 <= j < |ids| ==> ids[j] in db.outbox
    ensures SentOut(q, db, ids[..i + 1], f)
            == (var before := SentOut(q, db, ids[..i], f);
                if ids[i] in f.sendFails then before else before.Put(Announcement(db, ids[i])))
  {
    assert ids[..i + 1][..i] == ids[..i];
  }

  /** Every row tried has its announcement queued, unless it cannot be sent, and nothing that was queued is lost. */
  lemma {:induction false} SentOutReaches(q: Queue<Outcome>, db: Inventory.Db, ids: seq<OutcomeId>, f: Faults, i: nat)
    requires forall j :: 0 <= j < |ids| ==> ids[j] in db.outbox
    requires i < |ids| && ids[i] !in f.sendFails
    ensures Announcement(db, ids[i]) in SentOut(q, db, ids, f).messages
  {
    var n := |ids| - 1;
    if i < n { SentOutReaches(q, db, ids[..n], f, i); }
  }

  /** What a received body turns out to be: no event at all, an event of another type, or a command. */
  datatype Body = Garbled | Ignored | Command(m: Message)
  {
    predicate Actionable() { Command? && !m.body.FulfilmentChanged? }
  }

  /** What handling a command must come to: the transaction if it can be tried, and whether it is settled. */
  function Settlement(w: Wiring, db: Inventory.Db, m: Message, dbFails: bool, now: int): (Inventory.Db, bool) {
    if dbFails then (db, false) else HandleCommand(w, db, m, now)
  }

  /** What is to become of the message. */
  function Verdict(w: Wiring, db: Inventory.Db, b: Body, dbFails: bool, f: Faults, now: int): Handling {
    if b.Garbled? then Leave
    else if !b.Actionable() then Delete
    else if !Settlement(w, db, b.m, dbFails, now).1 then Leave
    else if f.readFails then Raise
    else Delete
  }

  function Settled(w: Wiring, db: Inventory.Db, b: Body, dbFails: bool, now: int): Inventory.Db {
    if b.Actionable() then Settlement(w, db, b.m, dbFails, now).0 else db
  }

  /** What the consumer works on: its database, and the queue that its announcements go to. */
  datatype Shop = Shop(inv: Inventory.Db, outcomes: Queue<Outcome>)

  /** The 25 oldest pending outcomes are tried: what can be sent is sent, and marked if that succeeds too. */
  ghost predicate Publishes(a: Shop, f: Faults, z: Shop) {
    exists ids :: Inventory.OldestPending(a.inv.outbox, 25, ids)
                  && z == Shop(a.inv.(outbox := Announced(a.inv.outbox, ids, f)), SentOut(a.outcomes, a.inv, ids, f))
  }

  /** The database moves as the body demands; what is then waiting is published if a command was settled. */
  ghost predicate Handles(w: Wiring, a: Shop, b: Body, dbFails: bool, f: Faults, now: int, z: Shop, r: Handling) {
    var mid := a.(inv := Settled(w, a.inv, b, dbFails, now));
    && r == Verdict(w, a.inv, b, dbFails, f, now)
    && (if b.Actionable() && r == Delete then Publishes(mid, f, z) else z == mid)
  }

  // ---- a settled command is announced ---------------------------------------

  const NO_FAULTS := Faults(false, {}, {})

  function Waiting(db: Inventory.Db): set<OutcomeId> {
    set id | id in db.outbox && !db.outbox[id].published
  }

  /** No row is left pending, and whatever was not published before has its announcement in the queue. */
  ghost predicate AllAnnounced(a: Shop, z: Shop) {
    && (forall id :: id in z.inv.outbox ==> z.inv.outbox[id].published)
    && (forall id :: id in z.inv.outbox && !(id in a.inv.outbox && a.inv.outbox[id].published) ==>
          Announcement(z.inv, id) in z.outcomes.messages)
  }

  lemma {:induction false} SetOf(ids: seq<OutcomeId>) returns (s: set<OutcomeId>)
    requires forall i, j :: 0 <= i < j < |ids| ==> ids[i] != ids[j]
    ensures |s| == |ids| && forall id :: id in s <==> id in ids
  {
    if ids == [] {
      s := {};
    } else {
      var n := |ids| - 1;
      var front := SetOf(ids[..n]);
      s := front + {ids[n]};
      assert ids[n] !in front;
      assert ids == ids[..n] + [ids[n]];
    }
  }

  lemma SubsetIsSmaller(small: set<OutcomeId>, large: set<OutcomeId>)
    requires small <= large
    ensures |small| <= |large| && (|small| == |large| ==> small == large)
    decreases |small|
  {
    if x :| x in small {
      SubsetIsSmaller(small - {x}, large - {x});
      assert small == small - {x} + {x} && large == large - {x} + {x};
    } else {
      assert |large| == 0 ==> large == {};
    }
  }

  /** When no more than the limit are waiting, the batch is all of them. */
  lemma EveryoneIsTried(db: Inventory.Db, limit: nat, ids: seq<OutcomeId>)
    requires Inventory.OldestPending(db.outbox, limit, ids) && |Waiting(db)| <= limit
    ensures forall id :: id in Waiting(db) ==> id in ids
  {
    if |ids| == limit {
      var s := SetOf(ids);
      SubsetIsSmaller(s, Waiting(db));
    }
  }

  /** Trying every waiting row, with no call failing, announces them all. */
  lemma AllTried(a: Shop, ids: seq<OutcomeId>, z: Shop)
    requires (forall i :: 0 <= i < |ids| ==> ids[i] in a.inv.outbox) && forall id :: id in Waiting(a.inv) ==> id in ids
    requires z == Shop(a.inv.(outbox := Announced(a.inv.outbox, ids, NO_FAULTS)),
                       SentOut(a.outcomes, a.inv, ids, NO_FAULTS))
    ensures AllAnnounced(a, z) && z.inv.outbox.Keys == a.inv.outbox.Keys
  {
    assert forall id :: id in a.inv.outbox && !a.inv.outbox[id].published ==> id in Waiting(a.inv);
    forall id | id in z.inv.outbox && !a.inv.outbox[id].published
      ensures Announcement(z.inv, id) in z.outcomes.messages
    {
      assert id in Waiting(a.inv);
      var i :| 0 <= i < |ids| && ids[i] == id;
      SentOutReaches(a.outcomes, a.inv, ids, NO_FAULTS, i);
      assert Announcement(z.inv, id) == Announcement(a.inv, id);
    }
  }

  lemma TriedIsAnnounced(a: Shop, z: Shop)
    requires Publishes(a, NO_FAULTS, z) && |Waiting(a.inv)| <= 25
    ensures AllAnnounced(a, z) && z.inv.outbox.Keys == a.inv.outbox.Keys
  {
    var ids :| Inventory.OldestPending(a.inv.outbox, 25, ids)
               && z == Shop(a.inv.(outbox := Announced(a.inv.outbox, ids, NO_FAULTS)),
                            SentOut(a.outcomes, a.inv, ids, NO_FAULTS));
    EveryoneIsTried(a.inv, 25, ids);
    AllTried(a, ids, z);
  }

  /** The row that a command's transaction is due to write. */
  function OwnRow(m: Message): OutcomeId
    requires !m.body.FulfilmentChanged?
  {
    if m.body.OrderCreated? then DecisionId(m.eventId) else ReleasedId(m.body.orderId)
  }

  /** A transaction adds at most its own row to those waiting, and publishes none. */
  lemma OneMoreWaiting(w: Wiring, db: Inventory.Db, m: Message, now: int)
    requires !m.body.FulfilmentChanged?
    ensures var db' := HandleCommand(w, db, m, now).0;
            && db.outbox.Keys <= db'.outbox.Keys
            && Waiting(db') <= Waiting(db) + {OwnRow(m)}
            && (forall id :: id in db.outbox ==> db'.outbox[id].published == db.outbox[id].published)
  {
  }

  /**
   * A command that was settled with no call failing, and fewer than 25 outcomes waiting before, leaves none waiting:
   * all of them are out, its own among them.
   */
  lemma SettledIsAnnounced(w: Wiring, a: Shop, m: Message, now: int, z: Shop)
    requires !m.body.FulfilmentChanged? && |Waiting(a.inv)| < 25
    requires Handles(w, a, Command(m), false, NO_FAULTS, now, z, Delete)
    ensures AllAnnounced(a, z)
    ensures m.body.OrderCreated? && m.eventId !in a.inv.processed ==> DecisionId(m.eventId) in z.inv.outbox
    ensures m.body.CancelRequested? && Inventory.AnyReserved(Inventory.RowsOf(a.inv.ledger, m.body.orderId)) ==>
              ReleasedId(m.body.orderId) in z.inv.outbox
  {
    var mid := a.(inv := HandleCommand(w, a.inv, m, now).0);
    OneMoreWaiting(w, a.inv, m, now);
    SubsetIsSmaller(Waiting(mid.inv), Waiting(a.inv) + {OwnRow(m)});
    TriedIsAnnounced(mid, z);
  }

  // ---- a batch --------------------------------------------------------------

  /** From each state to the next as the body between them is handled; an error is the end. */
  ghost predicate Chained(w: Wiring, batch: seq<Body>, dbFails: set<nat>, f: Faults, now: int, shops: seq<Shop>,
                          rs: seq<Handling>) {
    && |rs| <= |batch| && |shops| == |rs| + 1
    && (forall i :: 0 <= i < |rs| ==> Handles(w, shops[i], batch[i], i in dbFails, f, now, shops[i + 1], rs[i]))
    && (forall i :: 0 <= i < |rs| - 1 ==> rs[i] != Raise)
  }

  predicate Over(rs: seq<Handling>) {
    rs != [] && rs[|rs| - 1] == Raise
  }

  /** How many bodies were deleted. */
  function Deletions(rs: seq<Handling>): nat {
    if rs == [] then 0 else Deletions(rs[..|rs| - 1]) + (if rs[|rs| - 1] == Delete then 1 else 0)
  }

  lemma ChainOneMore(w: Wiring, batch: seq<Body>, dbFails: set<nat>, f: Faults, now: int,
                     shops: seq<Shop>, rs: seq<Handling>, next: Shop, r: Handling)
    requires Chained(w, batch, dbFails, f, now, shops, rs) && |rs| < |batch| && !Over(rs)
    requires var i := |rs|; Handles(w, shops[i], batch[i], i in dbFails, f, now, next, r)
    ensures Chained(w, batch, dbFails, f, now, shops + [next], rs + [r])
  {
    var zs, qs := shops + [next], rs + [r];
    forall j | 0 <= j < |qs| ensures Handles(w, zs[j], batch[j], j in dbFails, f, now, zs[j + 1], qs[j]) {
      if j < |rs| { assert Handles(w, shops[j], batch[j], j in dbFails, f, now, shops[j + 1], rs[j]); }
    }
  }

  predicate Acted(b: Body, r: Handling) { b.Actionable() && r == Delete }

  /** A body that is not settled changes nothing; one that is leaves nothing waiting. */
  lemma BodyAnnounces(w: Wiring, a: Shop, b: Body, dbFails: bool, now: int, z: Shop, r: Handling)
    requires Handles(w, a, b, dbFails, NO_FAULTS, now, z, r) && |Waiting(a.inv)| < 25
    ensures if Acted(b, r) then AllAnnounced(a, z) else z == a
    ensures |Waiting(z.inv)| < 25
  {
    if Acted(b, r) {
      SettledIsAnnounced(w, a, b.m, now, z);
      assert Waiting(z.inv) == {};
    }
  }

  lemma {:induction false} FewStayWaiting(w: Wiring, batch: seq<Body>, dbFails: set<nat>, now: int, shops: seq<Shop>,
          rs: seq<Handling>, n: nat)
    requires Chained(w, batch, dbFails, NO_FAULTS, now, shops, rs) && |Waiting(shops[0].inv)| < 25 && n <= |rs|
    ensures |Waiting(shops[n].inv)| < 25
  {
    if n == 0 {
    } else {
      FewStayWaiting(w, batch, dbFails, now, shops, rs, n - 1);
      BodyAnnounces(w, shops[n - 1], batch[n - 1], n - 1 in dbFails, now, shops[n - 1 + 1], rs[n - 1]);
    }
  }

  ghost predicate Prompt(batch: seq<Body>, shops: seq<Shop>, rs: seq<Handling>) {
    && |rs| <= |batch| && |shops| == |rs| + 1
    && forall i :: 0 <= i < |rs| ==>
         if Acted(batch[i], rs[i]) then AllAnnounced(shops[i], shops[i + 1]) else shops[i + 1] == shops[i]
  }

  /** So over a batch begun with fewer than 25 waiting, every settled command is announced before the next is begun. */
  lemma BatchAnnounces(w: Wiring, batch: seq<Body>, dbFails: set<nat>, now: int, shops: seq<Shop>, rs: seq<Handling>)
    requires Chained(w, batch, dbFails, NO_FAULTS, now, shops, rs) && |Waiting(shops[0].inv)| < 25
    ensures Prompt(batch, shops, rs)
  {
    forall i | 0 <= i < |rs|
      ensures if Acted(batch[i], rs[i]) then AllAnnounced(shops[i], shops[i + 1]) else shops[i + 1] == shops[i]
    {
      FewStayWaiting(w, batch, dbFails, now, shops, rs, i);
      BodyAnnounces(w, shops[i], batch[i], i in dbFails, now, shops[i + 1], rs[i]);
    }
  }

  /** The commands among the bodies. */
  function Commands(batch: seq<Body>): multiset<Message> {
    if batch == [] then multiset{}
    else (if batch[0].Command? then multiset{batch[0].m} else multiset{}) + Commands(batch[1..])
  }

  /** The commands that were deleted. */
  function Deleted(batch: seq<Body>, rs: seq<Handling>): multiset<Message>
    requires |rs| <= |batch|
  {
    if rs == [] then multiset{}
    else
      var n := |rs| - 1;
      Deleted(batch, rs[..n]) + (if batch[n].Command? && rs[n] == Delete then multiset{batch[n].m} else multiset{})
  }

  /** One body further: the rest of the batch is still queued, whatever happens to it. */
  lemma OneBodyOn(batch: seq<Body>, i: nat, queued: multiset<Message>)
    requires i < |batch| && Commands(batch[i..]) <= queued
    ensures Commands(batch[i + 1..]) <= queued
    ensures batch[i].Command? ==> batch[i].m in queued && Commands(batch[i + 1..]) <= queued - multiset{batch[i].m}
  {
    assert batch[i..][1..] == batch[i + 1..];
  }

  lemma DeletedOneMore(batch: seq<Body>, rs: seq<Handling>, r: Handling, queued: multiset<Message>)
    requires |rs| < |batch|
    ensures var b := batch[|rs|];
            queued - Deleted(batch, rs + [r])
            == queued - Deleted(batch, rs) - (if b.Command? && r == Delete then multiset{b.m} else multiset{})
    ensures Deletions(rs + [r]) == Deletions(rs) + (if r == Delete then 1 else 0)
  {
    assert (rs + [r])[..|rs|] == rs;
  }

  function ShopOf(s: State): Shop { Shop(s.inv, s.outcomes) }

  /**
   * Where a batch stands that was begun in `was`: `shops` are the states between the messages, `rs` says what
   * became of each, and `s` was reached by the steps of `trace`. If no call fails and fewer than 25 outcomes were
   * waiting at first, every settled command was announced.
   */
  ghost predicate Polled(w: Wiring, batch: seq<Body>, dbFails: set<nat>, f: Faults, now: int, was: State, s: State,
                         shops: seq<Shop>, rs: seq<Handling>, handled: nat, trace: seq<Action>) {
    && Chained(w, batch, dbFails, f, now, shops, rs) && handled == Deletions(rs)
    && shops[0] == ShopOf(was) && shops[|rs|] == ShopOf(s)
    && s.commands.messages == was.commands.messages - Deleted(batch, rs)
    && s == Exec(w, was, trace)
    && (f == NO_FAULTS && |Waiting(was.inv)| < 25 ==> Prompt(batch, shops, rs))
  }

  lemma PolledOn(w: Wiring, batch: seq<Body>, dbFails: set<nat>, f: Faults, now: int, was: State, s: State, t: State,
                 shops: seq<Shop>, rs: seq<Handling>, handled: nat, trace: seq<Action>, r: Handling,
                 more: seq<Action>)
    requires Polled(w, batch, dbFails, f, now, was, s, shops, rs, handled, trace) && |rs| < |batch| && !Over(rs)
    requires Handles(w, ShopOf(s), batch[|rs|], |rs| in dbFails, f, now, ShopOf(t), r) && t == Exec(w, s, more)
    requires var b := batch[|rs|];
             t.commands.messages
             == s.commands.messages - (if b.Command? && r == Delete then multiset{b.m} else multiset{})
    ensures Polled(w, batch, dbFails, f, now, was, t, shops + [ShopOf(t)], rs + [r],
                   if r == Delete then handled + 1 else handled, trace + more)
  {
    DeletedOneMore(batch, rs, r, was.commands.messages);
    ChainOneMore(w, batch, dbFails, f, now, shops, rs, ShopOf(t), r);
    if f == NO_FAULTS && |Waiting(was.inv)| < 25 {
      BatchAnnounces(w, batch, dbFails, now, shops + [ShopOf(t)], rs + [r]);
    }
    ExecConcat(w, was, trace, more);
  }

  /** The lines are the items that name a product. */
  lemma {:induction false} LinesAreNamed(items: seq<Line>)
    ensures forall l :: l in Lines(items) <==> l in items && l.productId != ""
  {
    if items == [] {
    } else {
      var n := |items| - 1;
      LinesAreNamed(items[..n]);
      assert items == items[..n] + [items[n]];
    }
  }

  /** The comprehension over the payload's items. */
  method ProductLines(items: seq<Line>) returns (lines: seq<Line>)
    ensures lines == Lines(items)
    ensures forall l :: l in lines <==> l in items && l.productId != ""
  {
    lines := [];
    var i := 0;
    while i < |items|
      invariant 0 <= i <= |items|
      invariant lines == Lines(items[..i])
    {
      assert items[..i + 1][..i] == items[..i];
      if items[i].productId != "" {
        lines := lines + [items[i]];
      }
      i := i + 1;
    }
    assert items[..i] == items;
    LinesAreNamed(items);
  }

  class InventoryService {
    const wiring: Wiring
    const repo: Inventory.StockRepository
    var commands: Queue<Message>
    var outcomes: Queue<Outcome>
    ghost var history: History

    constructor (wiring: Wiring, repo: Inventory.StockRepository)
      ensures this.wiring == wiring && this.repo == repo
    {
      this.wiring, this.repo := wiring, repo;
      commands, outcomes := Queue(multiset{}, multiset{}, {}), Queue(multiset{}, multiset{}, {});
      history := History(map[], map[]);
    }

    /** The whole system, of which this service owns the inventory database and works on two queues. */
    ghost function World(rest: State): State
      reads this, repo
    {
      rest.(inv := repo.Contents(), commands := commands, outcomes := outcomes, history := history)
    }

    function Hands(): Shop
      reads this, repo
    {
      Shop(repo.Contents(), outcomes)
    }

    /** Sends one pending outcome, then marks its row. */
    method PublishRow(id: OutcomeId, f: Faults, ghost rest: State) returns (marked: bool, ghost trace: seq<Action>)
      requires id in repo.outbox && !repo.outbox[id].published
      modifies this`outcomes, repo`outbox
      ensures World(rest) == Exec(wiring, old(World(rest)), trace)
      ensures marked == (id !in f.sendFails && id !in f.markFails)
      ensures repo.outbox
              == if marked then old(repo.outbox)[id := old(repo.outbox)[id].(published := true)] else old(repo.outbox)
      ensures outcomes
              == if id in f.sendFails then old(outcomes) else old(outcomes).Put(Announcement(old(repo.Contents()), id))
    {
      var e := Outcome(id, repo.outbox[id].verdict, repo.outbox[id].orderId, repo.outbox[id].reason);
      PublishOneRow(wiring, World(rest), [], id, f);
      trace, marked := PublishSteps(e, f), false;
      assert [] + trace == trace;
      if id !in f.sendFails {
        outcomes := outcomes.Put(e);
        if id !in f.markFails {
          repo.MarkOutboxPublished(id);
          marked := true;
        }
      }
    }

    /** Announces the oldest pending outcomes; a row is marked only after its announcement went out. */
    method PublishOnce(limit: nat, f: Faults, ghost rest: State)
      returns (published: nat, raised: bool, ghost ids: seq<OutcomeId>, ghost trace: seq<Action>)
      modifies this`outcomes, repo`outbox
      ensures World(rest) == Exec(wiring, old(World(rest)), trace)
      ensures raised == f.readFails && (raised ==> ids == [])
      ensures !raised ==> Inventory.OldestPending(old(repo.outbox), limit, ids)
      ensures repo.outbox == Announced(old(repo.outbox), ids, f) && published == Successes(ids, f)
      ensures (forall i :: 0 <= i < |ids| ==> ids[i] in old(repo.outbox))
              && outcomes == SentOut(old(outcomes), old(repo.Contents()), ids, f)
    {
      published, raised, ids, trace := 0, f.readFails, [], [];
      if raised {
        assert repo.outbox == Announced(repo.outbox, [], f);
        return;
      }
      var pending := repo.PendingOutbox(limit);
      ids := pending;
      for i := 0 to |pending|
        invariant repo.outbox == Announced(old(repo.outbox), pending[..i], f) && published == Successes(pending[..i], f)
        invariant outcomes == SentOut(old(outcomes), old(repo.Contents()), pending[..i], f)
        invariant World(rest) == Exec(wiring, old(World(rest)), trace)
      {
        AnnounceOneMore(old(repo.outbox), pending, i, f);
        SentOneMore(old(outcomes), old(repo.Contents()), pending, i, f);
        var marked, steps := PublishRow(pending[i], f, rest);
        ExecConcat(wiring, old(World(rest)), trace, steps);
        trace := trace + steps;
        if marked {
          published := published + 1;
        }
      }
      assert pending[..|pending|] == pending;
    }

    /** The transaction for one command. A raised error reports failure, and a missing method raises. */
    method Settle(m: Message, dbFails: bool, now: int, ghost rest: State)
      returns (settled: bool, ghost trace: seq<Action>)
      requires m in commands.messages && !m.body.FulfilmentChanged?
      modifies this`commands, this`history, repo
      ensures World(rest) == Exec(wiring, old(World(rest)), trace)
      ensures (repo.Contents(), settled) == Settlement(wiring, old(repo.Contents()), m, dbFails, now)
      ensures commands.messages == old(commands.messages) && (settled ==> m in commands.acks)
      ensures dbFails || (m.body.CancelRequested? && wiring == Resilient) ==> trace == []
    {
      ghost var was := World(rest);
      ghost var step := OnCommand(TakeCommand(m, now));
      ExecOne(wiring, was, [], step);
      assert [] + [step] == [step];
      if dbFails || (m.body.CancelRequested? && wiring == Resilient) {
        return false, [];
      }
      trace := [step];
      if m.body.CancelRequested? {
        var _ := repo.ReleaseReservation(m.body.orderId, now);
        settled := true;
      } else {
        history := NoteLeak(history, repo.Contents(), m, now);
        var lines := ProductLines(m.body.items);
        var att := repo.Process(m.eventId, m.body.orderId, lines, now);
        settled := att != Inventory.Raised;
      }
      if settled {
        commands := commands.Ack(m);
      }
    }

    /** An event of another type is acknowledged without a look at the database. */
    method Ignore(m: Message, ghost rest: State) returns (ghost trace: seq<Action>)
      requires m in commands.messages && m.body.FulfilmentChanged?
      modifies this`commands
      ensures World(rest) == Exec(wiring, old(World(rest)), trace)
      ensures commands == old(commands).Ack(m)
    {
      ghost var step := OnCommand(TakeCommand(m, 0));
      ExecOne(wiring, World(rest), [], step);
      assert [] + [step] == [step];
      trace := [step];
      commands := commands.Ack(m);
    }

    /** One command: the transaction, and then whatever is waiting to be published. */
    method Act(m: Message, dbFails: bool, f: Faults, now: int, ghost rest: State)
      returns (r: Handling, ghost trace: seq<Action>)
      requires m in commands.messages && !m.body.FulfilmentChanged?
      modifies this`commands, this`outcomes, this`history, repo
      ensures World(rest) == Exec(wiring, old(World(rest)), trace)
      ensures Handles(wiring, old(Hands()), Command(m), dbFails, f, now, Hands(), r)
      ensures r == Delete && f == NO_FAULTS && |Waiting(old(repo.Contents()))| < 25 ==>
                && AllAnnounced(old(Hands()), Hands())
                && (m.body.OrderCreated? && m.eventId !in old(repo.processed) ==> DecisionId(m.eventId) in repo.outbox)
      ensures commands.messages == old(commands.messages) && (r == Delete ==> m in commands.acks)
    {
      ghost var was := World(rest);
      var settled;
      settled, trace := Settle(m, dbFails, now, rest);
      if !settled {
        return Leave, trace;
      }
      ghost var mid := Hands();
      var published, raised, ids, more := PublishOnce(25, f, rest);
      ExecConcat(wiring, was, trace, more);
      trace := trace + more;
      if raised {
        assert repo.outbox == mid.inv.outbox;
        return Raise, trace;
      }
      assert Publishes(mid, f, Hands());
      r := Delete;
      if f == NO_FAULTS && |Waiting(was.inv)| < 25 {
        SettledIsAnnounced(wiring, ShopOf(was), m, now, Hands());
      }
    }

    /** One body, as the consumer handles it. */
    method Handle(body: Body, dbFails: bool, f: Faults, now: int, ghost rest: State)
      returns (r: Handling, ghost trace: seq<Action>)
      requires body.Command? ==> body.m in commands.messages
      modifies this`commands, this`outcomes, this`history, repo
      ensures World(rest) == Exec(wiring, old(World(rest)), trace)
      ensures Handles(wiring, old(Hands()), body, dbFails, f, now, Hands(), r)
      ensures Acted(body, r) && f == NO_FAULTS && |Waiting(old(repo.Contents()))| < 25 ==>
                AllAnnounced(old(Hands()), Hands())
      ensures commands.messages == old(commands.messages)
      ensures r == Delete && body.Command? ==> body.m in commands.acks
      ensures !body.Command? ==> trace == []
      ensures body.Garbled? ==> r == Leave
      ensures body.Ignored? || (body.Command? && body.m.body.FulfilmentChanged?) ==> r == Delete
      ensures !body.Actionable() ==> Hands() == old(Hands())
      ensures body.Actionable() && dbFails ==> r == Leave && Hands() == old(Hands())
      ensures body.Actionable() && !dbFails && body.m.body.CancelRequested? ==>
                (r == Leave <==> wiring == Resilient)
      ensures body.Actionable() && !dbFails && body.m.body.OrderCreated? ==>
                (r == Leave <==> body.m.eventId !in old(repo.processed) && body.m.eventId !in repo.processed)
      ensures body.Actionable() && r != Leave ==> (r == Raise <==> f.readFails)
    {
      if body.Garbled? {
        return Leave, [];
      }
      if body.Ignored? {
        return Delete, [];
      }
      if body.m.body.FulfilmentChanged? {
        trace := Ignore(body.m, rest);
        return Delete, trace;
      }
      r, trace := Act(body.m, dbFails, f, now, rest);
    }

    /** One received message: handle it, and delete it if the handler says so. */
    method PollMessage(body: Body, dbFails: bool, f: Faults, now: int, ghost rest: State)
      returns (r: Handling, ghost trace: seq<Action>)
      requires body.Command? ==> body.m in commands.messages
      modifies this`commands, this`outcomes, this`history, repo
      ensures World(rest) == Exec(wiring, old(World(rest)), trace)
      ensures Handles(wiring, old(Hands()), body, dbFails, f, now, Hands(), r)
      ensures Acted(body, r) && f == NO_FAULTS && |Waiting(old(repo.Contents()))| < 25 ==>
                AllAnnounced(old(Hands()), Hands())
      ensures commands.messages
              == old(commands.messages) - (if body.Command? && r == Delete then multiset{body.m} else multiset{})
    {
      ghost var was := World(rest);
      r, trace := Handle(body, dbFails, f, now, rest);
      if r == Delete && body.Command? {
        ExecDeleteCommand(wiring, was, trace, body.m);
        trace := trace + [OnCommand(DeleteCommand(body.m))];
        commands := commands.Delete(body.m);
      }
    }

    /** What is left of a received batch is still queued. */
    ghost predicate StillQueued(batch: seq<Body>, i: nat)
      reads this
    {
      i <= |batch| && Commands(batch[i..]) <= commands.messages
    }

    /** The next body of a batch, counted if it was deleted. */
    method PollNext(batch: seq<Body>, i: nat, dbFails: set<nat>, f: Faults, now: int, handled: nat, ghost rest: State,
                    ghost was: State, ghost shops: seq<Shop>, ghost rs: seq<Handling>, ghost before: seq<Action>)
      returns (r: Handling, handled': nat, ghost trace: seq<Action>)
      requires i == |rs| < |batch| && StillQueued(batch, i) && !Over(rs)
      requires Polled(wiring, batch, dbFails, f, now, was, World(rest), shops, rs, handled, before)
      modifies this`commands, this`outcomes, this`history, repo
      ensures StillQueued(batch, i + 1) && (Over(rs + [r]) <==> r == Raise)
      ensures Polled(wiring, batch, dbFails, f, now, was, World(rest),
                     shops + [Hands()], rs + [r], handled', trace)
    {
      ghost var s := World(rest);
      OneBodyOn(batch, i, commands.messages);
      r, trace := PollMessage(batch[i], i in dbFails, f, now, rest);
      PolledOn(wiring, batch, dbFails, f, now, was, s, World(rest), shops, rs, handled, before, r, trace);
      handled' := if r == Delete then handled + 1 else handled;
      trace := before + trace;
    }

    /**
     * Handles a received batch in order, deleting and counting what the handler says; an error while publishing
     * abandons the rest.
     */
    method PollOnce(batch: seq<Body>, dbFails: set<nat>, f: Faults, now: int, ghost rest: State)
      returns (handled: nat, ghost shops: seq<Shop>, ghost rs: seq<Handling>, ghost trace: seq<Action>)
      requires Commands(batch) <= commands.messages
      modifies this`commands, this`outcomes, this`history, repo
      ensures Polled(wiring, batch, dbFails, f, now, old(World(rest)), World(rest), shops, rs, handled, trace)
      ensures |rs| < |batch| ==> Over(rs)
    {
      handled, shops, rs, trace := 0, [Hands()], [], [];
      ghost var was := World(rest);
      assert batch[0..] == batch;
      for i := 0 to |batch|
        invariant |rs| == i && StillQueued(batch, i) && !Over(rs)
        invariant Polled(wiring, batch, dbFails, f, now, was, World(rest), shops, rs, handled, trace)
      {
        var r;
        ghost var earlier, verdicts := shops, rs;
        r, handled, trace := PollNext(batch, i, dbFails, f, now, handled, rest, was, earlier, verdicts, trace);
        shops, rs := earlier + [Hands()], verdicts + [r];
        if r == Raise {
          return;
        }
      }
    }
  }

  // ---- the compensation consumer --------------------------------------------

  /** What a received outcome message turns out to be. */
  datatype Received = Unparseable | InvalidEnvelope | UnknownType | NoOrderId | Parsed(e: Outcome)

  /** The orders after a batch of messages, one after the other. */
  function Applied(db: Orders.Db, batch: seq<Received>, now: int): Orders.Db {
    if batch == [] then db
    else
      var before, last := Applied(db, batch[..|batch| - 1], now), batch[|batch| - 1];
      if last.Parsed? then HandleOutcome(before, last.e, now).0 else before
  }

  /** Whether the message is deleted: everything but invalid envelopes and outcomes of unknown orders. */
  predicate Dropped(orders: set<OrderId>, b: Received) {
    match b
    case InvalidEnvelope => false
    case Parsed(e) => e.orderId in orders
    case _ => true
  }

  function DropCount(orders: set<OrderId>, batch: seq<Received>): nat {
    if batch == [] then 0
    else DropCount(orders, batch[..|batch| - 1]) + (if Dropped(orders, batch[|batch| - 1]) then 1 else 0)
  }

  /** The outcomes among the messages, and those of them that are deleted. */
  function Outcomes(batch: seq<Received>): multiset<Outcome> {
    if batch == [] then multiset{}
    else (if batch[0].Parsed? then multiset{batch[0].e} else multiset{}) + Outcomes(batch[1..])
  }

  function Settling(orders: set<OrderId>, batch: seq<Received>): multiset<Outcome> {
    if batch == [] then multiset{}
    else
      var last := batch[|batch| - 1];
      Settling(orders, batch[..|batch| - 1])
      + (if last.Parsed? && last.e.orderId in orders then multiset{last.e} else multiset{})
  }

  /** What the fulfilment route leaves and answers. */
  function Fulfilled(db: Orders.Db, o: OrderId, target: Fulfilment, now: int): (Orders.Db, nat) {
    var previous := Orders.Predecessor(target);
    if previous == None then (db, 422)
    else if o !in db.orders then (db, 404)
    else
      var (db', r) := Orders.WriteFulfilment(db, o, db.orders[o], previous.value, target, now);
      (db', if r.Done? then 200 else 409)
  }

  /** What the cancel route leaves and answers. */
  function CancelAsked(db: Orders.Db, o: OrderId, user: UserId, email: Option<string>, now: int): (Orders.Db, nat) {
    if o !in db.orders then (db, 404)
    else
      var (db', r) := Orders.WriteCancellation(db, o, db.orders[o], user, email, now);
      (db', if r.Done? then 200 else 409)
  }

  lemma AppliedOneMore(db: Orders.Db, batch: seq<Received>, i: nat, now: int)
    requires i < |batch|
    ensures Applied(db, batch[..i + 1], now)
            == if batch[i].Parsed? then HandleOutcome(Applied(db, batch[..i], now), batch[i].e, now).0
               else Applied(db, batch[..i], now)
  {
    assert batch[..i + 1][..i] == batch[..i];
  }

  lemma DroppedOneMore(orders: set<OrderId>, batch: seq<Received>, i: nat)
    requires i < |batch|
    ensures DropCount(orders, batch[..i + 1])
            == DropCount(orders, batch[..i]) + (if Dropped(orders, batch[i]) then 1 else 0)
  {
    assert batch[..i + 1][..i] == batch[..i];
  }

  lemma SettlingOneMore(orders: set<OrderId>, batch: seq<Received>, i: nat, queued: multiset<Outcome>)
    requires i < |batch|
    ensures queued - Settling(orders, batch[..i + 1])
            == queued - Settling(orders, batch[..i])
               - (if Dropped(orders, batch[i]) && batch[i].Parsed? then multiset{batch[i].e} else multiset{})
  {
    assert batch[..i + 1][..i] == batch[..i];
  }

  /** Where a batch stands after its first `i` messages, begun in `was`. */
  ghost predicate Worked(w: Wiring, batch: seq<Received>, i: nat, now: int, was: State, s: State, handled: nat,
                         trace: seq<Action>) {
    && i <= |batch| && s.od.orders.Keys == was.od.orders.Keys
    && s.od == Applied(was.od, batch[..i], now)
    && handled == DropCount(was.od.orders.Keys, batch[..i])
    && s.outcomes.messages == was.outcomes.messages - Settling(was.od.orders.Keys, batch[..i])
    && s == Exec(w, was, trace)
  }

  lemma WorkedOn(w: Wiring, batch: seq<Received>, i: nat, now: int, was: State, s: State, t: State, handled: nat,
                 trace: seq<Action>, done: bool, more: seq<Action>)
    requires i < |batch| && Worked(w, batch, i, now, was, s, handled, trace) && t == Exec(w, s, more)
    requires t.od.orders.Keys == s.od.orders.Keys && done == Dropped(s.od.orders.Keys, batch[i])
    requires t.od == if batch[i].Parsed? then HandleOutcome(s.od, batch[i].e, now).0 else s.od
    requires t.outcomes.messages
             == s.outcomes.messages - (if done && batch[i].Parsed? then multiset{batch[i].e} else multiset{})
    ensures Worked(w, batch, i + 1, now, was, t, if done then handled + 1 else handled, trace + more)
  {
    AppliedOneMore(was.od, batch, i, now);
    DroppedOneMore(was.od.orders.Keys, batch, i);
    SettlingOneMore(was.od.orders.Keys, batch, i, was.outcomes.messages);
    ExecConcat(w, was, trace, more);
  }

  lemma OneMessageOn(batch: seq<Received>, i: nat, queued: multiset<Outcome>)
    requires i < |batch| && Outcomes(batch[i..]) <= queued
    ensures Outcomes(batch[i + 1..]) <= queued
    ensures batch[i].Parsed? ==> batch[i].e in queued && Outcomes(batch[i + 1..]) <= queued - multiset{batch[i].e}
  {
    assert batch[i..][1..] == batch[i + 1..];
  }

  class OrderService {
    const wiring: Wiring
    const repo: Orders.OrderRepository
    var outcomes: Queue<Outcome>
    ghost var seen: set<(OrderId, Orders.Order)>

    constructor (wiring: Wiring, repo: Orders.OrderRepository)
      ensures this.wiring == wiring && this.repo == repo
    {
      this.wiring, this.repo := wiring, repo;
      outcomes, seen := Queue(multiset{}, multiset{}, {}), {};
    }

    ghost function World(rest: State): State
      reads this, repo
    {
      rest.(od := repo.Contents(), outcomes := outcomes, seen := seen)
    }

    /** Applies one outcome. Duplicates and late outcomes are acknowledged; an unknown order is left for redelivery. */
    method Handle(body: Received, now: int, ghost rest: State) returns (delete: bool, ghost trace: seq<Action>)
      requires body.Parsed? ==> body.e in outcomes.messages
      modifies this`outcomes, repo`orders
      ensures World(rest) == Exec(wiring, old(World(rest)), trace)
      ensures outcomes.messages == old(outcomes.messages) && repo.orders.Keys == old(repo.orders).Keys
      ensures !body.Parsed? ==> trace == [] && (delete <==> body != InvalidEnvelope)
      ensures body.Parsed? ==> (repo.Contents(), delete) == HandleOutcome(old(repo.Contents()), body.e, now)
      ensures !body.Parsed? ==> repo.Contents() == old(repo.Contents())
      ensures body.Parsed? && delete ==> body.e in outcomes.acks
    {
      trace := [];
      match body {
      case Unparseable => return true, [];
      case InvalidEnvelope => return false, [];
      case UnknownType => return true, [];
      case NoOrderId => return true, [];
      case Parsed(e) =>
        ExecOne(wiring, World(rest), [], OnOutcome(TakeOutcome(e, now)));
        trace := [OnOutcome(TakeOutcome(e, now))];
        assert [] + trace == trace;
        var target := TargetStatus(e.verdict);
        var guard := if e.verdict == OrderCancelled then Orders.Only(CancelPending) else Orders.Only(Pending);
        var result := repo.UpdateStatus(e.orderId, target, e.reason, guard, now);
        delete := result != Orders.NotFound;
        if delete {
          outcomes := outcomes.Ack(e);
        }
      }
    }

    method PollMessage(body: Received, now: int, ghost rest: State) returns (handled: bool, ghost trace: seq<Action>)
      requires body.Parsed? ==> body.e in outcomes.messages
      modifies this`outcomes, repo`orders
      ensures World(rest) == Exec(wiring, old(World(rest)), trace) && repo.orders.Keys == old(repo.orders).Keys
      ensures repo.Contents()
              == if body.Parsed? then HandleOutcome(old(repo.Contents()), body.e, now).0 else old(repo.Contents())
      ensures handled == Dropped(old(repo.orders).Keys, body)
      ensures outcomes.messages
              == old(outcomes.messages) - (if handled && body.Parsed? then multiset{body.e} else multiset{})
    {
      ghost var was := World(rest);
      handled, trace := Handle(body, now, rest);
      if handled && body.Parsed? {
        ExecDeleteOutcome(wiring, was, trace, body.e);
        trace := trace + [OnOutcome(DeleteOutcome(body.e))];
        outcomes := outcomes.Delete(body.e);
      }
    }

    ghost predicate StillQueued(batch: seq<Received>, i: nat)
      reads this
    {
      i <= |batch| && Outcomes(batch[i..]) <= outcomes.messages
    }

    method PollNext(batch: seq<Received>, i: nat, now: int, handled: nat, ghost rest: State, ghost was: State,
                    ghost before: seq<Action>)
      returns (handled': nat, ghost trace: seq<Action>)
      requires i < |batch| && StillQueued(batch, i) && Worked(wiring, batch, i, now, was, World(rest), handled, before)
      modifies this`outcomes, repo`orders
      ensures StillQueued(batch, i + 1) && Worked(wiring, batch, i + 1, now, was, World(rest), handled', trace)
    {
      ghost var s := World(rest);
      OneMessageOn(batch, i, outcomes.messages);
      var done;
      done, trace := PollMessage(batch[i], now, rest);
      WorkedOn(wiring, batch, i, now, was, s, World(rest), handled, before, done, trace);
      handled' := if done then handled + 1 else handled;
      trace := before + trace;
    }

    /** Every message is handled in turn; all but invalid envelopes and unknown orders are deleted and counted. */
    method PollOnce(batch: seq<Received>, now: int, ghost rest: State) returns (handled: nat, ghost trace: seq<Action>)
      requires Outcomes(batch) <= outcomes.messages
      modifies this`outcomes, repo`orders
      ensures World(rest) == Exec(wiring, old(World(rest)), trace)
      ensures repo.Contents() == Applied(old(repo.Contents()), batch, now)
      ensures handled == DropCount(old(repo.orders).Keys, batch)
      ensures outcomes.messages == old(outcomes.messages) - Settling(old(repo.orders).Keys, batch)
    {
      handled, trace := 0, [];
      ghost var was := World(rest);
      assert batch[0..] == batch;
      for i := 0 to |batch|
        invariant StillQueued(batch, i) && Worked(wiring, batch, i, now, was, World(rest), handled, trace)
      {
        handled, trace := PollNext(batch, i, now, handled, rest, was, trace);
      }
      assert batch[..|batch|] == batch;
    }

    /** PATCH fulfilment: one step forward, from the only status that precedes the target. */
    method UpdateFulfilment(o: OrderId, target: Fulfilment, now: int, ghost rest: State)
      returns (code: nat, ghost trace: seq<Action>)
      modifies this`seen, repo
      ensures World(rest) == Exec(wiring, old(World(rest)), trace)
      ensures (repo.Contents(), code) == Fulfilled(old(repo.Contents()), o, target, now)
      ensures code == 422 <==> target == NotStarted
      ensures code == 404 <==> target != NotStarted && o !in old(repo.orders)
      ensures code == 200 <==> target != NotStarted && o in old(repo.orders)
                               && old(repo.orders)[o].status == Confirmed
                               && old(repo.orders)[o].fulfilment.Rank() + 1 == target.Rank()
                               && FulfilmentId(o, target) !in old(repo.outbox)
      ensures code == 409 <==> code != 422 && code != 404 && code != 200
      ensures code != 200 ==> repo.Contents() == old(repo.Contents())
      ensures code == 200 ==>
                repo.outbox[FulfilmentId(o, target)] == Orders.OutboxRow(
                  FulfilmentChanged(o, old(repo.orders)[o].userId, old(repo.orders)[o].email, target), false)
      ensures code == 200 ==>
                && o in repo.orders && repo.orders[o].fulfilment == target && FulfilmentId(o, target) in repo.outbox
                && o in old(repo.orders) && Some(old(repo.orders)[o].fulfilment) == Orders.Predecessor(target)
    {
      var previous := Orders.Predecessor(target);
      if previous == None {
        return 422, [];
      }
      if o !in repo.orders {
        return 404, [];
      }
      var current := repo.orders[o];
      seen := seen + {(o, current)};
      ExecTwo(wiring, old(World(rest)), [], OnOrder(Read(o)), OnOrder(Advance(o, current, target, now)));
      trace := [OnOrder(Read(o)), OnOrder(Advance(o, current, target, now))];
      assert [] + trace == trace;
      var result := repo.TransactFulfilment(o, current, previous.value, target, now);
      code := if result.Done? then 200 else 409;
    }

    /** POST cancel: only the owner, only while CONFIRMED and not yet dispatched. */
    method CancelOrder(o: OrderId, user: UserId, email: Option<string>, now: int, ghost rest: State)
      returns (code: nat, ghost trace: seq<Action>)
      modifies this`seen, repo
      ensures World(rest) == Exec(wiring, old(World(rest)), trace)
      ensures (repo.Contents(), code) == CancelAsked(old(repo.Contents()), o, user, email, now)
      ensures code == 404 <==> o !in old(repo.orders)
      ensures code == 200 <==> o in old(repo.orders) && old(repo.orders)[o].userId == user
                               && old(repo.orders)[o].status == Confirmed
                               && old(repo.orders)[o].fulfilment.Rank() < Dispatched.Rank()
                               && CancelId(o) !in old(repo.outbox)
      ensures code == 409 <==> code != 404 && code != 200
      ensures code != 200 ==> repo.Contents() == old(repo.Contents())
      ensures code == 200 ==>
                repo.outbox[CancelId(o)]
                == Orders.OutboxRow(CancelRequested(o, user, email, old(repo.orders)[o].items), false)
      ensures code == 200 ==>
                && StatusOf(o) == Some(CancelPending) && CancelId(o) in repo.outbox
                && old(repo.orders)[o].userId == user && old(StatusOf(o)) == Some(Confirmed)
                && old(repo.orders)[o].fulfilment.Rank() < Dispatched.Rank()
    {
      if o !in repo.orders {
        return 404, [];
      }
      var current := repo.orders[o];
      seen := seen + {(o, current)};
      ExecTwo(wiring, old(World(rest)), [], OnOrder(Read(o)), OnOrder(Cancel(o, current, user, email, now)));
      trace := [OnOrder(Read(o)), OnOrder(Cancel(o, current, user, email, now))];
      assert [] + trace == trace;
      var result := repo.TransactCancellation(o, current, user, email, now);
      code := if result.Done? then 200 else 409;
    }

    ghost function StatusOf(o: OrderId): Option<Status>
      reads this, repo
    {
      if o in repo.orders then Some(repo.orders[o].status) else None
    }
  }

  // ---- the order-outbox relay -----------------------------------------------

  /** A change record of the outbox table: `image` is the row as it was inserted. */
  datatype StreamRecord = StreamRecord(insert: bool, image: Option<(EventId, Orders.OutboxRow)>, sequence: string)

  /** The record announces a new row that is pending in the table too. */
  predicate ToSend(db: Orders.Db, r: StreamRecord) {
    && r.insert && r.image.Some? && !r.image.value.1.delivered
    && r.image.value.0 in db.outbox && !db.outbox[r.image.value.0].delivered
  }

  /** The outbox after one record, and whether the record failed. */
  function AfterRecord(db: Orders.Db, r: StreamRecord, sendFails: bool, markFails: bool): (Orders.Db, bool) {
    if !ToSend(db, r) then (db, false)
    else if sendFails || markFails then (db, true)
    else (Orders.MarkDelivered(db, r.image.value.0), false)
  }

  /** The outbox after a batch, and the records to be tried again. */
  function AfterBatch(db: Orders.Db, records: seq<StreamRecord>, sendFails: set<nat>,
                      markFails: set<nat>): (Orders.Db, seq<string>) {
    if records == [] then (db, [])
    else
      var i, r := |records| - 1, records[|records| - 1];
      var (db', failures) := AfterBatch(db, records[..i], sendFails, markFails);
      var (next, failed) := AfterRecord(db', r, i in sendFails, i in markFails);
      (next, if failed then failures + [r.sequence] else failures)
  }

  lemma BatchOneMore(db: Orders.Db, records: seq<StreamRecord>, i: nat, sendFails: set<nat>, markFails: set<nat>)
    requires i < |records|
    ensures var (before, failures) := AfterBatch(db, records[..i], sendFails, markFails);
            var (after, failed) := AfterRecord(before, records[i], i in sendFails, i in markFails);
            AfterBatch(db, records[..i + 1], sendFails, markFails)
            == (after, if failed then failures + [records[i].sequence] else failures)
  {
    assert records[..i + 1][..i] == records[..i];
  }

  /** A batch removes no row and never takes a delivery back. */
  lemma {:induction false} BatchKeepsRows(db: Orders.Db, records: seq<StreamRecord>, sendFails: set<nat>,
          markFails: set<nat>, k: EventId)
    requires k in db.outbox
    ensures var db' := AfterBatch(db, records, sendFails, markFails).0;
            && k in db'.outbox && db'.outbox[k].payload == db.outbox[k].payload
            && (db.outbox[k].delivered ==> db'.outbox[k].delivered)
    ensures var db' := AfterBatch(db, records, sendFails, markFails).0; db'.orders == db.orders
  {
    if records == [] {
    } else {
      BatchKeepsRows(db, records[..|records| - 1], sendFails, markFails, k);
    }
  }

  lemma {:induction false} BatchAddsNoRows(db: Orders.Db, records: seq<StreamRecord>, sendFails: set<nat>,
          markFails: set<nat>)
    ensures AfterBatch(db, records, sendFails, markFails).0.outbox.Keys <= db.outbox.Keys
  {
    if records == [] {
    } else {
      BatchAddsNoRows(db, records[..|records| - 1], sendFails, markFails);
    }
  }

  /** After a batch every row that it announced is delivered, or one of its records will be tried again. */
  lemma {:induction false} NothingIsDropped(db: Orders.Db, records: seq<StreamRecord>, sendFails: set<nat>,
          markFails: set<nat>, i: nat)
    requires i < |records| && records[i].insert && records[i].image.Some? && !records[i].image.value.1.delivered
    requires var k := records[i].image.value.0; k in db.outbox && !db.outbox[k].delivered
    ensures var (db', failures) := AfterBatch(db, records, sendFails, markFails);
            var k := records[i].image.value.0;
            k in db'.outbox && (db'.outbox[k].delivered || records[i].sequence in failures)
    decreases |records|
  {
    var n := |records| - 1;
    BatchKeepsRows(db, records[..n], sendFails, markFails, records[i].image.value.0);
    if i < n {
      assert records[..n][i] == records[i];
      NothingIsDropped(db, records[..n], sendFails, markFails, i);
    }
  }

  /** And nothing else is tried again: a reported record had a row to send, and one of its two calls failed. */
  lemma {:induction false} OnlyFailuresAreReported(db: Orders.Db, records: seq<StreamRecord>, sendFails: set<nat>,
          markFails: set<nat>, x: string)
    requires x in AfterBatch(db, records, sendFails, markFails).1
    ensures exists i :: 0 <= i < |records| && records[i].sequence == x && (i in sendFails || i in markFails)
                        && records[i].insert && records[i].image.Some? && records[i].image.value.0 in db.outbox
    decreases |records|
  {
    var n := |records| - 1;
    var (before, failures) := AfterBatch(db, records[..n], sendFails, markFails);
    if x in failures {
      OnlyFailuresAreReported(db, records[..n], sendFails, markFails, x);
      var i :| 0 <= i < n && records[..n][i].sequence == x && (i in sendFails || i in markFails)
               && records[..n][i].insert && records[..n][i].image.Some? && records[..n][i].image.value.0 in db.outbox;
      assert records[i] == records[..n][i];
    } else {
      assert ToSend(before, records[n]);
      BatchAddsNoRows(db, records[..n], sendFails, markFails);
    }
  }

  class OrderRelay {
    const wiring: Wiring
    const repo: Orders.OrderRepository
    var commands: Queue<Message>
    var bus: seq<Payload>

    constructor (wiring: Wiring, repo: Orders.OrderRepository)
      ensures this.wiring == wiring && this.repo == repo
    {
      this.wiring, this.repo := wiring, repo;
      commands, bus := Queue(multiset{}, multiset{}, {}), [];
    }

    ghost function World(rest: State): State
      reads this, repo
    {
      rest.(od := repo.Contents(), commands := commands)
    }

    /** The stream shows rows as they are in the table: payloads never change. */
    ghost predicate Faithful(r: StreamRecord)
      reads repo
    {
      r.image.Some? && r.image.value.0 in repo.outbox ==>
        repo.outbox[r.image.value.0].payload == r.image.value.1.payload
    }

    /** One record. A row that is still pending is sent and then marked; whatever fails is raised. */
    method ProcessRecord(r: StreamRecord, sendFails: bool, markFails: bool, ghost rest: State)
      returns (raised: bool, ghost trace: seq<Action>)
      requires Faithful(r)
      modifies this, repo`outbox
      ensures World(rest) == Exec(wiring, old(World(rest)), trace)
      ensures (repo.Contents(), raised) == AfterRecord(old(repo.Contents()), r, sendFails, markFails)
      ensures r.insert && r.image.Some? && !r.image.value.1.delivered && r.image.value.0 in old(repo.outbox)
              && !old(repo.outbox)[r.image.value.0].delivered ==>
                && raised == (sendFails || markFails)
                && repo.outbox == old(repo.outbox)[r.image.value.0 :=
                                                     old(repo.outbox)[r.image.value.0].(delivered := !raised)]
                && (sendFails || (if r.image.value.0.FulfilmentId? then |bus| == |old(bus)| + 1
                                  else Message(r.image.value.0, r.image.value.1.payload) in commands.messages))
      ensures r.image.None? || !r.insert || r.image.value.1.delivered || r.image.value.0 !in old(repo.outbox)
              || old(repo.outbox)[r.image.value.0].delivered ==>
                !raised && repo.outbox == old(repo.outbox) && commands == old(commands) && bus == old(bus)
      ensures commands == if ToSend(old(repo.Contents()), r) && !sendFails && !r.image.value.0.FulfilmentId?
                          then old(commands).Put(Message(r.image.value.0, r.image.value.1.payload)) else old(commands)
      ensures bus == if ToSend(old(repo.Contents()), r) && !sendFails && r.image.value.0.FulfilmentId?
                     then old(bus) + [r.image.value.1.payload] else old(bus)
    {
      trace, raised := [], false;
      if !r.insert || r.image == None || r.image.value.1.delivered {
        return;
      }
      var k := r.image.value.0;
      // A replay of the record after the row was marked must not send again.
      if k !in repo.outbox || repo.outbox[k].delivered {
        return;
      }
      var m := Message(k, r.image.value.1.payload);
      RelayOneRow(wiring, World(rest), m, sendFails, markFails);
      trace := RelaySteps(m, sendFails, markFails);
      if sendFails {
        return true, trace;
      }
      if k.FulfilmentId? {
        bus := bus + [m.body];
      } else {
        commands := commands.Put(m);
      }
      if markFails {
        return true, trace;
      }
      var _ := repo.MarkOutboxDelivered(k);
    }

    /** Nothing is dropped silently: every record is processed, and exactly those that raised are reported. */
    method LambdaHandler(records: seq<StreamRecord>, sendFails: set<nat>, markFails: set<nat>, ghost rest: State)
      returns (failures: seq<string>, ghost trace: seq<Action>)
      requires forall i :: 0 <= i < |records| ==> Faithful(records[i])
      modifies this, repo`outbox
      ensures World(rest) == Exec(wiring, old(World(rest)), trace)
      ensures (repo.Contents(), failures) == AfterBatch(old(repo.Contents()), records, sendFails, markFails)
    {
      failures, trace := [], [];
      ghost var db := repo.Contents();
      for i := 0 to |records|
        invariant forall j :: 0 <= j < |records| ==> Faithful(records[j])
        invariant (repo.Contents(), failures) == AfterBatch(db, records[..i], sendFails, markFails)
        invariant World(rest) == Exec(wiring, old(World(rest)), trace)
      {
        BatchOneMore(db, records, i, sendFails, markFails);
        var raised, more := ProcessRecord(records[i], i in sendFails, i in markFails, rest);
        ExecConcat(wiring, old(World(rest)), trace, more);
        trace := trace + more;
        if raised {
          failures := failures + [records[i].sequence];
        }
      }
      assert records[..|records|] == records;
    }
  }
}
