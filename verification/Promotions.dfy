/** The stored lifecycle of promotions, advanced by any number of tasks that race with compare-and-set. */
module Promotions {
  import opened Common
  import PromotionIndex

  type Id = string

  datatype Lifecycle = Scheduled | Active | Expired | Disabled
  {
    function Rank(): nat {
      match this
      case Scheduled => 0
      case Active => 1
      case Expired => 2
      case Disabled => 3
    }
  }

  /** Older rows may lack a state or a version. */
  datatype Record = Record(
    enabled: bool, startsAt: PromotionIndex.Stamp, endsAt: int,
    state: Option<Lifecycle>, version: Option<int>, pending: bool)
  {
    function State(): Lifecycle { if state == None then Scheduled else state.value }

    function Version(): int { if version == None then 0 else version.value }

    function Due(now: int): Lifecycle {
      if !enabled then Disabled
      else if endsAt <= now then Expired
      else if startsAt.Instant() <= now then Active
      else Scheduled
    }

    predicate Indexed(now: int) { enabled && PromotionIndex.OnTheClock(startsAt, now) }

    /** The step that a pass wants to make. */
    function Target(now: int): Option<Lifecycle> {
      if State() == Scheduled && startsAt.Instant() <= now then Some(Active)
      else if State() == Active && endsAt <= now then Some(Expired)
      else None
    }
  }

  type Table = map<Id, Record>

  datatype Candidate = Candidate(id: Id, snap: Record)

  /** The condition of the transition, against the values read earlier. A missing attribute never matches. */
  predicate CanMove(t: Table, c: Candidate) {
    && c.id in t && t[c.id].enabled
    && t[c.id].state == Some(c.snap.State()) && t[c.id].version == Some(c.snap.Version())
  }

  function Move(t: Table, c: Candidate, target: Lifecycle): Table
    requires c.id in t
  {
    t[c.id := t[c.id].(state := Some(target), version := Some(c.snap.Version() + 1), pending := true)]
  }

  predicate CanClear(t: Table, id: Id, state: Lifecycle, version: int) {
    id in t && t[id].state == Some(state) && t[id].version == Some(version)
  }

  function Clear(t: Table, id: Id): Table
    requires id in t
  {
    t[id := t[id].(pending := false)]
  }

  // ---- one pass -------------------------------------------------------------

  predicate Wins(t: Table, c: Candidate, now: int) {
    c.snap.Target(now) != None && CanMove(t, c)
  }

  function PassTable(t: Table, cs: seq<Candidate>, now: int): Table {
    if cs == [] then t
    else
      var u, c := PassTable(t, cs[..|cs| - 1], now), cs[|cs| - 1];
      if Wins(u, c, now) then Clear(Move(u, c, c.snap.Target(now).value), c.id) else u
  }

  function PassWins(t: Table, cs: seq<Candidate>, now: int): seq<Id> {
    if cs == [] then []
    else
      var c := cs[|cs| - 1];
      PassWins(t, cs[..|cs| - 1], now) + (if Wins(PassTable(t, cs[..|cs| - 1], now), c, now) then [c.id] else [])
  }

  /** The table, the transitions reported, and whether the pass was abandoned. */
  datatype Pass = Pass(table: Table, ids: seq<Id>, raised: bool)

  /** One candidate, amid the rows that other tasks write meanwhile. */
  function PassOn(p: Pass, c: Candidate, now: int, others: Table): Pass {
    if p.raised then p
    else if !Wins(p.table, c, now) then p.(table := p.table + others)
    else
      var target := c.snap.Target(now).value;
      var u := Move(p.table, c, target) + others;
      if CanClear(u, c.id, target, c.snap.Version() + 1) then Pass(Clear(u, c.id), p.ids + [c.id], false)
      else Pass(u, p.ids, true)
  }

  function Passed(t: Table, cs: seq<Candidate>, now: int, others: seq<Table>): Pass
    requires |others| == |cs|
  {
    if cs == [] then Pass(t, [], false)
    else PassOn(Passed(t, cs[..|cs| - 1], now, others[..|cs| - 1]), cs[|cs| - 1], now, others[|cs| - 1])
  }

  lemma PassOneMore(t: Table, cs: seq<Candidate>, now: int, others: seq<Table>, i: nat)
    requires i < |cs| == |others|
    ensures Passed(t, cs[..i + 1], now, others[..i + 1])
            == PassOn(Passed(t, cs[..i], now, others[..i]), cs[i], now, others[i])
  {
    assert cs[..i + 1][..i] == cs[..i] && others[..i + 1][..i] == others[..i];
  }

  /** Once raised, the rest of the candidates change nothing. */
  lemma {:induction false} PassedStays(t: Table, cs: seq<Candidate>, now: int, others: seq<Table>, i: nat)
    requires i <= |cs| == |others| && Passed(t, cs[..i], now, others[..i]).raised
    ensures Passed(t, cs, now, others) == Passed(t, cs[..i], now, others[..i])
  {
    if i == |cs| {
      assert cs[..i] == cs && others[..i] == others;
    } else {
      var n := |cs| - 1;
      assert cs[..n][..i] == cs[..i] && others[..n][..i] == others[..i];
      PassedStays(t, cs[..n], now, others[..n], i);
    }
  }

  class PromotionRepository {
    var table: Table

    constructor (table: Table)
      ensures this.table == table
    {
      this.table := table;
    }

    method CreatePromotion(id: Id, enabled: bool, startsAt: PromotionIndex.Stamp, endsAt: int, now: int)
      returns (created: bool)
      modifies this
      ensures created == (id !in old(table))
      ensures !created ==> table == old(table)
      ensures created ==>
                table.Keys == old(table).Keys + {id} && forall k :: k in old(table) ==> table[k] == old(table)[k]
      ensures created ==>
                && table[id].state == Some(table[id].Due(now)) && table[id].version == Some(0) && !table[id].pending
                && table[id].enabled == enabled && table[id].startsAt == startsAt && table[id].endsAt == endsAt
      ensures created ==>
                && (table[id].state == Some(Disabled) <==> !enabled)
                && (table[id].state == Some(Expired) <==> enabled && endsAt <= now)
                && (table[id].state == Some(Active) <==> enabled && startsAt.Instant() <= now < endsAt)
                && (table[id].state == Some(Scheduled) <==> enabled && now < startsAt.Instant() && now < endsAt)
    {
      created := id !in table;
      if created {
        var row := Record(enabled, startsAt, endsAt, None, Some(0), true);
        table := table[id := row.(state := Some(row.Due(now)))];
        if CanClear(table, id, row.Due(now), 0) {
          table := Clear(table, id);
        }
      }
    }

    /**
     * One candidate: the conditional transition, what other tasks write meanwhile, and the cleanup, which raises if it
     * finds a newer row.
     */
    method Advance(c: Candidate, now: int, others: Table, ghost ids: seq<Id>) returns (won: bool, raised: bool)
      modifies this
      ensures Pass(table, if won then ids + [c.id] else ids, raised)
              == PassOn(Pass(old(table), ids, false), c, now, others)
      ensures raised ==> !won
    {
      var target: Option<Lifecycle> := None;
      var state := c.snap.State();
      if state == Scheduled && c.snap.startsAt.Instant() <= now {
        target := Some(Active);
      } else if state == Active && c.snap.endsAt <= now {
        target := Some(Expired);
      }
      if target == None || !CanMove(table, c) {
        table := table + others;
        return false, false;
      }
      table := Move(table, c, target.value);
      table := table + others;
      if !CanClear(table, c.id, target.value, c.snap.Version() + 1) {
        return false, true;
      }
      table := Clear(table, c.id);
      return true, false;
    }

    /**
     * One pass over candidates that may have been read long ago: whatever changed since is left alone. `others[i]`
     * are the rows that other tasks write while candidate `i` is handled, between its transition and its cleanup. A
     * failed cleanup ends the pass.
     */
    method Reconcile(candidates: seq<Candidate>, now: int, others: seq<Table>)
      returns (transitioned: seq<Id>, raised: bool)
      requires |others| == |candidates|
      modifies this
      ensures Pass(table, transitioned, raised) == Passed(old(table), candidates, now, others)
    {
      transitioned, raised := [], false;
      var i := 0;
      while i < |candidates|
        invariant 0 <= i <= |candidates| && !raised
        invariant Pass(table, transitioned, raised) == Passed(old(table), candidates[..i], now, others[..i])
      {
        var won;
        PassOneMore(old(table), candidates, now, others, i);
        won, raised := Advance(candidates[i], now, others[i], transitioned);
        if raised {
          PassedStays(old(table), candidates, now, others, i + 1);
          return;
        }
        if won {
          transitioned := transitioned + [candidates[i].id];
        }
        i := i + 1;
      }
      assert candidates[..i] == candidates && others[..i] == others;
    }
  }

  /**
   * With nobody else writing, the pass is never abandoned and leaves and reports what `PassTable` and `PassWins` say.
   */
  lemma {:induction false} QuietPass(t: Table, cs: seq<Candidate>, now: int, others: seq<Table>)
    requires |others| == |cs| && forall i :: 0 <= i < |others| ==> others[i] == map[]
    ensures Passed(t, cs, now, others) == Pass(PassTable(t, cs, now), PassWins(t, cs, now), false)
  {
    if cs == [] {
    } else {
      var n := |cs| - 1;
      QuietPass(t, cs[..n], now, others[..n]);
      var u := PassTable(t, cs[..n], now);
      assert u + others[n] == u;
      if Wins(u, cs[n], now) {
        var v := Move(u, cs[n], cs[n].snap.Target(now).value);
        assert v + others[n] == v;
      }
    }
  }

  /** The row that a candidate names is still as it was read, and due for its next state. */
  predicate Matches(t: Table, c: Candidate, now: int) {
    && c.id in t && t[c.id].enabled && t[c.id].version == Some(c.snap.Version())
    && (|| (t[c.id].state == Some(Scheduled) && (c.snap.state == None || c.snap.state == Some(Scheduled))
            && c.snap.startsAt.Instant() <= now)
        || (t[c.id].state == Some(Active) && c.snap.state == Some(Active) && c.snap.endsAt <= now))
  }

  /**
   * What a pass makes of one candidate while nobody else writes its row: a row that matches moves on by one state and
   * one version, is left without its marker and reported; any other row is left alone.
   */
  lemma CandidateIsHandled(p: Pass, c: Candidate, now: int, others: Table)
    requires !p.raised && c.id !in others
    ensures var q := PassOn(p, c, now, others);
            if Matches(p.table, c, now) then
              var next := if p.table[c.id].state == Some(Scheduled) then Active else Expired;
              var row := p.table[c.id].(state := Some(next), version := Some(c.snap.Version() + 1), pending := false);
              q == Pass((p.table + others)[c.id := row], p.ids + [c.id], false)
            else q == Pass(p.table + others, p.ids, false)
  {
  }

  /** The cleanup fails exactly when another task left the row in another state or at another version. */
  lemma CleanupFailsIff(t: Table, c: Candidate, target: Lifecycle, others: Table)
    requires CanMove(t, c)
    ensures !CanClear(Move(t, c, target) + others, c.id, target, c.snap.Version() + 1) <==>
            c.id in others && (others[c.id].state != Some(target) || others[c.id].version != Some(c.snap.Version() + 1))
  {
  }

  lemma RaisedIff(p: Pass, c: Candidate, now: int, others: Table)
    requires !p.raised
    ensures PassOn(p, c, now, others).raised <==>
            Wins(p.table, c, now) && c.id in others &&
            (others[c.id].state != c.snap.Target(now) || others[c.id].version != Some(c.snap.Version() + 1))
  {
    if Wins(p.table, c, now) {
      CleanupFailsIff(p.table, c, c.snap.Target(now).value, others);
    }
  }

  /** A pass is abandoned exactly at a transition that another task overwrote before its cleanup. */
  lemma AbandonedIff(t: Table, cs: seq<Candidate>, c: Candidate, now: int, others: seq<Table>, o: Table)
    requires |others| == |cs| && !Passed(t, cs, now, others).raised
    ensures Passed(t, cs + [c], now, others + [o]).raised <==>
            Wins(Passed(t, cs, now, others).table, c, now) && c.id in o &&
            (o[c.id].state != c.snap.Target(now) || o[c.id].version != Some(c.snap.Version() + 1))
  {
    assert (cs + [c])[..|cs|] == cs && (others + [o])[..|cs|] == others;
    RaisedIff(Passed(t, cs, now, others), c, now, o);
  }

  // ---- undisturbed passes ---------------------------------------------------

  /** The candidates are the rows of the table that the index returns, in any order and possibly repeated. */
  ghost predicate Fresh(t: Table, cs: seq<Candidate>, now: int) {
    forall c :: c in cs <==> c.id in t && c.snap == t[c.id] && c.snap.Indexed(now)
  }

  /** What one undisturbed pass makes of one row. */
  function Stepped(r: Record, now: int): Record {
    if r.Indexed(now) && r.state != None && r.version != None && r.Target(now) != None
    then r.(state := r.Target(now), version := Some(r.Version() + 1), pending := false)
    else r
  }

  /** Candidates taken from the table at the start of the pass are each stepped once, and nothing else moves. */
  lemma {:induction false} PassOverSnapshots(t: Table, cs: seq<Candidate>, now: int)
    requires forall c :: c in cs ==> c.id in t && c.snap == t[c.id] && c.snap.Indexed(now)
    ensures var u := PassTable(t, cs, now);
            u.Keys == t.Keys &&
            forall id :: id in t ==> u[id] == if Candidate(id, t[id]) in cs then Stepped(t[id], now) else t[id]
  {
    if cs == [] {
    } else {
      var front, c := cs[..|cs| - 1], cs[|cs| - 1];
      assert c in cs && forall d :: d in front ==> d in cs;
      PassOverSnapshots(t, front, now);
      var u := PassTable(t, front, now);
      assert c == Candidate(c.id, t[c.id]);
      assert u[c.id] == if c in front then Stepped(t[c.id], now) else t[c.id];
      forall id | id in t && id != c.id ensures Candidate(id, t[id]) in cs <==> Candidate(id, t[id]) in front {
      }
    }
  }

  lemma UndisturbedPass(t: Table, cs: seq<Candidate>, now: int)
    requires Fresh(t, cs, now)
    ensures PassTable(t, cs, now) == map id | id in t :: Stepped(t[id], now)
  {
    PassOverSnapshots(t, cs, now);
    forall id | id in t ensures PassTable(t, cs, now)[id] == Stepped(t[id], now) {
      assert Candidate(id, t[id]) in cs <==> t[id].Indexed(now);
    }
  }

  /** The window is not empty, and the stored state is not past what the times call for. */
  predicate NotAhead(r: Record, now: int) {
    r.startsAt.Instant() < r.endsAt &&
    if r.enabled then r.State().Rank() <= r.Due(now).Rank() else r.State() == Disabled
  }

  predicate Settled(r: Record, now: int) {
    r.State() == r.Due(now)
  }

  /** A pass can move the row at all: its attributes are there and the index returns it. */
  predicate Movable(r: Record, now: int) {
    r.Indexed(now) && r.state != None && r.version != None
  }

  lemma TwoSteps(r: Record, now: int)
    requires NotAhead(r, now)
    ensures Settled(Stepped(Stepped(r, now), now), now) <==> Settled(r, now) || Movable(r, now)
    ensures Stepped(Stepped(Stepped(r, now), now), now) == Stepped(Stepped(r, now), now)
  {
  }

  /** After two undisturbed passes at one time every stored state is right, except where no pass can move the row. */
  lemma TwoPassesSettleIff(t: Table, cs: seq<Candidate>, ds: seq<Candidate>, now: int)
    requires Fresh(t, cs, now) && Fresh(PassTable(t, cs, now), ds, now)
    requires forall id :: id in t ==> NotAhead(t[id], now)
    ensures var u := PassTable(PassTable(t, cs, now), ds, now);
            && u.Keys == t.Keys
            && forall id :: id in t ==> (Settled(u[id], now) <==> Settled(t[id], now) || Movable(t[id], now))
  {
    UndisturbedPass(t, cs, now);
    UndisturbedPass(PassTable(t, cs, now), ds, now);
    forall id | id in t
      ensures Settled(Stepped(Stepped(t[id], now), now), now) <==> Settled(t[id], now) || Movable(t[id], now)
    {
      TwoSteps(t[id], now);
    }
  }

  lemma {:induction false} NobodyWins(t: Table, cs: seq<Candidate>, now: int)
    requires forall c :: c in cs ==> !Wins(t, c, now)
    ensures PassTable(t, cs, now) == t && PassWins(t, cs, now) == []
  {
    if cs == [] {
    } else {
      NobodyWins(t, cs[..|cs| - 1], now);
      assert cs[|cs| - 1] in cs;
    }
  }

  /** From the third pass on, at that time, nothing changes and no transition is reported. */
  lemma ThirdPassIsIdle(t: Table, cs: seq<Candidate>, ds: seq<Candidate>, es: seq<Candidate>, now: int)
    requires Fresh(t, cs, now) && Fresh(PassTable(t, cs, now), ds, now)
    requires var u := PassTable(PassTable(t, cs, now), ds, now); Fresh(u, es, now)
    requires forall id :: id in t ==> NotAhead(t[id], now)
    ensures var u := PassTable(PassTable(t, cs, now), ds, now);
            PassTable(u, es, now) == u && PassWins(u, es, now) == []
  {
    var u := PassTable(PassTable(t, cs, now), ds, now);
    UndisturbedPass(t, cs, now);
    UndisturbedPass(PassTable(t, cs, now), ds, now);
    forall c | c in es ensures !Wins(u, c, now) {
      TwoSteps(t[c.id], now);
    }
    NobodyWins(u, es, now);
  }
}
