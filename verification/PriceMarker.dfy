/** The marker that announces a price change: set by every price write, cleared only by the write that set it. */
module PriceMarker {
  import opened Common

  type Id = string

  /** Both attributes are absent until the first price write. */
  datatype Row = Row(price: int, rest: string, version: Option<nat>, pending: Option<bool>)
  {
    function Version(): nat { if version == None then 0 else version.value }
  }

  type Table = map<Id, Row>

  /** The fields an administrator sent. */
  datatype Changes = Changes(price: Option<int>, rest: Option<string>)

  function Merge(r: Row, c: Changes): Row {
    var r1 := if c.rest == None then r else r.(rest := c.rest.value);
    if c.price == None then r1
    else r1.(price := c.price.value, pending := Some(true), version := Some(r.Version() + 1))
  }

  predicate CanClear(t: Table, id: Id, version: nat) {
    id in t && t[id].version == Some(version)
  }

  function ClearMarker(t: Table, id: Id, version: nat): Table {
    if CanClear(t, id, version) then t[id := t[id].(pending := Some(false))] else t
  }

  /** What an undisturbed update leaves stored. */
  function Updated(t: Table, id: Id, c: Changes): Table {
    if id !in t then t
    else
      var r := Merge(t[id], c);
      t[id := if c.price == None then r else r.(pending := Some(false))]
  }

  class ProductRepository {
    var table: Table

    method Create(id: Id, price: int, rest: string) returns (created: bool)
      modifies this
      ensures created == (id !in old(table))
      ensures table == if created then old(table)[id := Row(price, rest, None, None)] else old(table)
    {
      created := id !in table;
      if created {
        table := table[id := Row(price, rest, None, None)];
      }
    }

    /** An update nobody disturbs ends with the price stored, a new version, and the marker cleared again. */
    method Update(id: Id, changes: Changes) returns (result: Option<Row>)
      modifies this
      ensures result == None <==> id !in old(table)
      ensures result != None ==> result.value == Merge(old(table)[id], changes)
      ensures table == Updated(old(table), id, changes)
      ensures result != None ==>
                && id in table && id in old(table)
                && table[id].price == (if changes.price != None then changes.price.value else old(table)[id].price)
                && table[id].rest == (if changes.rest != None then changes.rest.value else old(table)[id].rest)
                && table[id].Version() == old(table)[id].Version() + (if changes.price != None then 1 else 0)
                && (changes.price != None ==> table[id].version != None && table[id].pending == Some(false))
                && (changes.price == None ==> table[id].pending == old(table)[id].pending)
                && result.value.price == table[id].price && result.value.rest == table[id].rest
      ensures table.Keys == old(table).Keys && forall x :: x in table && x != id ==> table[x] == old(table)[x]
    {
      if id !in table {
        return None;
      }
      if changes == Changes(None, None) {
        assert table == table[id := table[id]];
        return Some(table[id]);
      }
      table := table[id := Merge(table[id], changes)];
      result := Some(table[id]);
      if changes.price != None {
        ClearProductPriceEventPending(id, result.value.Version());
      }
    }

    method ClearProductPriceEventPending(id: Id, version: nat)
      modifies this
      ensures table == ClearMarker(old(table), id, version)
    {
      if CanClear(table, id, version) {
        table := table[id := table[id].(pending := Some(false))];
      }
    }

    method Delete(id: Id) returns (deleted: bool)
      modifies this
      ensures deleted == (id in old(table)) && table == old(table) - {id}
    {
      deleted := id in table;
      table := table - {id};
    }
  }

  // ---- concurrent writers ---------------------------------------------------

  /** A price write that has been stored, and whether its own cleanup has been attempted. */
  datatype Writer = Writer(id: Id, version: nat, price: int, done: bool)

  /** `latest` names the price write that each product carries, none after a deletion; `deleted` those ever deleted. */
  datatype State = State(table: Table, writers: map<nat, Writer>, latest: map<Id, nat>, deleted: set<Id>)

  datatype Action =
    | Create(id: Id, price: int, rest: string)
    | Write(w: nat, id: Id, changes: Changes)
    | Cleanup(w: nat)
    | Delete(id: Id)

  /** One atomic write of one task; a step that is not enabled changes nothing. */
  function Apply(s: State, a: Action): State {
    match a
    case Create(id, price, rest) =>
      if id in s.table then s else s.(table := s.table[id := Row(price, rest, None, None)])
    case Write(w, id, changes) =>
      if id !in s.table || w in s.writers then s
      else
        var r := Merge(s.table[id], changes);
        var t := s.table[id := r];
        if changes.price == None then s.(table := t)
        else s.(table := t, latest := s.latest[id := w],
                writers := s.writers[w := Writer(id, r.Version(), changes.price.value, false)])
    case Cleanup(w) =>
      if w !in s.writers || s.writers[w].done then s
      else s.(table := ClearMarker(s.table, s.writers[w].id, s.writers[w].version),
              writers := s.writers[w := s.writers[w].(done := true)])
    case Delete(id) =>
      if id !in s.table then s
      else s.(table := s.table - {id}, latest := s.latest - {id}, deleted := s.deleted + {id})
  }

  function Exec(s: State, run: seq<Action>): State {
    if run == [] then s else Apply(Exec(s, run[..|run| - 1]), run[|run| - 1])
  }

  lemma ExecOne(s: State, run: seq<Action>, a: Action)
    ensures Exec(s, run + [a]) == Apply(Exec(s, run), a)
  {
    assert (run + [a])[..|run|] == run;
  }

  predicate Init(s: State) {
    s.writers == map[] && s.latest == map[] && s.deleted == {}
  }

  /** Writes of one product are numbered by its version, and none is numbered past it. */
  ghost predicate Numbered(s: State, id: Id) {
    && (forall w :: w in s.writers && s.writers[w].id == id ==>
          id in s.latest && id in s.table && s.writers[w].version <= s.table[id].Version())
    && (forall w, x :: w in s.writers && x in s.writers && w != x && s.writers[w].id == id && s.writers[x].id == id ==>
          s.writers[w].version != s.writers[x].version)
  }

  /** The price write that a product carries is known by its number, and its price is the one stored. */
  ghost predicate Carried(s: State, id: Id) {
    id in s.latest ==>
      && id in s.table && s.latest[id] in s.writers && s.writers[s.latest[id]].id == id
      && s.table[id].version == Some(s.writers[s.latest[id]].version)
      && s.table[id].price == s.writers[s.latest[id]].price
  }

  /** The marker of the latest price write stands until exactly that write's own cleanup. */
  ghost predicate Marked(s: State, id: Id) {
    id in s.latest && s.latest[id] in s.writers && id in s.table ==>
      s.table[id].pending == Some(!s.writers[s.latest[id]].done)
  }

  ghost predicate Inv(s: State) {
    && (forall w :: w in s.writers ==> s.writers[w].version > 0)
    && (forall id :: Carried(s, id))
    && (forall id :: id !in s.deleted ==> Numbered(s, id) && Marked(s, id))
  }

  lemma StepKeepsNumbering(s: State, a: Action, id: Id)
    requires Numbered(s, id) && id !in Apply(s, a).deleted
    ensures Numbered(Apply(s, a), id)
  {
  }

  lemma StepKeepsMarker(s: State, a: Action, id: Id)
    requires Numbered(s, id) && Carried(s, id) && Marked(s, id) && id !in Apply(s, a).deleted
    ensures Marked(Apply(s, a), id)
  {
  }

  lemma StepKeepsCarrier(s: State, a: Action, id: Id)
    requires Carried(s, id)
    ensures Carried(Apply(s, a), id)
  {
  }

  lemma StepKeeps(s: State, a: Action)
    requires Inv(s)
    ensures Inv(Apply(s, a))
  {
    var s' := Apply(s, a);
    forall id ensures Carried(s', id) { StepKeepsCarrier(s, a, id); }
    forall id | id !in s'.deleted ensures Numbered(s', id) && Marked(s', id) {
      assert id !in s.deleted && Carried(s, id) && Numbered(s, id) && Marked(s, id);
      StepKeepsNumbering(s, a, id);
      StepKeepsMarker(s, a, id);
    }
  }

  lemma {:induction false} RunKeepsInv(s: State, run: seq<Action>)
    requires Init(s)
    ensures Inv(Exec(s, run))
  {
    if run == [] {
    } else {
      RunKeepsInv(s, run[..|run| - 1]);
      StepKeeps(Exec(s, run[..|run| - 1]), run[|run| - 1]);
    }
  }

  /**
   * Whatever else is written or cleared, an undeleted product shows its latest price change until that change's own
   * cleanup.
   */
  lemma MarkerStandsUntilItsOwnCleanup(s: State, run: seq<Action>, id: Id)
    requires Init(s)
    ensures var t := Exec(s, run);
            id in t.latest && id !in t.deleted ==>
              id in t.table && t.latest[id] in t.writers && t.table[id].pending == Some(!t.writers[t.latest[id]].done)
  {
    RunKeepsInv(s, run);
    assert id !in Exec(s, run).deleted ==> Marked(Exec(s, run), id);
  }

  /** Whatever happens meanwhile, a product that carries a price write sells at that write's price. */
  lemma StoredPriceIsTheLatest(s: State, run: seq<Action>, id: Id)
    requires Init(s)
    ensures var t := Exec(s, run);
            id in t.latest ==>
              && id in t.table && t.latest[id] in t.writers && t.writers[t.latest[id]].id == id
              && t.table[id].price == t.writers[t.latest[id]].price
  {
    RunKeepsInv(s, run);
    assert Carried(Exec(s, run), id);
  }

  /** Write `w` still has to clean up after itself. */
  predicate Open(s: State, w: nat, id: Id) {
    w in s.writers && s.writers[w].id == id && !s.writers[w].done
  }

  /** The product carries a price write that is not cleaned up yet, and shows it. */
  predicate Showing(s: State, id: Id) {
    && id in s.table && id in s.latest && Open(s, s.latest[id], id)
    && s.table[id].pending == Some(true)
  }

  /** A stored price write becomes the one that is carried, with the price that was sent. */
  lemma PriceWriteIsCarried(s: State, w: nat, id: Id, changes: Changes)
    requires changes.price != None && id in s.table && w !in s.writers
    ensures var t := Apply(s, Write(w, id, changes));
            && id in t.latest && t.latest[id] == w && w in t.writers && t.writers[w].price == changes.price.value
            && t.table[id].price == changes.price.value && Showing(t, id)
            && t.table.Keys == s.table.Keys && forall x :: x in s.table && x != id ==> t.table[x] == s.table[x]
  {
  }

  /** Each price write gets a version above every version written before. */
  lemma VersionsAreFresh(s: State, run: seq<Action>, w: nat, id: Id, changes: Changes, x: nat)
    requires Init(s) && changes.price != None
    ensures var t := Exec(s, run);
            var u := Apply(t, Write(w, id, changes));
            id in t.table && id !in t.deleted && w !in t.writers && x in t.writers && t.writers[x].id == id ==>
              w in u.writers && u.writers[w].version > t.writers[x].version
  {
    RunKeepsInv(s, run);
    assert id !in Exec(s, run).deleted ==> Numbered(Exec(s, run), id);
  }

  predicate IsLatest(s: State, w: nat) {
    w in s.writers && s.writers[w].id in s.latest && s.latest[s.writers[w].id] == w
  }

  lemma OlderIsNumberedBelow(t: State, w: nat, id: Id)
    requires Numbered(t, id) && Carried(t, id) && w in t.writers && t.writers[w].id == id && !IsLatest(t, w)
    ensures id in t.table && t.table[id].version != Some(t.writers[w].version)
    ensures t.writers[w].version < t.table[id].Version()
  {
  }

  /** A cleanup of an older write finds a newer version and changes nothing. */
  lemma OlderCleanupIsHarmless(s: State, run: seq<Action>, w: nat)
    requires Init(s)
    ensures var t := Exec(s, run);
            w in t.writers && t.writers[w].id !in t.deleted && !IsLatest(t, w) ==>
              Apply(t, Cleanup(w)).table == t.table
  {
    RunKeepsInv(s, run);
    var t := Exec(s, run);
    if w in t.writers && t.writers[w].id !in t.deleted && !IsLatest(t, w) {
      OlderIsNumberedBelow(t, w, t.writers[w].id);
    }
  }

  // ---- when a marker can be erased ------------------------------------------

  /** Some other write's cleanup is due for the product. */
  predicate Stray(s: State, w: nat, id: Id) {
    Open(s, w, id) && !(id in s.latest && s.latest[id] == w)
  }

  /** The step takes the marker off a price write that is not its own. */
  predicate Erases(s: State, a: Action, id: Id) {
    && Showing(s, id) && a.Cleanup? && Stray(s, a.w, id)
    && id in Apply(s, a).table && Apply(s, a).table[id].pending == Some(false)
  }

  /** One step: a stray cleanup erases the marker exactly when the numbers agree. */
  lemma StrayCleanupErasesIff(s: State, w: nat, id: Id)
    requires Showing(s, id) && Stray(s, w, id)
    ensures Erases(s, Cleanup(w), id) <==> s.table[id].version == Some(s.writers[w].version)
  {
  }

  predicate Keeps(run: seq<Action>, id: Id) {
    forall a :: a in run ==> a != Delete(id)
  }

  /** Some continuation without a further deletion of the product erases a marker. */
  ghost predicate CanErase(s: State, id: Id) {
    exists more, w :: Keeps(more, id) && Erases(Exec(s, more), Cleanup(w), id)
  }

  /** The number from which the product's next price write counts on. */
  function Level(s: State, id: Id): nat {
    if id in s.table then s.table[id].Version() else 0
  }

  /** A stray cleanup that the numbering has yet to reach, or has reached while the marker is shown. */
  predicate Dangerous(s: State, w: nat, id: Id) {
    && Stray(s, w, id)
    && (s.writers[w].version > Level(s, id) || (s.writers[w].version == Level(s, id) && Showing(s, id)))
  }

  ghost predicate Harmless(s: State, id: Id) {
    && Carried(s, id)
    && (forall w :: w in s.writers ==> s.writers[w].version > 0)
    && (forall w :: !Dangerous(s, w, id))
  }

  lemma StepKeepsHarmless(s: State, a: Action, id: Id)
    requires Harmless(s, id) && a != Delete(id)
    ensures Harmless(Apply(s, a), id)
  {
    var t := Apply(s, a);
    StepKeepsCarrier(s, a, id);
    forall w ensures !Dangerous(t, w, id) {
      assert !Dangerous(s, w, id);
    }
  }

  lemma {:induction false} RunKeepsHarmless(s: State, run: seq<Action>, id: Id)
    requires Harmless(s, id) && Keeps(run, id)
    ensures Harmless(Exec(s, run), id)
  {
    if run == [] {
    } else {
      var front := run[..|run| - 1];
      assert run[|run| - 1] in run;
      forall a | a in front ensures a != Delete(id) { assert a in run; }
      RunKeepsHarmless(s, front, id);
      StepKeepsHarmless(Exec(s, run[..|run| - 1]), run[|run| - 1], id);
    }
  }

  /** `n` further price writes of the product. */
  function Climb(id: Id, first: nat, n: nat): seq<Action> {
    if n == 0 then [] else Climb(id, first, n - 1) + [Write(first + n - 1, id, Changes(Some(0), None))]
  }

  /** `t` is `s` after `n` more price writes of the product, by writers numbered from `first`. */
  ghost predicate Raised(s: State, t: State, id: Id, first: nat, n: nat) {
    && id in s.table && id in t.table && t.table[id].Version() == s.table[id].Version() + n
    && (forall k :: k in t.writers ==> k < first + n)
    && (forall k :: k in s.writers ==> k in t.writers && t.writers[k] == s.writers[k])
    && (n > 0 ==> Showing(t, id) && t.latest[id] == first + n - 1 && t.table[id].version != None)
  }

  lemma OneWriteRaises(s: State, t: State, u: State, id: Id, first: nat, n: nat)
    requires Raised(s, t, id, first, n) && u == Apply(t, Write(first + n, id, Changes(Some(0), None)))
    ensures Raised(s, u, id, first, n + 1)
  {
  }

  lemma ClimbOnce(s: State, id: Id, first: nat, n: nat)
    requires n > 0
    ensures Exec(s, Climb(id, first, n))
            == Apply(Exec(s, Climb(id, first, n - 1)), Write(first + n - 1, id, Changes(Some(0), None)))
  {
    ExecOne(s, Climb(id, first, n - 1), Write(first + n - 1, id, Changes(Some(0), None)));
  }

  lemma {:induction false} ClimbKeeps(id: Id, first: nat, n: nat)
    ensures Keeps(Climb(id, first, n), id)
  {
    if n == 0 {
    } else {
      ClimbKeeps(id, first, n - 1);
    }
  }

  lemma {:induction false} ClimbRaises(s: State, id: Id, first: nat, n: nat) returns (u: State)
    requires id in s.table && forall k :: k in s.writers ==> k < first
    ensures u == Exec(s, Climb(id, first, n)) && Raised(s, u, id, first, n)
  {
    if n == 0 {
      u := s;
    } else {
      var t := ClimbRaises(s, id, first, n - 1);
      u := Apply(t, Write(first + n - 1, id, Changes(Some(0), None)));
      ClimbOnce(s, id, first, n);
      OneWriteRaises(s, t, u, id, first, n - 1);
    }
  }

  /** A stray cleanup whose number lies ahead is reached by enough price writes. */
  lemma StrayIsReached(s: State, w: nat, id: Id)
    requires Stray(s, w, id) && id in s.table && s.writers[w].version > s.table[id].Version()
    ensures CanErase(s, id)
  {
    var first := FreshNat(s.writers.Keys);
    var n := s.writers[w].version - s.table[id].Version();
    ClimbKeeps(id, first, n);
    var t := ClimbRaises(s, id, first, n);
    assert Stray(t, w, id);
    StrayCleanupErasesIff(t, w, id);
  }

  lemma {:induction false} ExecAfter(s: State, a: Action, more: seq<Action>)
    ensures Exec(s, [a] + more) == Exec(Apply(s, a), more)
  {
    if more == [] {
      assert [a] + more == [a] && [a][..0] == [];
    } else {
      ExecAfter(s, a, more[..|more| - 1]);
      assert ([a] + more)[..|[a] + more| - 1] == [a] + more[..|more| - 1];
    }
  }

  lemma DangerCanErase(s: State, w: nat, id: Id)
    requires Carried(s, id) && Dangerous(s, w, id)
    ensures CanErase(s, id)
  {
    if id !in s.table {
      var a := Create(id, 0, "");
      var t := Apply(s, a);
      StrayIsReached(t, w, id);
      var more, v :| Keeps(more, id) && Erases(Exec(t, more), Cleanup(v), id);
      ExecAfter(s, a, more);
      assert Keeps([a] + more, id);
    } else if s.writers[w].version > s.table[id].Version() {
      StrayIsReached(s, w, id);
    } else {
      StrayCleanupErasesIff(s, w, id);
      assert Exec(s, []) == s && Keeps([], id);
    }
  }

  /**
   * The exact condition. From any reachable state, some continuation that does not delete the product erases the
   * marker of the write it carries if and only if another write's cleanup is still due, numbered above the
   * product's version, or equal to it while the marker is shown. Such writes are left over from before a deletion.
   */
  lemma MarkerCanBeErasedIff(s: State, run: seq<Action>, id: Id)
    requires Init(s)
    ensures CanErase(Exec(s, run), id) <==> exists w :: Dangerous(Exec(s, run), w, id)
  {
    var t := Exec(s, run);
    RunKeepsInv(s, run);
    assert Carried(t, id);
    if w :| Dangerous(t, w, id) {
      DangerCanErase(t, w, id);
    } else {
      forall more, w | Keeps(more, id) ensures !Erases(Exec(t, more), Cleanup(w), id) {
        RunKeepsHarmless(t, more, id);
        assert !Dangerous(Exec(t, more), w, id);
      }
    }
  }

  /** A product that was never deleted is never in danger. */
  lemma UndeletedIsNotInDanger(s: State, run: seq<Action>, id: Id)
    requires Init(s) && id !in Exec(s, run).deleted
    ensures !CanErase(Exec(s, run), id)
  {
    var t := Exec(s, run);
    RunKeepsInv(s, run);
    MarkerCanBeErasedIff(s, run, id);
    assert Numbered(t, id) && Carried(t, id);
    forall w ensures !Dangerous(t, w, id) {
      if Stray(t, w, id) { OlderIsNumberedBelow(t, w, id); }
    }
  }

  // ---- the repository's update as steps -------------------------------------

  function UpdateSteps(w: nat, id: Id, c: Changes): seq<Action> {
    [Write(w, id, c)] + (if c.price == None then [] else [Cleanup(w)])
  }

  /** An undisturbed update is a run of the protocol: its write and its own cleanup. */
  lemma UpdateIsARun(s: State, w: nat, id: Id, c: Changes)
    requires w !in s.writers
    ensures Exec(s, UpdateSteps(w, id, c)).table == Updated(s.table, id, c)
  {
    var run := UpdateSteps(w, id, c);
    var t := Apply(s, Write(w, id, c));
    assert [Write(w, id, c)][..0] == [];
    assert Exec(s, [Write(w, id, c)]) == t;
    if c.price == None {
      assert run == [Write(w, id, c)];
    } else {
      assert run[..1] == [Write(w, id, c)];
    }
  }

  lemma SecondWriteIsInDanger(s: State, price: Changes)
    requires price.price != None && s.writers == map[0 := Writer("p", 1, 200, false)] && s.latest == map[]
    requires "p" in s.table && s.table["p"].version == None
    ensures var t := Apply(s, Write(1, "p", price)); Dangerous(t, 0, "p") && Erases(t, Cleanup(0), "p")
  {
  }

  /**
   * An instance: a deletion restarts the numbering, and then an older write's cleanup erases a newer write's marker.
   */
  lemma RecreationLosesAMarker()
    ensures var s := State(map["p" := Row(100, "", None, None)], map[], map[], {});
            var price := Changes(Some(200), None);
            var run := [Write(0, "p", price)] + [Delete("p")] + [Create("p", 100, "")] + [Write(1, "p", price)];
            && Init(s) && Erases(Exec(s, run), Cleanup(0), "p") && CanErase(Exec(s, run), "p")
  {
    var row := Row(100, "", None, None);
    var s := State(map["p" := row], map[], map[], {});
    var price := Changes(Some(200), None);
    var run := [Write(0, "p", price)];
    assert run[..0] == [];
    var marked := Row(200, "", Some(1), Some(true));
    assert Exec(s, run) == State(map["p" := marked], map[0 := Writer("p", 1, 200, false)], map["p" := 0], {});
    ExecOne(s, run, Delete("p"));
    assert Exec(s, run + [Delete("p")]) == State(map[], map[0 := Writer("p", 1, 200, false)], map[], {"p"});
    ExecOne(s, run + [Delete("p")], Create("p", 100, ""));
    var mid := State(map["p" := row], map[0 := Writer("p", 1, 200, false)], map[], {"p"});
    assert Exec(s, run + [Delete("p")] + [Create("p", 100, "")]) == mid;
    ExecOne(s, run + [Delete("p")] + [Create("p", 100, "")], Write(1, "p", price));
    SecondWriteIsInDanger(mid, price);
    MarkerCanBeErasedIff(s, run + [Delete("p")] + [Create("p", 100, "")] + [Write(1, "p", price)], "p");
  }
}
