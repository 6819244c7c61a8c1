/** Any number of tasks reconciling one promotion table at once, each acting on rows it read earlier. */
module PromotionRace {
  import opened Common
  import opened Promotions

  /** One transition that some task is attempting. */
  datatype Phase = Holding | Won(target: Lifecycle, version: int) | Over

  datatype Attempt = Attempt(task: nat, c: Candidate, now: int, phase: Phase)

  datatype Win = Win(id: Id, version: int, task: nat)

  /** `base` remembers the version each row had when it was first seen. */
  datatype State = State(table: Table, time: int, attempts: map<nat, Attempt>, wins: seq<Win>, base: map<Id, int>)

  datatype Action =
    | Tick(time: int)
    | Create(k: nat, task: nat, id: Id, row: Record, now: int)
    | Look(k: nat, task: nat, id: Id, now: int)      // a pass that started at `now` reads a candidate
    | Swap(k: nat)                                   // the conditional transition
    | Cleanup(k: nat)                                // clearing the marker; a failure ends the pass

  predicate CanLook(s: State, id: Id, now: int) {
    id in s.table && now <= s.time && s.table[id].Indexed(now) && s.table[id].Target(now) != None
  }

  predicate CanCreate(s: State, id: Id, row: Record, now: int) {
    id !in s.table && now <= s.time && row.startsAt.Instant() < row.endsAt
  }

  function Created(row: Record, now: int): Record {
    row.(state := Some(row.Due(now)), version := Some(0), pending := true)
  }

  function Swapped(s: State, k: nat): State
    requires k in s.attempts
  {
    var a := s.attempts[k];
    var target := a.c.snap.Target(a.now);
    if target == None || !CanMove(s.table, a.c) then s.(attempts := s.attempts[k := a.(phase := Over)])
    else s.(table := Move(s.table, a.c, target.value),
            attempts := s.attempts[k := a.(phase := Won(target.value, a.c.snap.Version() + 1))],
            wins := s.wins + [Win(a.c.id, a.c.snap.Version() + 1, a.task)])
  }

  /** One step of one task; a step that is not enabled changes nothing. */
  function Apply(s: State, a: Action): State {
    match a
    case Tick(t) => if t < s.time then s else s.(time := t)
    case Create(k, task, id, row, now) =>
      if k in s.attempts || !CanCreate(s, id, row, now) then s
      else
        var r := Created(row, now);
        s.(table := s.table[id := r], base := s.base[id := 0],
           attempts := s.attempts[k := Attempt(task, Candidate(id, r), now, Won(row.Due(now), 0))])
    case Look(k, task, id, now) =>
      if k in s.attempts || !CanLook(s, id, now) then s
      else s.(attempts := s.attempts[k := Attempt(task, Candidate(id, s.table[id]), now, Holding)])
    case Swap(k) =>
      if k !in s.attempts || s.attempts[k].phase != Holding then s else Swapped(s, k)
    case Cleanup(k) =>
      if k !in s.attempts || !s.attempts[k].phase.Won? then s
      else
        var a := s.attempts[k];
        s.(table := if CanClear(s.table, a.c.id, a.phase.target, a.phase.version) then Clear(s.table, a.c.id)
                    else s.table,
           attempts := s.attempts[k := a.(phase := Over)])
  }

  function Exec(s: State, run: seq<Action>): State {
    if run == [] then s else Apply(Exec(s, run[..|run| - 1]), run[|run| - 1])
  }

  predicate Init(s: State) {
    && s.attempts == map[] && s.wins == [] && s.base.Keys == s.table.Keys
    && (forall id :: id in s.table ==> s.base[id] == s.table[id].Version())
    && (forall id :: id in s.table ==> NotAhead(s.table[id], s.time))
  }

  // ---- what every step keeps ------------------------------------------------

  /** What a task holds is an earlier version of the row, and the same version means the same state. */
  predicate Remembers(c: Candidate, t: Table) {
    && c.id in t && t[c.id].enabled == c.snap.enabled
    && t[c.id].startsAt == c.snap.startsAt && t[c.id].endsAt == c.snap.endsAt
    && c.snap.Version() <= t[c.id].Version()
    && (c.snap.Version() == t[c.id].Version() ==> c.snap.state == t[c.id].state && c.snap.version == t[c.id].version)
  }

  ghost predicate AttemptsInv(s: State) {
    forall k :: k in s.attempts ==> s.attempts[k].now <= s.time && Remembers(s.attempts[k].c, s.table)
  }

  ghost predicate TableInv(s: State) {
    && s.base.Keys == s.table.Keys
    && forall id :: id in s.table ==> NotAhead(s.table[id], s.time) && s.base[id] <= s.table[id].Version()
  }

  ghost predicate Bumped(wins: seq<Win>, id: Id, v: int) {
    exists i :: 0 <= i < |wins| && wins[i].id == id && wins[i].version == v
  }

  /** For each row, the wins are its versions since `base`, each once and in order. */
  ghost predicate WinsInv(s: State) {
    && (forall i :: 0 <= i < |s.wins| ==>
          s.wins[i].id in s.table && s.wins[i].id in s.base &&
          s.base[s.wins[i].id] < s.wins[i].version <= s.table[s.wins[i].id].Version())
    && (forall i, j :: 0 <= i < j < |s.wins| && s.wins[i].id == s.wins[j].id ==> s.wins[i].version < s.wins[j].version)
    && (forall id, v :: id in s.table && id in s.base && s.base[id] < v <= s.table[id].Version() ==>
          Bumped(s.wins, id, v))
  }

  ghost predicate Inv(s: State) {
    AttemptsInv(s) && TableInv(s) && WinsInv(s)
  }

  /** While the version stands the stored state stands too, so only the version decides a race. */
  lemma VersionDecides(s: State, k: nat)
    requires AttemptsInv(s) && k in s.attempts && s.attempts[k].c.snap.enabled
    ensures var c := s.attempts[k].c;
            CanMove(s.table, c) <==>
            c.snap.state != None && c.snap.version != None && s.table[c.id].Version() == c.snap.Version()
  {
    assert Remembers(s.attempts[k].c, s.table);
  }

  lemma SwapKeepsWins(s: State, k: nat)
    requires Inv(s) && k in s.attempts && s.attempts[k].c.snap.Target(s.attempts[k].now) != None
    requires CanMove(s.table, s.attempts[k].c)
    ensures WinsInv(Swapped(s, k))
  {
    var s', id := Swapped(s, k), s.attempts[k].c.id;
    var v := s.table[id].Version() + 1;
    assert Remembers(s.attempts[k].c, s.table);
    assert s'.wins[..|s.wins|] == s.wins && s'.wins[|s.wins|] == Win(id, v, s.attempts[k].task);
    forall jd, w | jd in s'.table && jd in s'.base && s'.base[jd] < w <= s'.table[jd].Version()
      ensures Bumped(s'.wins, jd, w)
    {
      if jd == id && w == v {
        assert s'.wins[|s.wins|].version == v;
      } else {
        assert Bumped(s.wins, jd, w);
        var i :| 0 <= i < |s.wins| && s.wins[i].id == jd && s.wins[i].version == w;
        assert s'.wins[i] == s.wins[i];
      }
    }
  }

  lemma SwapKeeps(s: State, k: nat)
    requires Inv(s) && k in s.attempts && s.attempts[k].phase == Holding
    ensures Inv(Swapped(s, k))
  {
    var a, s' := s.attempts[k], Swapped(s, k);
    assert Remembers(a.c, s.table);
    if s'.table != s.table {
      var id := a.c.id;
      assert s'.table[id].Version() == s.table[id].Version() + 1;
      forall j | j in s'.attempts ensures s'.attempts[j].now <= s'.time && Remembers(s'.attempts[j].c, s'.table) {
        assert Remembers(s.attempts[j].c, s.table);
        assert s'.attempts[j].c == s.attempts[j].c;
      }
      assert NotAhead(s.table[id], s.time);
      SwapKeepsWins(s, k);
    }
  }

  lemma TickKeeps(s: State, t: int)
    requires Inv(s)
    ensures Inv(Apply(s, Tick(t)))
  {
  }

  lemma CreateKeepsAttempts(s: State, s': State, k: nat, id: Id)
    requires AttemptsInv(s) && id !in s.table && k !in s.attempts && s'.time == s.time
    requires id in s'.table && s'.table == s.table[id := s'.table[id]]
    requires k in s'.attempts && s'.attempts == s.attempts[k := s'.attempts[k]]
    requires s'.attempts[k].now <= s'.time && s'.attempts[k].c == Candidate(id, s'.table[id])
    ensures AttemptsInv(s')
  {
    forall j | j in s.attempts ensures Remembers(s'.attempts[j].c, s'.table) {
      assert Remembers(s.attempts[j].c, s.table);
    }
  }

  lemma CreateKeeps(s: State, k: nat, task: nat, id: Id, row: Record, now: int)
    requires Inv(s)
    ensures Inv(Apply(s, Create(k, task, id, row, now)))
  {
    var s' := Apply(s, Create(k, task, id, row, now));
    if k !in s.attempts && CanCreate(s, id, row, now) {
      CreateKeepsAttempts(s, s', k, id);
      assert TableInv(s');
      assert s'.wins == s.wins;
    }
  }

  predicate Alike(r: Record, q: Record) {
    r.(pending := q.pending) == q
  }

  lemma AlikeAttempts(s: State, s': State)
    requires AttemptsInv(s) && s'.time == s.time && s'.table.Keys == s.table.Keys
    requires forall id :: id in s.table ==> Alike(s'.table[id], s.table[id])
    requires forall j :: j in s'.attempts ==>
               j in s.attempts && s'.attempts[j].c == s.attempts[j].c && s'.attempts[j].now == s.attempts[j].now
    ensures AttemptsInv(s')
  {
    forall j | j in s'.attempts ensures Remembers(s'.attempts[j].c, s'.table) {
      var c := s.attempts[j].c;
      assert Remembers(c, s.table);
      assert Alike(s'.table[c.id], s.table[c.id]);
    }
  }

  lemma MarkersDoNotMatter(s: State, s': State)
    requires Inv(s)
    requires s'.table.Keys == s.table.Keys && s'.time == s.time && s'.wins == s.wins && s'.base == s.base
    requires forall id :: id in s.table ==> Alike(s'.table[id], s.table[id])
    requires forall j :: j in s'.attempts ==>
               j in s.attempts && s'.attempts[j].c == s.attempts[j].c && s'.attempts[j].now == s.attempts[j].now
    ensures Inv(s')
  {
    forall id | id in s.table ensures id in s'.table && s'.table[id].Version() == s.table[id].Version() {
      assert Alike(s'.table[id], s.table[id]);
    }
    AlikeAttempts(s, s');
    assert TableInv(s');
  }

  lemma CleanupOnlyMarks(s: State, k: nat)
    ensures var s' := Apply(s, Cleanup(k));
            && s'.table.Keys == s.table.Keys && s'.time == s.time && s'.wins == s.wins && s'.base == s.base
            && (forall id :: id in s.table ==> Alike(s'.table[id], s.table[id]))
            && (forall j :: j in s'.attempts ==>
                  j in s.attempts && s'.attempts[j].c == s.attempts[j].c && s'.attempts[j].now == s.attempts[j].now)
  {
  }

  /** Clearing a marker touches nothing that the invariant speaks of. */
  lemma CleanupKeeps(s: State, k: nat)
    requires Inv(s)
    ensures Inv(Apply(s, Cleanup(k)))
  {
    CleanupOnlyMarks(s, k);
    MarkersDoNotMatter(s, Apply(s, Cleanup(k)));
  }

  lemma StepKeeps(s: State, a: Action)
    requires Inv(s)
    ensures Inv(Apply(s, a))
  {
    match a {
      case Swap(k) => if k in s.attempts && s.attempts[k].phase == Holding { SwapKeeps(s, k); }
      case Tick(t) => TickKeeps(s, t);
      case Create(k, task, id, row, now) => CreateKeeps(s, k, task, id, row, now);
      case Look(k, task, id, now) =>
      case Cleanup(k) => CleanupKeeps(s, k);
    }
  }

  lemma {:induction false} RunKeepsInv(s: State, run: seq<Action>)
    requires Init(s)
    ensures Inv(Exec(s, run))
  {
    if run == [] {
    } else {
      RunKeepsInv(s, run[..|run| - 1]);
      StepKeeps(Exec(s, run[..|run| - 1]), run[|run| - 1]);
    }
  }

  // ---- the results ----------------------------------------------------------

  ghost predicate WinsAt(wins: seq<Win>, i: nat, id: Id, v: int) {
    i < |wins| && wins[i].id == id && wins[i].version == v
  }

  ghost predicate WonOnce(wins: seq<Win>, id: Id, v: int) {
    exists i :: WinsAt(wins, i, id, v) && forall j :: WinsAt(wins, j, id, v) ==> j == i
  }

  lemma BumpIsWon(t: State, id: Id, v: int) returns (i: nat)
    requires WinsInv(t) && id in t.table && id in t.base && t.base[id] < v <= t.table[id].Version()
    ensures WinsAt(t.wins, i, id, v)
  {
    assert Bumped(t.wins, id, v);
    i :| 0 <= i < |t.wins| && t.wins[i].id == id && t.wins[i].version == v;
  }

  lemma WinsAreDistinct(t: State, i: nat, j: nat, id: Id, v: int)
    requires WinsInv(t) && WinsAt(t.wins, i, id, v) && WinsAt(t.wins, j, id, v)
    ensures i == j
  {
  }

  /** Whatever the interleaving, every version a row has gone through was produced by exactly one win. */
  lemma EachBumpIsWonOnce(s: State, run: seq<Action>, id: Id, v: int)
    requires Init(s)
    ensures var t := Exec(s, run);
            id in t.table && id in t.base && t.base[id] < v <= t.table[id].Version() ==> WonOnce(t.wins, id, v)
  {
    var t := Exec(s, run);
    RunKeepsInv(s, run);
    if id in t.table && id in t.base && t.base[id] < v <= t.table[id].Version() {
      var i := BumpIsWon(t, id, v);
      forall j | WinsAt(t.wins, j, id, v) ensures j == i { WinsAreDistinct(t, i, j, id, v); }
    }
  }

  /** No stored state is ever past what the clock calls for, although each pass decided by an older time and row. */
  lemma NeverAhead(s: State, run: seq<Action>, id: Id)
    requires Init(s)
    ensures var t := Exec(s, run); id in t.table ==> NotAhead(t.table[id], t.time)
  {
    RunKeepsInv(s, run);
  }

  /** Two tasks holding the same version of a row: whichever swaps first, the other loses. */
  lemma OnlyOneOfTwoWins(s: State, j: nat, k: nat)
    requires j != k && j in s.attempts && k in s.attempts
    requires s.attempts[j].phase == Holding && s.attempts[k].phase == Holding
    requires s.attempts[j].c.id == s.attempts[k].c.id
    requires s.attempts[j].c.snap.Version() == s.attempts[k].c.snap.Version()
    requires Wins(s.table, s.attempts[j].c, s.attempts[j].now)
    ensures var t := Apply(s, Swap(j));
            |t.wins| == |s.wins| + 1 && Apply(t, Swap(k)).wins == t.wins && Apply(t, Swap(k)).table == t.table
  {
  }

  // ---- the marker -----------------------------------------------------------

  /** A transition whose cleanup is still due: the row is at its version or past it, and shows its state and marker. */
  ghost predicate Unswept(s: State, k: nat) {
    k in s.attempts && s.attempts[k].phase.Won? ==>
      var (id, phase) := (s.attempts[k].c.id, s.attempts[k].phase);
      && id in s.table && s.table[id].version != None && phase.version <= s.table[id].version.value
      && (s.table[id].version == Some(phase.version) ==>
            s.table[id].state == Some(phase.target) && s.table[id].pending)
  }

  /** No two such transitions of one row have the same version. */
  ghost predicate Apart(s: State, j: nat, k: nat) {
    j != k && j in s.attempts && k in s.attempts && s.attempts[j].phase.Won? && s.attempts[k].phase.Won?
    && s.attempts[j].c.id == s.attempts[k].c.id ==>
      s.attempts[j].phase.version != s.attempts[k].phase.version
  }

  ghost predicate Markers(s: State) {
    (forall k :: Unswept(s, k)) && forall j, k :: Apart(s, j, k)
  }

  lemma StepKeepsMarker(s: State, a: Action, k: nat)
    requires Markers(s)
    ensures Unswept(Apply(s, a), k)
  {
    assert Unswept(s, k);
    match a
    case Swap(j) =>
    case Cleanup(j) => assert Unswept(s, j) && Apart(s, j, k);
    case _ =>
  }

  lemma StepKeepsApart(s: State, a: Action, j: nat, k: nat)
    requires Unswept(s, j) && Unswept(s, k) && Apart(s, j, k)
    ensures Apart(Apply(s, a), j, k)
  {
  }

  /** Every transition, and every creation, keeps its marker up until its own cleanup or the next transition. */
  lemma {:induction false} MarkerStandsUntilItsOwnCleanup(s: State, run: seq<Action>)
    requires Init(s)
    ensures Markers(Exec(s, run))
  {
    if run == [] {
    } else {
      var t, a := Exec(s, run[..|run| - 1]), run[|run| - 1];
      MarkerStandsUntilItsOwnCleanup(s, run[..|run| - 1]);
      forall k ensures Unswept(Apply(t, a), k) { StepKeepsMarker(t, a, k); }
      forall j, k ensures Apart(Apply(t, a), j, k) { StepKeepsApart(t, a, j, k); }
    }
  }

  // ---- the pass as steps ----------------------------------------------------

  function PassSteps(first: nat, n: nat): seq<Action> {
    if n == 0 then [] else PassSteps(first, n - 1) + [Swap(first + n - 1), Cleanup(first + n - 1)]
  }

  predicate HeldAs(s: State, k: nat, c: Candidate, now: int) {
    k in s.attempts && s.attempts[k].c == c && s.attempts[k].now == now && s.attempts[k].phase == Holding
  }

  ghost predicate Holds(s: State, cs: seq<Candidate>, first: nat, now: int) {
    forall i :: 0 <= i < |cs| ==> HeldAs(s, first + i, cs[i], now)
  }

  lemma CandidateSteps(t: State, k: nat)
    requires k in t.attempts && t.attempts[k].phase == Holding
    ensures var c, now, u := t.attempts[k].c, t.attempts[k].now, Apply(Apply(t, Swap(k)), Cleanup(k));
            && u.table
               == (if Wins(t.table, c, now) then Clear(Move(t.table, c, c.snap.Target(now).value), c.id) else t.table)
            && u.attempts == t.attempts[k := u.attempts[k]]
  {
  }

  lemma ExecTwo(s: State, run: seq<Action>, a: Action, b: Action)
    ensures Exec(s, run + [a, b]) == Apply(Apply(Exec(s, run), a), b)
  {
    var more := run + [a, b];
    assert more[..|more| - 1] == run + [a] && (run + [a])[..|run|] == run;
  }

  /** `t` is where a pass has got to: its table, and every later attempt as it was. */
  ghost predicate GotTo(s: State, t: State, cs: seq<Candidate>, first: nat, now: int) {
    && t.table == PassTable(s.table, cs, now)
    && t.attempts.Keys == s.attempts.Keys
    && forall j :: j in s.attempts && j >= first + |cs| ==> t.attempts[j] == s.attempts[j]
  }

  lemma GoesOn(s: State, t: State, cs: seq<Candidate>, first: nat, now: int)
    requires cs != [] && HeldAs(s, first + |cs| - 1, cs[|cs| - 1], now) && GotTo(s, t, cs[..|cs| - 1], first, now)
    ensures GotTo(s, Apply(Apply(t, Swap(first + |cs| - 1)), Cleanup(first + |cs| - 1)), cs, first, now)
  {
    var k := first + |cs| - 1;
    assert t.attempts[k] == s.attempts[k];
    CandidateSteps(t, k);
  }

  lemma RunGoesOn(s: State, run: seq<Action>, cs: seq<Candidate>, first: nat, now: int)
    requires cs != [] && HeldAs(s, first + |cs| - 1, cs[|cs| - 1], now)
    requires GotTo(s, Exec(s, run), cs[..|cs| - 1], first, now)
    ensures GotTo(s, Exec(s, run + [Swap(first + |cs| - 1), Cleanup(first + |cs| - 1)]), cs, first, now)
  {
    GoesOn(s, Exec(s, run), cs, first, now);
    ExecTwo(s, run, Swap(first + |cs| - 1), Cleanup(first + |cs| - 1));
  }

  /** A pass that nobody disturbs is a run of this protocol: swap and clean up, candidate by candidate. */
  lemma {:induction false} PassIsARun(s: State, cs: seq<Candidate>, first: nat, now: int)
    requires Holds(s, cs, first, now)
    ensures GotTo(s, Exec(s, PassSteps(first, |cs|)), cs, first, now)
  {
    if cs == [] {
    } else {
      var n := |cs| - 1;
      var front := cs[..n];
      assert forall i :: 0 <= i < n ==> front[i] == cs[i];
      PassIsARun(s, front, first, now);
      RunGoesOn(s, PassSteps(first, n), cs, first, now);
    }
  }
}
