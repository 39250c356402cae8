/** The lock / count / evaluate / insert / commit protocol of backend/app/scheduler/dispatch.py, for
    any number of workers, buyers and campaigns interleaving their steps. */
module Dispatch {
  import opened Policy

  /** A call or message row. `counts` is `counts_against_cap`; `void` is status BLOCKED or CANCELLED.
      `spent` says the row has counted ever since it was inserted: it never was blocked, cancelled or
      refunded as a carrier fault. The caps are those of the campaign that inserted it. */
  datatype Row = Row(buyer: nat, createdAt: int, counts: bool, void: bool, spent: bool,
                     dayCap: int, weekCap: int, owner: nat, committed: bool)

  datatype Stage = Idle | Decided(buyer: nat, now: int, dayCap: int, weekCap: int)

  /** One worker's transaction: the advisory locks it holds, and where it is. */
  datatype Worker = Worker(held: set<int>, stage: Stage)

  /** `hash` is `hashtext`: two buyers may share a lock. */
  datatype World = World(hash: nat -> int, rows: seq<Row>, workers: map<nat, Worker>)
  {
    function At(w: nat): Worker { if w in workers then workers[w] else Worker({}, Idle) }
  }

  const WEEK := 7 * DAY

  /** `_attempts`: what worker `w` sees, its own rows and committed ones. */
  function Attempts(rows: seq<Row>, w: nat, buyer: nat, since: int): nat {
    if rows == [] then 0
    else
      var r := rows[|rows| - 1];
      Attempts(rows[..|rows| - 1], w, buyer, since) +
      (if r.buyer == buyer && r.createdAt >= since && r.counts && !r.void && (r.committed || r.owner == w)
       then 1 else 0)
  }

  /** The rows that count against `buyer` since a moment, as worker `w` sees them. */
  ghost function Charged(rows: seq<Row>, w: nat, buyer: nat, since: int): set<int> {
    set i | 0 <= i < |rows| && rows[i].buyer == buyer && since <= rows[i].createdAt
            && rows[i].counts && !rows[i].void && (rows[i].committed || rows[i].owner == w)
  }

  /** What is counted is these rows, each once. */
  lemma {:induction false} AttemptsAreCharged(rows: seq<Row>, w: nat, buyer: nat, since: int)
    ensures Attempts(rows, w, buyer, since) == |Charged(rows, w, buyer, since)|
  {
    if rows != [] {
      var last := |rows| - 1;
      AttemptsAreCharged(rows[..last], w, buyer, since);
      var front := Charged(rows[..last], w, buyer, since);
      if last in Charged(rows, w, buyer, since) {
        assert Charged(rows, w, buyer, since) == front + {last};
      } else {
        assert Charged(rows, w, buyer, since) == front;
      }
    }
  }

  datatype Step =
    | Lock(w: nat, buyer: nat)
    | Count(w: nat, buyer: nat, context: Context)
    | Insert(w: nat)
    | Block(w: nat, buyer: nat, now: int)
    | Withdraw(w: nat, i: nat)
    | Commit(w: nat)
    | Rollback(w: nat)
    | Outcome(i: nat, counts: bool, void: bool)

  /** When a step can happen. `pg_advisory_xact_lock` waits for other holders; the context handed to
      the engine was built from counts taken in this transaction. */
  ghost predicate Enabled(s: World, step: Step) {
    match step
    case Lock(w, buyer) => forall v :: v in s.workers && v != w ==> s.hash(buyer) !in s.workers[v].held
    case Count(w, buyer, c) =>
      s.hash(buyer) in s.At(w).held
      && c.attemptsToday == Attempts(s.rows, w, buyer, c.now - DAY)
      && c.attemptsThisWeek == Attempts(s.rows, w, buyer, c.now - WEEK)
    case Insert(w) => s.At(w).stage.Decided?
    case Block(_, _, _) => true
    case Withdraw(w, i) => i < |s.rows| && s.rows[i].owner == w && !s.rows[i].committed
    case Commit(_) => true
    case Rollback(_) => true
    case Outcome(i, _, _) => i < |s.rows| && s.rows[i].committed
  }

  function Committed(rows: seq<Row>, w: nat): seq<Row> {
    seq(|rows|, i requires 0 <= i < |rows| => if rows[i].owner == w then rows[i].(committed := true) else rows[i])
  }

  function Without(rows: seq<Row>, w: nat): seq<Row> {
    if rows == [] then []
    else
      var r := rows[|rows| - 1];
      Without(rows[..|rows| - 1], w) + (if r.owner == w && !r.committed then [] else [r])
  }

  function Noted(r: Row, counts: bool, void: bool): Row {
    r.(counts := counts, void := void, spent := r.spent && counts && !void)
  }

  ghost function Next(s: World, step: Step): World
    requires Enabled(s, step)
  {
    match step
    case Lock(w, buyer) => s.(workers := s.workers[w := Worker(s.At(w).held + {s.hash(buyer)}, Idle)])
    case Count(w, buyer, c) =>
      s.(workers := s.workers[w := s.At(w).(stage :=
           if Evaluate(c).Allowed? then Decided(buyer, c.now, c.maxPerDay, c.maxPerWeek) else Idle)])
    case Insert(w) =>
      var d := s.At(w).stage;
      s.(rows := s.rows + [Row(d.buyer, d.now, true, false, true, d.dayCap, d.weekCap, w, false)],
         workers := s.workers[w := s.At(w).(stage := Idle)])
    case Block(w, buyer, now) => s.(rows := s.rows + [Row(buyer, now, false, true, false, 0, 0, w, false)])
    case Withdraw(w, i) => s.(rows := s.rows[i := Noted(s.rows[i], false, true)])
    case Commit(w) => s.(rows := Committed(s.rows, w), workers := s.workers[w := Worker({}, Idle)])
    case Rollback(w) => s.(rows := Without(s.rows, w), workers := s.workers[w := Worker({}, Idle)])
    case Outcome(i, counts, void) => s.(rows := s.rows[i := Noted(s.rows[i], counts, void)])
  }

  // ---------------------------------------------------------------------- the invariant

  /** Attempts of one buyer since a moment that have counted throughout, whoever can see them. */
  function Spent(rows: seq<Row>, buyer: nat, since: int): nat {
    if rows == [] then 0
    else
      var r := rows[|rows| - 1];
      Spent(rows[..|rows| - 1], buyer, since) + (if r.buyer == buyer && r.createdAt >= since && r.spent then 1 else 0)
  }

  /** Every spent row found, when it was inserted, room under its own campaign's caps. */
  ghost predicate CapsRespected(rows: seq<Row>) {
    rows == [] ||
    var r, front := rows[|rows| - 1], rows[..|rows| - 1];
    && CapsRespected(front)
    && (r.spent ==>
          Spent(front, r.buyer, r.createdAt - DAY) < r.dayCap && Spent(front, r.buyer, r.createdAt - WEEK) < r.weekCap)
  }

  ghost predicate Inv(s: World) {
    && (forall v, w :: v in s.workers && w in s.workers && v != w ==> s.workers[v].held !! s.workers[w].held)
    && (forall r :: r in s.rows && r.spent ==> r.counts && !r.void)
    && (forall r :: r in s.rows && r.spent && !r.committed ==> s.hash(r.buyer) in s.At(r.owner).held)
    && (forall w :: w in s.workers && s.workers[w].stage.Decided? ==> Cleared(s, w))
    && CapsRespected(s.rows)
  }

  /** A worker about to insert still holds the lock, and there still is room. */
  ghost predicate Cleared(s: World, w: nat)
    requires w in s.workers && s.workers[w].stage.Decided?
  {
    var d := s.workers[w].stage;
    && s.hash(d.buyer) in s.workers[w].held
    && Spent(s.rows, d.buyer, d.now - DAY) < d.dayCap
    && Spent(s.rows, d.buyer, d.now - WEEK) < d.weekCap
  }

  /** Under the lock nothing counting is hidden, so the engine's count is not too low. */
  lemma {:induction false} CountSeesEverythingSpent(rows: seq<Row>, w: nat, buyer: nat, since: int)
    requires forall r :: r in rows && r.spent && r.buyer == buyer ==>
            r.counts && !r.void && (r.committed || r.owner == w)
    ensures Spent(rows, buyer, since) <= Attempts(rows, w, buyer, since)
  {
    if rows != [] {
      assert rows[|rows| - 1] in rows;
      CountSeesEverythingSpent(rows[..|rows| - 1], w, buyer, since);
    }
  }

  /** Same rows, some of them no longer spent. */
  ghost predicate Fades(rows: seq<Row>, rows': seq<Row>) {
    && |rows| == |rows'|
    && forall i :: 0 <= i < |rows| ==> rows'[i] == rows[i].(counts := rows'[i].counts, void := rows'[i].void,
                                                             spent := rows'[i].spent, committed := rows'[i].committed)
                                       && (rows'[i].spent ==> rows[i].spent)
  }

  lemma {:induction false} FadingKeepsCaps(rows: seq<Row>, rows': seq<Row>, buyer: nat, since: int)
    requires Fades(rows, rows')
    ensures Spent(rows', buyer, since) <= Spent(rows, buyer, since)
    ensures CapsRespected(rows) ==> CapsRespected(rows')
  {
    if rows != [] {
      var front, front' := rows[..|rows| - 1], rows'[..|rows| - 1];
      FadingKeepsCaps(front, front', buyer, since);
      var r := rows'[|rows| - 1];
      FadingKeepsCaps(front, front', r.buyer, r.createdAt - DAY);
      FadingKeepsCaps(front, front', r.buyer, r.createdAt - WEEK);
    }
  }

  lemma SpentAppend(rows: seq<Row>, r: Row, buyer: nat, since: int)
    ensures Spent(rows + [r], buyer, since) ==
            Spent(rows, buyer, since) + if r.buyer == buyer && r.createdAt >= since && r.spent then 1 else 0
    ensures CapsRespected(rows + [r]) <==>
            CapsRespected(rows) &&
            (r.spent ==>
               && Spent(rows, r.buyer, r.createdAt - DAY) < r.dayCap
               && Spent(rows, r.buyer, r.createdAt - WEEK) < r.weekCap)
  {
    assert (rows + [r])[..|rows|] == rows;
  }

  lemma WithoutLast(rows: seq<Row>, w: nat)
    requires rows != []
    ensures var front, r := Without(rows[..|rows| - 1], w), rows[|rows| - 1];
            Without(rows, w) == if r.owner == w && !r.committed then front else front + [r]
  {
  }

  lemma {:induction false} RemovalTakesNothing(rows: seq<Row>, w: nat, buyer: nat, since: int)
    ensures Spent(Without(rows, w), buyer, since) <= Spent(rows, buyer, since)
    ensures forall r :: r in Without(rows, w) ==> r in rows && (r.owner != w || r.committed)
  {
    if rows != [] {
      var front, r := rows[..|rows| - 1], rows[|rows| - 1];
      RemovalTakesNothing(front, w, buyer, since);
      assert rows == front + [r];
      WithoutLast(rows, w);
      SpentAppend(Without(front, w), r, buyer, since);
    }
  }

  lemma {:induction false} RemovalKeepsCaps(rows: seq<Row>, w: nat)
    requires CapsRespected(rows)
    ensures CapsRespected(Without(rows, w))
  {
    if rows != [] {
      var front, r := rows[..|rows| - 1], rows[|rows| - 1];
      RemovalKeepsCaps(front, w);
      RemovalTakesNothing(front, w, r.buyer, r.createdAt - DAY);
      RemovalTakesNothing(front, w, r.buyer, r.createdAt - WEEK);
      WithoutLast(rows, w);
      SpentAppend(Without(front, w), r, 0, 0);
    }
  }

  /** Changing which rows are spent, visible or void cannot take room away from anyone. */
  lemma FadedInv(s: World, rows': seq<Row>)
    requires Inv(s) && Fades(s.rows, rows')
    requires forall i :: 0 <= i < |rows'| && rows'[i].spent ==>
               rows'[i].counts && !rows'[i].void && (rows'[i].committed || !s.rows[i].committed)
    ensures Inv(s.(rows := rows'))
  {
    FadingKeepsCaps(s.rows, rows', 0, 0);
    forall r | r in rows' && r.spent
        ensures r.counts && !r.void && (!r.committed ==> s.hash(r.buyer) in s.At(r.owner).held) {
      var i :| 0 <= i < |rows'| && rows'[i] == r;
      FadedHeld(s, rows', i);
    }
    forall w | w in s.workers && s.workers[w].stage.Decided? ensures Cleared(s.(rows := rows'), w) {
      FadedCleared(s, rows', w);
    }
  }

  lemma FadedHeld(s: World, rows': seq<Row>, i: nat)
    requires Inv(s) && Fades(s.rows, rows') && i < |rows'|
    requires rows'[i].spent && (rows'[i].committed || !s.rows[i].committed)
    ensures !rows'[i].committed ==> s.hash(rows'[i].buyer) in s.At(rows'[i].owner).held
  {
    assert s.rows[i] in s.rows;
  }

  lemma FadedCleared(s: World, rows': seq<Row>, w: nat)
    requires Inv(s) && Fades(s.rows, rows') && w in s.workers && s.workers[w].stage.Decided?
    ensures Cleared(s.(rows := rows'), w)
  {
    assert Cleared(s, w);
    var d := s.workers[w].stage;
    FadingKeepsCaps(s.rows, rows', d.buyer, d.now - DAY);
    FadingKeepsCaps(s.rows, rows', d.buyer, d.now - WEEK);
  }

  lemma HolderIsUnique(s: World, v: nat, w: nat, key: int)
    requires Inv(s)
    ensures key in s.At(v).held && key in s.At(w).held ==> v == w
  {
  }

  /** What has been spent is at most what the holder of the lock counts. */
  lemma HolderCountsEnough(s: World, w: nat, buyer: nat, since: int)
    requires Inv(s) && s.hash(buyer) in s.At(w).held
    ensures Spent(s.rows, buyer, since) <= Attempts(s.rows, w, buyer, since)
  {
    forall r | r in s.rows && r.spent && r.buyer == buyer ensures r.committed || r.owner == w {
      assert r.committed || s.hash(buyer) in s.At(r.owner).held;
      HolderIsUnique(s, r.owner, w, s.hash(buyer));
    }
    CountSeesEverythingSpent(s.rows, w, buyer, since);
  }

  predicate Room(s: World, buyer: nat, now: int, dayCap: int, weekCap: int) {
    Spent(s.rows, buyer, now - DAY) < dayCap && Spent(s.rows, buyer, now - WEEK) < weekCap
  }

  function Staged(s: World, w: nat, stage: Stage): World {
    s.(workers := s.workers[w := s.At(w).(stage := stage)])
  }

  /** A worker may come to a decision that finds room under its lock, or give one up. */
  lemma StageKeeps(s: World, w: nat, stage: Stage)
    requires Inv(s)
    requires stage.Decided? ==>
               s.hash(stage.buyer) in s.At(w).held && Room(s, stage.buyer, stage.now, stage.dayCap, stage.weekCap)
    ensures Inv(Staged(s, w, stage))
  {
    var s' := Staged(s, w, stage);
    forall v | v in s'.workers && s'.workers[v].stage.Decided? ensures Cleared(s', v) {
      assert v != w ==> Cleared(s, v);
    }
  }

  lemma CountFindsRoom(s: World, w: nat, buyer: nat, c: Context)
    requires Inv(s) && Enabled(s, Count(w, buyer, c)) && c.attemptsToday < c.maxPerDay
    requires c.attemptsThisWeek < c.maxPerWeek
    ensures Room(s, buyer, c.now, c.maxPerDay, c.maxPerWeek)
  {
    HolderCountsEnough(s, w, buyer, c.now - DAY);
    HolderCountsEnough(s, w, buyer, c.now - WEEK);
  }

  lemma CountKeeps(s: World, w: nat, buyer: nat, c: Context)
    requires Inv(s) && Enabled(s, Count(w, buyer, c))
    ensures Inv(Next(s, Count(w, buyer, c)))
  {
    if Evaluate(c).Allowed? {
      var a := AllowedIsContact(c);
      CountFindsRoom(s, w, buyer, c);
      StageKeeps(s, w, Decided(buyer, c.now, c.maxPerDay, c.maxPerWeek));
    } else {
      StageKeeps(s, w, Idle);
    }
  }

  /** A row of another buyer, or one that does not count, takes no room from a decided worker. */
  lemma AppendLeavesCleared(s: World, s': World, r: Row, v: nat)
    requires v in s.workers && s.workers[v].stage.Decided? && Cleared(s, v)
    requires v in s'.workers && s'.workers[v] == s.workers[v] && s'.rows == s.rows + [r] && s'.hash == s.hash
    requires r.spent ==> r.buyer != s.workers[v].stage.buyer
    ensures Cleared(s', v)
  {
    var e := s.workers[v].stage;
    SpentAppend(s.rows, r, e.buyer, e.now - DAY);
    SpentAppend(s.rows, r, e.buyer, e.now - WEEK);
  }

  /** A new row under the lock of its buyer, within its caps, while nobody else has a decision on that buyer. */
  lemma AppendKeeps(s: World, r: Row)
    requires Inv(s)
    requires r.spent ==> r.counts && !r.void && s.hash(r.buyer) in s.At(r.owner).held
    requires r.spent ==> Room(s, r.buyer, r.createdAt, r.dayCap, r.weekCap)
    requires r.spent ==> forall v :: v in s.workers && s.workers[v].stage.Decided? ==>
            s.workers[v].stage.buyer != r.buyer
    ensures Inv(s.(rows := s.rows + [r]))
  {
    var s' := s.(rows := s.rows + [r]);
    SpentAppend(s.rows, r, 0, 0);
    forall v | v in s'.workers && s'.workers[v].stage.Decided? ensures Cleared(s', v) {
      assert Cleared(s, v);
      AppendLeavesCleared(s, s', r, v);
    }
  }

  lemma InsertKeeps(s: World, w: nat)
    requires Inv(s) && Enabled(s, Insert(w))
    ensures Inv(Next(s, Insert(w)))
  {
    var d, s1 := s.At(w).stage, Staged(s, w, Idle);
    assert Cleared(s, w);
    StageKeeps(s, w, Idle);
    forall v | v in s1.workers && s1.workers[v].stage.Decided? ensures s1.workers[v].stage.buyer != d.buyer {
      assert Cleared(s, v) && v != w;
      HolderIsUnique(s, v, w, s.hash(d.buyer));
    }
    AppendKeeps(s1, Row(d.buyer, d.now, true, false, true, d.dayCap, d.weekCap, w, false));
  }

  lemma BlockKeeps(s: World, w: nat, buyer: nat, now: int)
    requires Inv(s)
    ensures Inv(Next(s, Block(w, buyer, now)))
  {
    AppendKeeps(s, Row(buyer, now, false, true, false, 0, 0, w, false));
  }

  lemma LockKeeps(s: World, w: nat, buyer: nat)
    requires Inv(s) && Enabled(s, Lock(w, buyer))
    ensures Inv(Next(s, Lock(w, buyer)))
  {
    var s' := Next(s, Lock(w, buyer));
    forall v | v in s'.workers && s'.workers[v].stage.Decided? ensures Cleared(s', v) {
      assert Cleared(s, v);
    }
  }

  /** Ending a transaction gives up its locks only once none of its rows is hidden any more. */
  lemma EndKeeps(s: World, w: nat)
    requires Inv(s) && forall r :: r in s.rows && r.owner == w && r.spent ==> r.committed
    ensures Inv(s.(workers := s.workers[w := Worker({}, Idle)]))
  {
    var s' := s.(workers := s.workers[w := Worker({}, Idle)]);
    forall v | v in s'.workers && s'.workers[v].stage.Decided? ensures Cleared(s', v) {
      assert Cleared(s, v);
    }
  }

  lemma RemovalLeavesCleared(s: World, w: nat, v: nat)
    requires v in s.workers && s.workers[v].stage.Decided? && Cleared(s, v)
    ensures Cleared(s.(rows := Without(s.rows, w)), v)
  {
    var d := s.workers[v].stage;
    RemovalTakesNothing(s.rows, w, d.buyer, d.now - DAY);
    RemovalTakesNothing(s.rows, w, d.buyer, d.now - WEEK);
  }

  lemma RollbackKeeps(s: World, w: nat)
    requires Inv(s)
    ensures Inv(Next(s, Rollback(w)))
  {
    var s0 := s.(rows := Without(s.rows, w));
    RemovedInv(s, w);
    RemovalHidesNothing(s.rows, w);
    EndKeeps(s0, w);
  }

  lemma RemovalHidesNothing(rows: seq<Row>, w: nat)
    ensures forall r :: r in Without(rows, w) && r.owner == w ==> r.committed
  {
    RemovalTakesNothing(rows, w, 0, 0);
  }

  lemma RemovedInv(s: World, w: nat)
    requires Inv(s)
    ensures Inv(s.(rows := Without(s.rows, w)))
  {
    var s0 := s.(rows := Without(s.rows, w));
    RemovalTakesNothing(s.rows, w, 0, 0);
    RemovalKeepsCaps(s.rows, w);
    forall v | v in s.workers && s.workers[v].stage.Decided? ensures Cleared(s0, v) {
      assert Cleared(s, v);
      RemovalLeavesCleared(s, w, v);
    }
  }

  lemma StepKeeps(s: World, step: Step)
    requires Inv(s) && Enabled(s, step)
    ensures Inv(Next(s, step)) && Next(s, step).hash == s.hash
  {
    match step
    case Lock(w, buyer) => LockKeeps(s, w, buyer);
    case Count(w, buyer, c) => CountKeeps(s, w, buyer, c);
    case Insert(w) => InsertKeeps(s, w);
    case Block(w, buyer, now) => BlockKeeps(s, w, buyer, now);
    case Withdraw(_, i) =>
      assert forall r :: r in s.rows && r.spent ==> r.counts && !r.void;
      FadedInv(s, s.rows[i := Noted(s.rows[i], false, true)]);
    case Commit(w) =>
      FadedInv(s, Committed(s.rows, w));
      EndKeeps(s.(rows := Committed(s.rows, w)), w);
    case Rollback(w) => RollbackKeeps(s, w);
    case Outcome(i, counts, void) => FadedInv(s, s.rows[i := Noted(s.rows[i], counts, void)]);
  }

  ghost predicate IsRun(ss: seq<World>, steps: seq<Step>) {
    && |ss| == |steps| + 1
    && ss[0].rows == [] && ss[0].workers == map[]
    && forall k :: 0 <= k < |steps| ==> Enabled(ss[k], steps[k]) && ss[k + 1] == Next(ss[k], steps[k])
  }

  lemma {:induction false} RunKeeps(ss: seq<World>, steps: seq<Step>, k: nat)
    requires IsRun(ss, steps) && k < |ss|
    ensures Inv(ss[k])
  {
    if k > 0 {
      RunKeeps(ss, steps, k - 1);
      StepKeeps(ss[k - 1], steps[k - 1]);
    }
  }

  // --------------------------------------------------------------------- the windows

  /** Attempts of one buyer in a window of time that have counted throughout. */
  function InWindowOf(rows: seq<Row>, buyer: nat, from: int, length: int): nat {
    if rows == [] then 0
    else
      var r := rows[|rows| - 1];
      InWindowOf(rows[..|rows| - 1], buyer, from, length) + (if Inside(r, buyer, from, length) then 1 else 0)
  }

  predicate Inside(r: Row, buyer: nat, from: int, length: int) {
    r.buyer == buyer && from <= r.createdAt <= from + length && r.spent
  }

  lemma {:induction false} WindowWithinSpent(rows: seq<Row>, buyer: nat, from: int, length: int, since: int)
    requires since <= from
    ensures InWindowOf(rows, buyer, from, length) <= Spent(rows, buyer, since)
  {
    if rows != [] {
      WindowWithinSpent(rows[..|rows| - 1], buyer, from, length, since);
    }
  }

  lemma {:induction false} CapsHoldInWindow(rows: seq<Row>, buyer: nat, from: int, last: nat)
    requires CapsRespected(rows) && last < |rows|
    ensures Inside(rows[last], buyer, from, DAY)
            && (forall j :: last < j < |rows| ==> !Inside(rows[j], buyer, from, DAY)) ==>
              InWindowOf(rows, buyer, from, DAY) <= rows[last].dayCap
    ensures Inside(rows[last], buyer, from, WEEK)
            && (forall j :: last < j < |rows| ==> !Inside(rows[j], buyer, from, WEEK)) ==>
              InWindowOf(rows, buyer, from, WEEK) <= rows[last].weekCap
  {
    var front, r := rows[..|rows| - 1], rows[|rows| - 1];
    if last < |rows| - 1 {
      CapsHoldInWindow(front, buyer, from, last);
    } else {
      if Inside(r, buyer, from, DAY) {
        WindowWithinSpent(front, buyer, from, DAY, r.createdAt - DAY);
      }
      if Inside(r, buyer, from, WEEK) {
        WindowWithinSpent(front, buyer, from, WEEK, r.createdAt - WEEK);
      }
    }
  }

  /** However the workers interleave, every window of a day (and of a week), wherever it starts, holds
      at most as many of a buyer's attempts as the cap of the campaign that inserted the last of them. */
  lemma CapsHoldInEveryWindow(ss: seq<World>, steps: seq<Step>, k: nat, buyer: nat, from: int, last: nat)
    requires IsRun(ss, steps) && k < |ss| && last < |ss[k].rows|
    ensures var rows := ss[k].rows;
            && (Inside(rows[last], buyer, from, DAY)
                && (forall j :: last < j < |rows| ==> !Inside(rows[j], buyer, from, DAY)) ==>
                  InWindowOf(rows, buyer, from, DAY) <= rows[last].dayCap)
            && (Inside(rows[last], buyer, from, WEEK)
                && (forall j :: last < j < |rows| ==> !Inside(rows[j], buyer, from, WEEK)) ==>
                  InWindowOf(rows, buyer, from, WEEK) <= rows[last].weekCap)
  {
    RunKeeps(ss, steps, k);
    CapsHoldInWindow(ss[k].rows, buyer, from, last);
  }

  // ------------------------------------------------- attempts that stop counting, and count again

  predicate Counts(r: Row) { r.counts && !r.void }

  predicate Within(r: Row, buyer: nat, from: int, length: int) {
    r.buyer == buyer && from <= r.createdAt <= from + length
  }

  /** All the attempts of one buyer in a window that count now. */
  function CountingIn(rows: seq<Row>, buyer: nat, from: int, length: int): nat {
    if rows == [] then 0
    else
      var r := rows[|rows| - 1];
      CountingIn(rows[..|rows| - 1], buyer, from, length) +
          (if Within(r, buyer, from, length) && Counts(r) then 1 else 0)
  }

  /** Those among them that had stopped counting in between. */
  function RecountedIn(rows: seq<Row>, buyer: nat, from: int, length: int): nat {
    if rows == [] then 0
    else
      var r := rows[|rows| - 1];
      RecountedIn(rows[..|rows| - 1], buyer, from, length) +
      (if Within(r, buyer, from, length) && Counts(r) && !r.spent then 1 else 0)
  }

  lemma {:induction false} CountingSplits(rows: seq<Row>, buyer: nat, from: int, length: int)
    requires forall r :: r in rows && r.spent ==> Counts(r)
    ensures CountingIn(rows, buyer, from, length) == InWindowOf(rows, buyer, from, length) +
            RecountedIn(rows, buyer, from, length)
  {
    if rows != [] {
      assert rows[|rows| - 1] in rows;
      CountingSplits(rows[..|rows| - 1], buyer, from, length);
    }
  }

  /** So the caps bound everything that counts, but for the attempts that were refunded and counted again since. */
  lemma OnlyRecountsExceedCaps(ss: seq<World>, steps: seq<Step>, k: nat, buyer: nat, from: int, last: nat)
    requires IsRun(ss, steps) && k < |ss| && last < |ss[k].rows|
    ensures var rows := ss[k].rows;
            && (Inside(rows[last], buyer, from, DAY)
                && (forall j :: last < j < |rows| ==> !Inside(rows[j], buyer, from, DAY)) ==>
                  CountingIn(rows, buyer, from, DAY) <= rows[last].dayCap + RecountedIn(rows, buyer, from, DAY))
            && (Inside(rows[last], buyer, from, WEEK)
                && (forall j :: last < j < |rows| ==> !Inside(rows[j], buyer, from, WEEK)) ==>
                  CountingIn(rows, buyer, from, WEEK) <= rows[last].weekCap + RecountedIn(rows, buyer, from, WEEK))
  {
    CapsHoldInEveryWindow(ss, steps, k, buyer, from, last);
    RunKeeps(ss, steps, k);
    CountingSplits(ss[k].rows, buyer, from, DAY);
    CountingSplits(ss[k].rows, buyer, from, WEEK);
  }

  /** The cap of a campaign on a day, or on a week. */
  function CapOf(r: Row, length: int): int { if length == DAY then r.dayCap else r.weekCap }

  /**
   * In any run, an outcome that makes an attempt count takes a window past the cap of the campaign that inserted the
   * last of its attempts exactly when the attempt did not count before and the window was at that cap: nothing checks
   * the caps then.
   */
  lemma RecountExceedsExactly(ss: seq<World>, steps: seq<Step>, k: nat, i: nat, buyer: nat, from: int, length: int,
                              last: nat)
    requires IsRun(ss, steps) && k < |steps| && steps[k] == Outcome(i, true, false) && (length == DAY || length == WEEK)
    requires i < |ss[k].rows| && Within(ss[k].rows[i], buyer, from, length)
    requires last < |ss[k].rows| && Inside(ss[k].rows[last], buyer, from, length)
    requires CountingIn(ss[k].rows, buyer, from, length) <= CapOf(ss[k].rows[last], length)
    ensures CountingIn(ss[k + 1].rows, buyer, from, length) > CapOf(ss[k].rows[last], length) <==>
            !Counts(ss[k].rows[i]) && CountingIn(ss[k].rows, buyer, from, length) == CapOf(ss[k].rows[last], length)
  {
    assert ss[k + 1] == Next(ss[k], steps[k]);
    RecountAdds(ss[k].rows, i, buyer, from, length);
  }

  lemma {:induction false} RecountAdds(rows: seq<Row>, i: nat, buyer: nat, from: int, length: int)
    requires i < |rows| && Within(rows[i], buyer, from, length)
    ensures CountingIn(rows[i := Noted(rows[i], true, false)], buyer, from, length) ==
            CountingIn(rows, buyer, from, length) + if Counts(rows[i]) then 0 else 1
  {
    var rows' := rows[i := Noted(rows[i], true, false)];
    if i < |rows| - 1 {
      RecountAdds(rows[..|rows| - 1], i, buyer, from, length);
      assert rows'[..|rows| - 1] == rows[..|rows| - 1][i := Noted(rows[i], true, false)];
    } else {
      assert rows'[..|rows| - 1] == rows[..|rows| - 1];
    }
  }

  // ---------------------------------------------------- one worker's pass, as it is written

  /** The steps can be taken one after the other from `s`. */
  ghost predicate CanRun(s: World, steps: seq<Step>)
    decreases |steps|, 0
  {
    steps == [] ||
    (CanRun(s, steps[..|steps| - 1]) && Enabled(After(s, steps[..|steps| - 1]), steps[|steps| - 1]))
  }

  ghost function After(s: World, steps: seq<Step>): World
    requires CanRun(s, steps)
    decreases |steps|, 1
  {
    if steps == [] then s else Next(After(s, steps[..|steps| - 1]), steps[|steps| - 1])
  }

  lemma {:induction false} RunningKeeps(s: World, steps: seq<Step>)
    requires Inv(s) && CanRun(s, steps)
    ensures Inv(After(s, steps))
  {
    if steps != [] {
      RunningKeeps(s, steps[..|steps| - 1]);
      StepKeeps(After(s, steps[..|steps| - 1]), steps[|steps| - 1]);
    }
  }

  /** These steps lead from one world to another. */
  ghost predicate Goes(s: World, steps: seq<Step>, s': World) { CanRun(s, steps) && s' == After(s, steps) }

  lemma One(s: World, x: Step)
    requires Enabled(s, x)
    ensures Goes(s, [x], Next(s, x))
  {
    assert [x][..0] == [];
  }

  lemma Two(s: World, x: Step, y: Step)
    requires Enabled(s, x) && Enabled(Next(s, x), y)
    ensures Goes(s, [x, y], Next(Next(s, x), y))
  {
    One(s, x);
    assert [x, y][..1] == [x];
  }

  lemma Three(s: World, x: Step, y: Step, z: Step)
    requires Enabled(s, x) && Enabled(Next(s, x), y) && Enabled(Next(Next(s, x), y), z)
    ensures Goes(s, [x, y, z], Next(Next(Next(s, x), y), z))
  {
    Two(s, x, y);
    assert [x, y, z][..2] == [x, y];
  }

  lemma {:induction false} Onward(s: World, a: seq<Step>, m: World, b: seq<Step>, s': World)
    requires Goes(s, a, m) && Goes(m, b, s')
    ensures Goes(s, a + b, s')
    decreases |b|
  {
    if b == [] {
      assert a + b == a;
    } else {
      var front := b[..|b| - 1];
      Onward(s, a, m, front, After(m, front));
      assert (a + b)[..|a + b| - 1] == a + front;
    }
  }

  /** What may stop a contact the policy allows: a fact found wanting just before it (the account has changed, the
      number is not allow-listed, there is no caller id), audio that does not render, the rate limit, or audio that
      is not staged. */
  datatype Snag = Smooth | Turned | Unrendered | Throttled | Unstaged

  /** The protocol steps of one pass over a database of `n` rows, by the worker's own counts. */
  function PassSteps(w: nat, buyer: nat, c: Context, snag: Snag, n: nat): seq<Step> {
    [Lock(w, buyer), Count(w, buyer, c)] + TailSteps(w, buyer, c.now, snag, Evaluate(c).Refused?, n)
  }

  function TailSteps(w: nat, buyer: nat, now: int, snag: Snag, refused: bool, n: nat): seq<Step> {
    if refused || snag.Turned? then [Block(w, buyer, now)]
    else if snag.Unrendered? then [Commit(w), Block(w, buyer, now), Commit(w)]
    else if snag.Throttled? then []
    else if snag.Unstaged? then [Insert(w), Withdraw(w, n), Commit(w)]
    else [Insert(w), Commit(w)]
  }

  function BlockedRow(w: nat, buyer: nat, now: int): Row { Row(buyer, now, false, true, false, 0, 0, w, false) }

  function AttemptRow(w: nat, d: Stage): Row
    requires d.Decided?
  {
    Row(d.buyer, d.now, true, false, true, d.dayCap, d.weekCap, w, false)
  }

  /** The decision's own counts, taken from the rows the worker sees. */
  function Counted(rows: seq<Row>, w: nat, buyer: nat, c: Context): Context {
    WithCounts(c, Attempts(rows, w, buyer, c.now - DAY), Attempts(rows, w, buyer, c.now - WEEK))
  }

  function WithCounts(c: Context, today: nat, thisWeek: nat): Context {
    c.(attemptsToday := today, attemptsThisWeek := thisWeek)
  }

  class Database {
    const hash: nat -> int
    var rows: seq<Row>
    var workers: map<nat, Worker>

    constructor (hash: nat -> int)
      ensures this.hash == hash && rows == [] && workers == map[]
    {
      this.hash := hash;
      rows, workers := [], map[];
    }

    ghost function ToWorld(): World
      reads this
    {
      World(hash, rows, workers)
    }

    method LockBuyer(w: nat, buyer: nat)
      requires Enabled(ToWorld(), Lock(w, buyer))
      modifies this`workers
      ensures ToWorld() == Next(old(ToWorld()), Lock(w, buyer))
    {
      var held := if w in workers then workers[w].held else {};
      workers := workers[w := Worker(held + {hash(buyer)}, Idle)];
    }

    method CountAttempts(w: nat, buyer: nat, since: int) returns (n: nat)
      ensures n == Attempts(rows, w, buyer, since) == |Charged(rows, w, buyer, since)|
    {
      n := 0;
      for i := 0 to |rows|
        invariant n == Attempts(rows[..i], w, buyer, since)
      {
        var r := rows[i];
        assert rows[..i + 1][..i] == rows[..i];
        if r.buyer == buyer && r.createdAt >= since && r.counts && !r.void && (r.committed || r.owner == w) {
          n := n + 1;
        }
      }
      assert rows[..|rows|] == rows;
      AttemptsAreCharged(rows, w, buyer, since);
    }

    /** `policy.evaluate`; what it allows is carried to the insertion. */
    method Decide(w: nat, buyer: nat, c: Context) returns (d: Decision)
      requires w in workers && Enabled(ToWorld(), Count(w, buyer, c))
      modifies this`workers
      ensures d == Evaluate(c) && ToWorld() == Next(old(ToWorld()), Count(w, buyer, c))
    {
      d := Evaluate(c);
      var stage := if d.Allowed? then Decided(buyer, c.now, c.maxPerDay, c.maxPerWeek) else Idle;
      workers := workers[w := workers[w].(stage := stage)];
    }

    method InsertAttempt(w: nat)
      requires w in workers && workers[w].stage.Decided?
      modifies this
      ensures ToWorld() == Next(old(ToWorld()), Insert(w))
    {
      rows := rows + [AttemptRow(w, workers[w].stage)];
      workers := workers[w := workers[w].(stage := Idle)];
    }

    /** `record_block`: a refusal is a row too, one that never counts. */
    method RecordBlock(w: nat, buyer: nat, now: int)
      modifies this`rows
      ensures ToWorld() == Next(old(ToWorld()), Block(w, buyer, now))
    {
      rows := rows + [BlockedRow(w, buyer, now)];
    }

    method CommitAll(w: nat)
      modifies this
      ensures ToWorld() == Next(old(ToWorld()), Commit(w))
    {
      var published := [];
      for i := 0 to |rows|
        invariant published == Committed(rows, w)[..i]
        invariant rows == old(rows) && workers == old(workers)
      {
        published := published + [if rows[i].owner == w then rows[i].(committed := true) else rows[i]];
      }
      rows := published;
      workers := workers[w := Worker({}, Idle)];
    }

    /** Audio that does not render: what there is is committed, and the refusal after it. */
    method DropUnrendered(w: nat, buyer: nat, now: int)
      modifies this
      ensures Goes(old(ToWorld()), [Commit(w), Block(w, buyer, now), Commit(w)], ToWorld())
      ensures rows == Committed(Committed(old(rows), w) + [BlockedRow(w, buyer, now)], w)
      ensures workers == old(workers)[w := Worker({}, Idle)]
    {
      ghost var s := ToWorld();
      CommitAll(w);
      RecordBlock(w, buyer, now);
      CommitAll(w);
      Three(s, Commit(w), Block(w, buyer, now), Commit(w));
    }

    /** Audio that is not staged: the attempt is withdrawn in the transaction that inserted it. */
    method WithdrawUnstaged(w: nat)
      requires w in workers && workers[w].stage.Decided?
      modifies this
      ensures Goes(old(ToWorld()), [Insert(w), Withdraw(w, |old(rows)|), Commit(w)], ToWorld())
      ensures rows == Committed(old(rows) + [Noted(AttemptRow(w, old(workers[w].stage)), false, true)], w)
      ensures workers == old(workers)[w := Worker({}, Idle)]
    {
      ghost var s := ToWorld();
      InsertAttempt(w);
      assert rows[..|rows| - 1] == s.rows;
      rows := rows[|rows| - 1 := Noted(rows[|rows| - 1], false, true)];
      assert rows == s.rows + [Noted(AttemptRow(w, s.workers[w].stage), false, true)];
      CommitAll(w);
      Three(s, Insert(w), Withdraw(w, |s.rows|), Commit(w));
    }

    /** Committed before anything is dialled or handed to a provider. */
    method Place(w: nat)
      requires w in workers && workers[w].stage.Decided?
      modifies this
      ensures Goes(old(ToWorld()), [Insert(w), Commit(w)], ToWorld())
      ensures rows == Committed(old(rows) + [AttemptRow(w, old(workers[w].stage))], w)
      ensures workers == old(workers)[w := Worker({}, Idle)]
    {
      ghost var s := ToWorld();
      InsertAttempt(w);
      CommitAll(w);
      Two(s, Insert(w), Commit(w));
    }

    method LockAndCount(w: nat, buyer: nat, c: Context) returns (counted: Context)
      requires Enabled(ToWorld(), Lock(w, buyer))
      modifies this`workers
      ensures ToWorld() == Next(old(ToWorld()), Lock(w, buyer)) && counted == Counted(rows, w, buyer, c)
      ensures w in workers && hash(buyer) in workers[w].held && workers == old(workers)[w := workers[w]]
      ensures Enabled(ToWorld(), Count(w, buyer, counted))
    {
      LockBuyer(w, buyer);
      var today := CountAttempts(w, buyer, c.now - DAY);
      var thisWeek := CountAttempts(w, buyer, c.now - WEEK);
      counted := WithCounts(c, today, thisWeek);
    }

    /** The counts, the policy's decision on them, and the lock they were taken under. */
    method LockAndDecide(w: nat, buyer: nat, c: Context) returns (d: Decision)
      requires Enabled(ToWorld(), Lock(w, buyer))
      modifies this`workers
      ensures d == Evaluate(Counted(rows, w, buyer, c))
      ensures Goes(old(ToWorld()), [Lock(w, buyer), Count(w, buyer, Counted(rows, w, buyer, c))], ToWorld())
      ensures w in workers && hash(buyer) in workers[w].held && workers == old(workers)[w := workers[w]]
      ensures d.Allowed? ==> workers[w].stage == Decided(buyer, c.now, c.maxPerDay, c.maxPerWeek)
    {
      ghost var s := ToWorld();
      var counted := LockAndCount(w, buyer, c);
      d := Decide(w, buyer, counted);
      Two(s, Lock(w, buyer), Count(w, buyer, counted));
    }

    /** What comes after the decision. */
    method FollowUp(w: nat, buyer: nat, now: int, snag: Snag, refused: bool)
      requires w in workers && (!refused ==> workers[w].stage.Decided?)
      modifies this
      ensures Goes(old(ToWorld()), TailSteps(w, buyer, now, snag, refused, |old(rows)|), ToWorld())
      ensures refused || snag.Turned? ==> rows == old(rows) + [BlockedRow(w, buyer, now)]
      ensures !refused && !snag.Turned? ==>
                var attempt := AttemptRow(w, old(workers[w].stage));
                rows == if snag.Unrendered? then Committed(Committed(old(rows), w) + [BlockedRow(w, buyer, now)], w)
                        else if snag.Throttled? then old(rows)
                        else Committed(old(rows) + [if snag.Unstaged? then Noted(attempt, false, true) else attempt], w)
      ensures workers ==
              if refused || snag.Turned? || snag.Throttled? then old(workers) else old(workers)[w := Worker({}, Idle)]
    {
      if refused || snag.Turned? {
        One(ToWorld(), Block(w, buyer, now));
        RecordBlock(w, buyer, now);
      } else if snag.Unrendered? {
        DropUnrendered(w, buyer, now);
      } else if snag.Unstaged? {
        WithdrawUnstaged(w);
      } else if !snag.Throttled? {
        Place(w);
      }
    }

    /**
     * `dispatch_buyer` when it raises nothing, whatever comes of it. Every way through it is a run of the protocol's
     * steps, so by RunningKeeps the caps hold whatever else runs between passes; and only a contact that goes out
     * leaves a row that counts, committed, with every lock given up.
     */
    method DispatchBuyer(w: nat, buyer: nat, c: Context, snag: Snag) returns (d: Decision)
      requires Enabled(ToWorld(), Lock(w, buyer))
      modifies this
      ensures d == Evaluate(Counted(old(rows), w, buyer, c))
      ensures Goes(old(ToWorld()), PassSteps(w, buyer, Counted(old(rows), w, buyer, c), snag, |old(rows)|), ToWorld())
      ensures d.Refused? || snag.Turned? ==> rows == old(rows) + [BlockedRow(w, buyer, c.now)]
      ensures d.Allowed? && !snag.Turned? ==>
                var attempt := AttemptRow(w, Decided(buyer, c.now, c.maxPerDay, c.maxPerWeek));
                rows == if snag.Unrendered? then Committed(Committed(old(rows), w) + [BlockedRow(w, buyer, c.now)], w)
                        else if snag.Throttled? then old(rows)
                        else Committed(old(rows) + [if snag.Unstaged? then Noted(attempt, false, true) else attempt], w)
      ensures
        if d.Refused? || snag.Turned? || snag.Throttled? then w in workers && hash(buyer) in workers[w].held
        else workers == old(workers)[w := Worker({}, Idle)]
    {
      ghost var s := ToWorld();
      d := LockAndDecide(w, buyer, c);
      ghost var m := ToWorld();
      FollowUp(w, buyer, c.now, snag, d.Refused?);
      Onward(s, [Lock(w, buyer), Count(w, buyer, Counted(s.rows, w, buyer, c))],
             m, TailSteps(w, buyer, c.now, snag, d.Refused?, |s.rows|), ToWorld());
    }

    method RollBackAll(w: nat)
      modifies this
      ensures Goes(old(ToWorld()), [Rollback(w)], ToWorld())
      ensures rows == Without(old(rows), w) && workers == old(workers)[w := Worker({}, Idle)]
    {
      One(ToWorld(), Rollback(w));
      var kept := [];
      for i := 0 to |rows|
        invariant kept == Without(rows[..i], w) && rows == old(rows) && workers == old(workers)
      {
        assert rows[..i + 1][..i] == rows[..i];
        kept := kept + if rows[i].owner == w && !rows[i].committed then [] else [rows[i]];
      }
      assert rows[..|rows|] == rows;
      rows := kept;
      workers := workers[w := Worker({}, Idle)];
    }

    /** Something raised after the row of a contact, or of a refusal, and before its commit. */
    method LoseRow(w: nat, buyer: nat, now: int, refused: bool)
      requires w in workers && (!refused ==> workers[w].stage.Decided?)
      modifies this
      ensures Goes(old(ToWorld()), [RowStep(w, buyer, now, refused), Rollback(w)], ToWorld())
      ensures rows == Without(old(rows), w) && workers == old(workers)[w := Worker({}, Idle)]
    {
      ghost var s := ToWorld();
      if refused { RecordBlock(w, buyer, now); } else { InsertAttempt(w); }
      WithoutLast(rows, w);
      assert rows[..|rows| - 1] == s.rows;
      RollBackAll(w);
      Two(s, RowStep(w, buyer, now, refused), Rollback(w));
    }

    method FailPlacing(w: nat, buyer: nat, c: Context, snag: Snag) returns (d: Decision)
      requires Enabled(ToWorld(), Lock(w, buyer))
      modifies this
      ensures d == Evaluate(Counted(old(rows), w, buyer, c))
      ensures
        var steps := PassSteps(w, buyer, Counted(old(rows), w, buyer, c), snag, |old(rows)|);
        Goes(old(ToWorld()), steps + [Rollback(w)], ToWorld())
      ensures d.Allowed? && snag.Smooth? ==>
                var attempt := AttemptRow(w, Decided(buyer, c.now, c.maxPerDay, c.maxPerWeek));
                rows == Committed(old(rows) + [attempt], w) && workers == old(workers)[w := Worker({}, Idle)]
    {
      ghost var s := ToWorld();
      d := DispatchBuyer(w, buyer, c, snag);
      ghost var m := ToWorld();
      RollBackAll(w);
      Onward(s, PassSteps(w, buyer, Counted(s.rows, w, buyer, c), snag, |s.rows|), m, [Rollback(w)], ToWorld());
      NothingToRollBack(s.rows + [AttemptRow(w, Decided(buyer, c.now, c.maxPerDay, c.maxPerWeek))], w);
    }

    method FailEarly(w: nat, buyer: nat, c: Context, onRow: bool) returns (d: Decision)
      requires Enabled(ToWorld(), Lock(w, buyer))
      modifies this
      ensures d == Evaluate(Counted(old(rows), w, buyer, c))
      ensures
        var counted := Counted(old(rows), w, buyer, c);
        var lost := if onRow then [RowStep(w, buyer, c.now, d.Refused?), Rollback(w)] else [Rollback(w)];
        Goes(old(ToWorld()), [Lock(w, buyer), Count(w, buyer, counted)] + lost, ToWorld())
      ensures rows == Without(old(rows), w) && workers == old(workers)[w := Worker({}, Idle)]
    {
      ghost var s := ToWorld();
      d := LockAndDecide(w, buyer, c);
      ghost var m := ToWorld();
      ghost var head := [Lock(w, buyer), Count(w, buyer, Counted(s.rows, w, buyer, c))];
      if onRow {
        LoseRow(w, buyer, c.now, d.Refused?);
        Onward(s, head, m, [RowStep(w, buyer, c.now, d.Refused?), Rollback(w)], ToWorld());
      } else {
        RollBackAll(w);
        Onward(s, head, m, [Rollback(w)], ToWorld());
      }
    }

    /**
     * One buyer of a batch: `dispatch_buyer`, and whatever it raises caught and rolled back. That too is a run of the
     * protocol's steps. What is raised before the commit leaves the worker none of its uncommitted rows and no lock;
     * what is raised after it leaves the attempt committed and counting.
     */
    method DispatchSafely(w: nat, buyer: nat, c: Context, snag: Snag, raised: Raised) returns (d: Decision)
      requires Enabled(ToWorld(), Lock(w, buyer))
      modifies this
      ensures d == Evaluate(Counted(old(rows), w, buyer, c))
      ensures Goes(old(ToWorld()), SafeSteps(w, buyer, Counted(old(rows), w, buyer, c), snag, |old(rows)|, raised),
                   ToWorld())
      ensures raised.OnDeciding? || raised.OnRow? ==>
                rows == Without(old(rows), w) && workers == old(workers)[w := Worker({}, Idle)]
      ensures raised.OnPlacing? && d.Allowed? && snag.Smooth? ==>
                var attempt := AttemptRow(w, Decided(buyer, c.now, c.maxPerDay, c.maxPerWeek));
                rows == Committed(old(rows) + [attempt], w) && workers == old(workers)[w := Worker({}, Idle)]
    {
      match raised {
        case Nothing => d := DispatchBuyer(w, buyer, c, snag);
        case OnPlacing => d := FailPlacing(w, buyer, c, snag);
        case OnDeciding => d := FailEarly(w, buyer, c, false);
        case OnRow => d := FailEarly(w, buyer, c, true);
      }
    }
  }

  /** Where an exception may come from: nowhere; before any row, as a message already sent does; after the row and
      before its commit; or after the commit, as a call whose placing fails. */
  datatype Raised = Nothing | OnDeciding | OnRow | OnPlacing

  function RowStep(w: nat, buyer: nat, now: int, refused: bool): Step {
    if refused then Block(w, buyer, now) else Insert(w)
  }

  function SafeSteps(w: nat, buyer: nat, c: Context, snag: Snag, n: nat, raised: Raised): seq<Step> {
    match raised
    case Nothing => PassSteps(w, buyer, c, snag, n)
    case OnPlacing => PassSteps(w, buyer, c, snag, n) + [Rollback(w)]
    case OnDeciding => [Lock(w, buyer), Count(w, buyer, c)] + [Rollback(w)]
    case OnRow => [Lock(w, buyer), Count(w, buyer, c)] + [RowStep(w, buyer, c.now, Evaluate(c).Refused?), Rollback(w)]
  }

  lemma {:induction false} NothingToRollBack(rows: seq<Row>, w: nat)
    ensures Without(Committed(rows, w), w) == Committed(rows, w)
  {
    if rows != [] {
      NothingToRollBack(rows[..|rows| - 1], w);
      assert Committed(rows, w)[..|rows| - 1] == Committed(rows[..|rows| - 1], w);
      WithoutLast(Committed(rows, w), w);
    }
  }
}
