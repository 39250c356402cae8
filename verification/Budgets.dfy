/** Whose attempts a decision counts (backend/app/scheduler/dispatch.py): the buyer's own, of the last day and week. */
module Budgets {
  import opened Policy
  import opened Decisions
  import opened Dispatch

  /** One buyer's rows since a moment, in row order. */
  function RowsOf(rows: seq<Row>, buyer: nat, since: int): seq<Row> {
    if rows == [] then []
    else
      var r := rows[|rows| - 1];
      RowsOf(rows[..|rows| - 1], buyer, since) + if r.buyer == buyer && r.createdAt >= since then [r] else []
  }

  lemma AttemptsAppend(rows: seq<Row>, r: Row, w: nat, buyer: nat, since: int)
    ensures Attempts(rows + [r], w, buyer, since) == Attempts(rows, w, buyer, since) +
            if r.buyer == buyer && r.createdAt >= since && r.counts && !r.void && (r.committed || r.owner == w)
            then 1 else 0
  {
    assert (rows + [r])[..|rows|] == rows;
  }

  lemma {:induction false} AttemptsReadOwnRows(rows: seq<Row>, w: nat, buyer: nat, since: int, from: int)
    requires since <= from
    ensures Attempts(rows, w, buyer, from) == Attempts(RowsOf(rows, buyer, since), w, buyer, from)
  {
    if rows != [] {
      AttemptsReadOwnRows(rows[..|rows| - 1], w, buyer, since, from);
      var front := RowsOf(rows[..|rows| - 1], buyer, since);
      AttemptsAppend(front, rows[|rows| - 1], w, buyer, from);
      assert front + [] == front;
    }
  }

  lemma SameAttempts(rows: seq<Row>, others: seq<Row>, w: nat, buyer: nat, since: int, from: int)
    requires since <= from && RowsOf(rows, buyer, since) == RowsOf(others, buyer, since)
    ensures Attempts(rows, w, buyer, from) == Attempts(others, w, buyer, from)
  {
    AttemptsReadOwnRows(rows, w, buyer, since, from);
    AttemptsReadOwnRows(others, w, buyer, since, from);
  }

  /** A decision reads no row but the buyer's own of the last seven days: adding and removing others changes neither the
      counts it is made on nor what it says. */
  lemma DecisionReadsOwnRows(rows: seq<Row>, others: seq<Row>, w: nat, buyer: nat, c: Context)
    requires var since := c.now - 7 * 24 * 3_600_000_000; RowsOf(rows, buyer, since) == RowsOf(others, buyer, since)
    ensures Counted(rows, w, buyer, c) == Counted(others, w, buyer, c)
    ensures Evaluate(Counted(rows, w, buyer, c)) == Evaluate(Counted(others, w, buyer, c))
  {
    var since := c.now - 7 * 24 * 3_600_000_000;
    SameAttempts(rows, others, w, buyer, since, c.now - DAY);
    SameAttempts(rows, others, w, buyer, since, c.now - WEEK);
    assert Counted(rows, w, buyer, c) == Counted(others, w, buyer, c);
  }

  // ------------------------------------------------------------------ what a pass adds to the counts

  /** A refusal, and an attempt withdrawn before it is committed, are rows that nobody's counts notice. */
  lemma RefusalIsNotCounted(rows: seq<Row>, w: nat, buyer: nat, now: int, d: Stage, v: nat, b: nat, since: int)
    requires d.Decided?
    ensures var r := BlockedRow(w, buyer, now);
            r.buyer == buyer && r.createdAt == now && !r.counts && r.void && !r.spent && r.owner == w && !r.committed
    ensures Attempts(rows + [BlockedRow(w, buyer, now)], v, b, since) == Attempts(rows, v, b, since)
    ensures Attempts(rows + [Noted(AttemptRow(w, d), false, true)], v, b, since) == Attempts(rows, v, b, since)
  {
    AttemptsAppend(rows, BlockedRow(w, buyer, now), v, b, since);
    AttemptsAppend(rows, Noted(AttemptRow(w, d), false, true), v, b, since);
  }

  /** An attempt counts once, against its own buyer, from its own moment on; before its commit only in the eyes of the
      worker that inserted it, and after it in everybody's. */
  lemma AttemptIsCounted(rows: seq<Row>, w: nat, buyer: nat, now: int, dayCap: int, weekCap: int, v: nat, b: nat,
                         since: int)
    ensures var r := AttemptRow(w, Decided(buyer, now, dayCap, weekCap));
            && Attempts(rows + [r], v, b, since) ==
               Attempts(rows, v, b, since) + (if b == buyer && since <= now && v == w then 1 else 0)
            && Attempts(Committed(rows + [r], w), v, b, since) ==
               Attempts(Committed(rows, w), v, b, since) + (if b == buyer && since <= now then 1 else 0)
  {
    var r := AttemptRow(w, Decided(buyer, now, dayCap, weekCap));
    AttemptsAppend(rows, r, v, b, since);
    assert Committed(rows + [r], w) == Committed(rows, w) + [r.(committed := true)];
    AttemptsAppend(Committed(rows, w), r.(committed := true), v, b, since);
  }

  /** All the rows that count against a buyer since a moment. */
  ghost function Counting(rows: seq<Row>, buyer: nat, since: int): set<int> {
    set i | 0 <= i < |rows| && rows[i].buyer == buyer && since <= rows[i].createdAt && rows[i].counts && !rows[i].void
  }

  lemma ChargedAreCounting(rows: seq<Row>, w: nat, buyer: nat, since: int)
    ensures Attempts(rows, w, buyer, since) <= |Counting(rows, buyer, since)|
  {
    AttemptsAreCharged(rows, w, buyer, since);
    SubsetIsNoLarger(Charged(rows, w, buyer, since), Counting(rows, buyer, since));
  }

  lemma {:induction false} SubsetIsNoLarger(a: set<int>, b: set<int>)
    requires a <= b
    ensures |a| <= |b|
  {
    assert b == a + (b - a);
  }

  /** Over every run, a refusal for a cap means that as many of the buyer's own attempts count in the last day, or the
      last seven, as the cap allows: nobody else's are held against it. */
  lemma CapRefusalIsOwn(ss: seq<World>, steps: seq<Step>, k: nat, w: nat, buyer: nat, c: Context)
    requires IsRun(ss, steps) && k < |steps| && steps[k] == Count(w, buyer, c)
    ensures Evaluate(c) == Refused(DailyCapReached) ==>
              |Counting(ss[k].rows, buyer, c.now - 24 * 3_600_000_000)| >= c.maxPerDay
    ensures Evaluate(c) == Refused(WeeklyCapReached) ==>
              |Counting(ss[k].rows, buyer, c.now - 7 * 24 * 3_600_000_000)| >= c.maxPerWeek
  {
    assert Enabled(ss[k], steps[k]);
    CapReasonMeans(c);
    ChargedAreCounting(ss[k].rows, w, buyer, c.now - DAY);
    ChargedAreCounting(ss[k].rows, w, buyer, c.now - WEEK);
  }
}
