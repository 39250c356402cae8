/**
 * The attempts that escape the caps: refunded as the carrier's fault, and counted again by a later event
 * (backend/app/calls/outcomes.py, backend/app/scheduler/dispatch.py).
 */
module Recounts {
  import opened Policy
  import opened Decisions
  import opened Dispatch
  import Common
  import Desk = AriConsumer

  // ------------------------------------------------------------------------- steps into runs

  lemma {:induction false} RunOf(s: World, steps: seq<Step>) returns (ss: seq<World>)
    requires s.rows == [] && s.workers == map[] && CanRun(s, steps)
    ensures IsRun(ss, steps) && ss[0] == s && ss[|steps|] == After(s, steps)
  {
    if steps == [] {
      ss := [s];
    } else {
      var front := steps[..|steps| - 1];
      var before := RunOf(s, front);
      assert steps == front + [steps[|steps| - 1]];
      ss := OneMoreStep(before, front, steps[|steps| - 1]);
    }
  }

  lemma OneMoreStep(before: seq<World>, front: seq<Step>, x: Step) returns (ss: seq<World>)
    requires IsRun(before, front) && Enabled(before[|front|], x)
    ensures IsRun(ss, front + [x]) && ss[0] == before[0] && ss[|front| + 1] == Next(before[|front|], x)
  {
    ss := before + [Next(before[|front|], x)];
    var steps := front + [x];
    forall k | 0 <= k < |steps| ensures Enabled(ss[k], steps[k]) && ss[k + 1] == Next(ss[k], steps[k]) {
      if k < |front| { assert steps[k] == front[k] && Enabled(before[k], front[k]); }
    }
  }

  // ---------------------------------------------------------------------------- one attempt

  function PlacingSteps(w: nat, buyer: nat, c: Context): seq<Step> {
    [Lock(w, buyer), Count(w, buyer, c)] + [Insert(w), Commit(w)]
  }

  function Placed(rows: seq<Row>, w: nat, buyer: nat, c: Context): seq<Row> {
    Committed(rows + [Row(buyer, c.now, true, false, true, c.maxPerDay, c.maxPerWeek, w, false)], w)
  }

  /** A lone worker places a call that the policy allows. */
  lemma OnePass(s: World, w: nat, buyer: nat, c: Context) returns (t: World)
    requires s.workers == map[] || s.workers == map[w := Worker({}, Idle)]
    requires Evaluate(c).Allowed? && c.attemptsToday == Attempts(s.rows, w, buyer, c.now - DAY)
    requires c.attemptsThisWeek == Attempts(s.rows, w, buyer, c.now - WEEK)
    ensures Goes(s, PlacingSteps(w, buyer, c), t)
    ensures t == World(s.hash, Placed(s.rows, w, buyer, c), map[w := Worker({}, Idle)])
  {
    var m := ToDecision(s, w, buyer, c);
    t := ToCommit(m, w);
    Onward(s, [Lock(w, buyer), Count(w, buyer, c)], m, [Insert(w), Commit(w)], t);
  }

  lemma ToDecision(s: World, w: nat, buyer: nat, c: Context) returns (m: World)
    requires s.workers == map[] || s.workers == map[w := Worker({}, Idle)]
    requires Evaluate(c).Allowed? && c.attemptsToday == Attempts(s.rows, w, buyer, c.now - DAY)
    requires c.attemptsThisWeek == Attempts(s.rows, w, buyer, c.now - WEEK)
    ensures Goes(s, [Lock(w, buyer), Count(w, buyer, c)], m)
    ensures m.hash == s.hash && m.rows == s.rows
    ensures m.workers == map[w := Worker({s.hash(buyer)}, Decided(buyer, c.now, c.maxPerDay, c.maxPerWeek))]
  {
    var locked := ToLock(s, w, buyer);
    LockedCanCount(s, locked, w, buyer, c);
    m := Counting(locked, w, buyer, c);
    StagedAlone(locked, w, s.hash(buyer), Decided(buyer, c.now, c.maxPerDay, c.maxPerWeek));
    Onward(s, [Lock(w, buyer)], locked, [Count(w, buyer, c)], m);
    assert [Lock(w, buyer)] + [Count(w, buyer, c)] == [Lock(w, buyer), Count(w, buyer, c)];
  }

  lemma LockedCanCount(s: World, locked: World, w: nat, buyer: nat, c: Context)
    requires locked == World(s.hash, s.rows, map[w := Worker({s.hash(buyer)}, Idle)])
    requires c.attemptsToday == Attempts(s.rows, w, buyer, c.now - DAY)
    requires c.attemptsThisWeek == Attempts(s.rows, w, buyer, c.now - WEEK)
    ensures Enabled(locked, Count(w, buyer, c))
  {
  }

  lemma StagedAlone(s: World, w: nat, lock: int, stage: Stage)
    requires s.workers == map[w := Worker({lock}, Idle)]
    ensures Staged(s, w, stage) == World(s.hash, s.rows, map[w := Worker({lock}, stage)])
  {
  }

  lemma ToLock(s: World, w: nat, buyer: nat) returns (t: World)
    requires s.workers == map[] || s.workers == map[w := Worker({}, Idle)]
    ensures Goes(s, [Lock(w, buyer)], t)
    ensures t == World(s.hash, s.rows, map[w := Worker({s.hash(buyer)}, Idle)])
  {
    One(s, Lock(w, buyer));
    t := Next(s, Lock(w, buyer));
    assert {} + {s.hash(buyer)} == {s.hash(buyer)};
  }

  lemma Counting(s: World, w: nat, buyer: nat, c: Context) returns (t: World)
    requires Enabled(s, Count(w, buyer, c)) && Evaluate(c).Allowed?
    ensures Goes(s, [Count(w, buyer, c)], t) && t == Staged(s, w, Decided(buyer, c.now, c.maxPerDay, c.maxPerWeek))
  {
    CountStages(s, w, buyer, c);
    t := Next(s, Count(w, buyer, c));
    One(s, Count(w, buyer, c));
  }

  lemma CountStages(s: World, w: nat, buyer: nat, c: Context)
    requires Enabled(s, Count(w, buyer, c)) && Evaluate(c).Allowed?
    ensures Next(s, Count(w, buyer, c)) == Staged(s, w, Decided(buyer, c.now, c.maxPerDay, c.maxPerWeek))
  {
  }

  lemma ToCommit(m: World, w: nat) returns (t: World)
    requires w in m.workers && m.workers[w].stage.Decided? && m.workers == map[w := m.workers[w]]
    ensures Goes(m, [Insert(w), Commit(w)], t)
    ensures t == World(m.hash, Committed(m.rows + [AttemptRow(w, m.workers[w].stage)], w), map[w := Worker({}, Idle)])
  {
    Two(m, Insert(w), Commit(w));
    t := Next(Next(m, Insert(w)), Commit(w));
  }

  lemma OneOutcome(s: World, i: nat, counts: bool) returns (t: World)
    requires i < |s.rows| && s.rows[i].committed
    ensures Goes(s, [Outcome(i, counts, false)], t)
    ensures t == s.(rows := s.rows[i := Noted(s.rows[i], counts, false)])
  {
    One(s, Outcome(i, counts, false));
    t := Next(s, Outcome(i, counts, false));
  }

  // -------------------------------------------------------------------------- two under a cap of one

  /** An attempt on `c`, refunded; an attempt on `d`; and the first one counted again. */
  function Steps(w: nat, buyer: nat, c: Context, d: Context, refund: bool, again: bool): seq<Step> {
    PlacingSteps(w, buyer, c) + [Outcome(0, refund, false)] + PlacingSteps(w, buyer, d) + [Outcome(0, again, false)]
  }

  predicate Fresh(c: Context) { Evaluate(c).Allowed? && c.attemptsToday == 0 && c.attemptsThisWeek == 0 }

  lemma RefundedIsNotCounted(r: Row, w: nat, buyer: nat, since: int)
    requires !r.counts
    ensures Attempts([r], w, buyer, since) == 0
  {
    assert [r][..0] == [];
  }

  lemma TwoCount(x: Row, y: Row, buyer: nat, from: int)
    requires Within(x, buyer, from, DAY) && Within(y, buyer, from, DAY) && Counts(x) && Counts(y)
    ensures CountingIn([x, y], buyer, from, DAY) == 2
  {
    assert [x][..0] == [];
    assert CountingIn([x], buyer, from, DAY) == 1;
    assert [x, y][..1] == [x];
  }

  lemma Reaches(hash: nat -> int, w: nat, buyer: nat, c: Context, d: Context) returns (end: World)
    requires Fresh(c) && Fresh(d)
    ensures Goes(World(hash, [], map[]), Steps(w, buyer, c, d, false, true), end)
    ensures end.rows == [ Row(buyer, c.now, true, false, false, c.maxPerDay, c.maxPerWeek, w, true),
                          Row(buyer, d.now, true, false, true, d.maxPerDay, d.maxPerWeek, w, true) ]
  {
    var s0 := World(hash, [], map[]);
    var s1 := OnePass(s0, w, buyer, c);
    var first := Row(buyer, c.now, true, false, true, c.maxPerDay, c.maxPerWeek, w, true);
    assert s1.rows == [first];
    var s2 := OneOutcome(s1, 0, false);
    assert s2.rows == [Noted(first, false, false)];
    Onward(s0, PlacingSteps(w, buyer, c), s1, [Outcome(0, false, false)], s2);
    RefundedIsNotCounted(Noted(first, false, false), w, buyer, d.now - DAY);
    RefundedIsNotCounted(Noted(first, false, false), w, buyer, d.now - WEEK);
    var s3 := OnePass(s2, w, buyer, d);
    Onward(s0, PlacingSteps(w, buyer, c) + [Outcome(0, false, false)], s2, PlacingSteps(w, buyer, d), s3);
    var second := Row(buyer, d.now, true, false, true, d.maxPerDay, d.maxPerWeek, w, true);
    assert s3.rows == [Noted(first, false, false), second];
    end := OneOutcome(s3, 0, true);
    Onward(s0, PlacingSteps(w, buyer, c) + [Outcome(0, false, false)] + PlacingSteps(w, buyer, d), s3,
           [Outcome(0, true, false)], end);
  }

  /**
   * A cap of one that holds two. For every two moments within a day at which the policy allows a contact under a cap
   * of one a day, nothing else being counted, and for every dialled call that nothing was heard of, there is a run
   * that ends with two attempts counting in that day; its two outcomes are what the call's own events make of it:
   * congestion, and then the end of its stasis.
   */
  lemma CapOfOneHoldsTwo(hash: nat -> int, w: nat, buyer: nat, c: Context, d: Context, desk: Desk.Desk)
    returns (ss: seq<World>, steps: seq<Step>)
    requires Fresh(c) && Fresh(d) && c.now <= d.now <= c.now + DAY && c.maxPerDay == 1 && d.maxPerDay == 1
    requires desk.call.row.state.status == Common.Dialing && desk.call.row.state.answeredAt.None?
    requires desk.call.row.log == []
    ensures IsRun(ss, steps)
    ensures steps == Steps(w, buyer, c, d, Desk.After(desk, [Desk.CONGESTED]).call.counts,
                           Desk.After(desk, [Desk.CONGESTED, Desk.ENDED]).call.counts)
    ensures var rows := ss[|steps|].rows;
            && |rows| == 2 && Inside(rows[1], buyer, c.now, DAY) && rows[0].dayCap == rows[1].dayCap == 1
            && CountingIn(rows, buyer, c.now, DAY) == 2
  {
    Desk.CongestionCountsAgain(desk);
    var end := Reaches(hash, w, buyer, c, d);
    steps := Steps(w, buyer, c, d, false, true);
    ss := RunOf(World(hash, [], map[]), steps);
    TwoCount(end.rows[0], end.rows[1], buyer, c.now);
  }

  // ------------------------------------------------------------------------------ such moments exist

  const PHONE := PhoneRef(0, "+910000000000", 0, true, Clear, Common.Some(0))
  const ACCOUNT := AccountRef(0, Common.Overdue, 100_000, -30 * DAY, Common.L1, -30 * DAY, 0, 0, Common.None)
  const WORDS := TemplateRef(Common.L1, "en", 0, true, Voice, true)

  /** One overdue account, one clear number, approved words, and a cap of one a day. */
  const PLAIN := Context(
    0, LocalTime(0, 0, 10 * HOUR), true, 9 * HOUR, 18 * HOUR, false, {}, 1, 3, 4, false, Common.None,
    [PHONE], [ACCOUNT], 0, 0, [WORDS], EscalationPolicy(3, 7, 14, 3, 5_000_000), "en",
    [Voice], {}, "", map[], map[])

  lemma PlainAccount()
    ensures SelectAccount(PLAIN) == Common.Ok(ACCOUNT)
  {
    assert IsDue(PLAIN, ACCOUNT) && ACCOUNT in PLAIN.accounts;
    AccountChosen(PLAIN);
  }

  lemma PlainRung()
    ensures forall ch :: RungUsable(PLAIN, Common.L1, ch) <==> ch == Voice
  {
    assert WORDS in PLAIN.templates && PHONE in PLAIN.phones && Dialable(PLAIN, PHONE);
  }

  lemma PlainWords()
    ensures ChosenAt(PLAIN, Common.L1, Voice, 0)
  {
    assert Fits(PLAIN, Common.L1, Voice, PLAIN.templates[0]);
  }

  lemma PlainContact()
    ensures Contact(PLAIN, ACCOUNT, Common.L1).Allowed?
  {
    PlainRung();
    PlainWords();
    assert RungUsable(PLAIN, Common.L1, Voice);
    ChosenIsReachable(PLAIN, Common.L1);
    var ch, i := WordsFound(PLAIN, Common.L1);
    assert InWords(PLAIN, Common.L1, Voice, 0);
  }

  /** The policy allows a first call there. */
  lemma PlainIsAllowed()
    ensures Fresh(PLAIN)
  {
    PlainAccount();
    LevelMeans(PLAIN, ACCOUNT);
    PlainContact();
    CoolingDownMeans(PLAIN);
  }
}
