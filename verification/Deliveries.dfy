/**
 * What the escalation ladder counts as contact (backend/app/calls/outcomes.py, backend/app/telephony/events.py): the
 * outcome runs after every event of a call that is past dialling, and reads the call as it then stands.
 */
module Deliveries {
  import opened Common
  import opened CallProjection
  import opened Outcomes
  import opened AriConsumer
  import opened Rebuild

  /** The call as it stands after each handled event. */
  function Moments(d: Desk, es: seq<Event>): seq<CallState> {
    if es == [] then [] else Moments(d, es[..|es| - 1]) + [After(d, es).call.row.state]
  }

  /** The moments at which the call counts as delivered. */
  function Deliveries(ss: seq<CallState>): nat {
    if ss == [] then 0 else Deliveries(ss[..|ss| - 1]) + (if Delivered(ss[|ss| - 1]) then 1 else 0)
  }

  /** The moments with an outcome since the last at which it counts as delivered. */
  function Tries(ss: seq<CallState>, before: int): int {
    if ss == [] then before
    else
      var s, tried := ss[|ss| - 1], Tries(ss[..|ss| - 1], before);
      if !PastDialling(s.status) then tried else if Delivered(s) then 0 else tried + 1
  }

  predicate Counted(first: Ladder, ss: seq<CallState>, now: Option<Ladder>) {
    now == Some(Ladder(Tries(ss, first.attempts), first.delivered + Deliveries(ss)))
  }

  /** What an outcome makes of the ladder. */
  function Recorded(s: CallState, l: Ladder): Ladder {
    if PastDialling(s.status) then RecordAttempt(Delivered(s), l) else l
  }

  lemma CountedOnce(first: Ladder, ss: seq<CallState>, s: CallState, before: Option<Ladder>, now: Option<Ladder>)
    requires Counted(first, ss, before) && now == Some(Recorded(s, before.value))
    ensures Counted(first, ss + [s], now)
  {
    assert (ss + [s])[..|ss|] == ss;
  }

  /** The ladder after any events: one delivery for every event that leaves the call delivered, and one attempt for
      every other event since that leaves it with an outcome. */
  lemma {:induction false} LadderCounts(d: Desk, es: seq<Event>)
    requires !Shut(d.call.row.state.status) && d.file.ladder.Some?
    ensures Counted(d.file.ladder.value, Moments(d, es), After(d, es).file.ladder)
  {
    if es != [] {
      var front := es[..|es| - 1];
      LadderCounts(d, front);
      LadderAfter(d, es);
      CountedOnce(d.file.ladder.value, Moments(d, front), After(d, es).call.row.state,
                  After(d, front).file.ladder, After(d, es).file.ladder);
    }
  }

  lemma StaysOpen(d: Desk, es: seq<Event>)
    requires !Shut(d.call.row.state.status)
    ensures !Shut(After(d, es).call.row.state.status)
  {
    RowIsLive(d, es);
  }

  lemma LadderAfter(d: Desk, es: seq<Event>)
    requires !Shut(d.call.row.state.status) && es != [] && After(d, es[..|es| - 1]).file.ladder.Some?
    ensures After(d, es).file.ladder ==
            Some(Recorded(After(d, es).call.row.state, After(d, es[..|es| - 1]).file.ladder.value))
  {
    StaysOpen(d, es[..|es| - 1]);
    LadderStep(After(d, es[..|es| - 1]), es[|es| - 1]);
  }

  lemma LadderStep(d: Desk, e: Event)
    requires !Shut(d.call.row.state.status) && d.file.ladder.Some?
    ensures var s := Handled(d, e).call.row.state;
            Handled(d, e).file.ladder ==
            Some(Recorded(s, d.file.ladder.value))
  {
    HandledOpen(d, e);
  }

  // --------------------------------------------------------------------- told from the log

  /** A log whose last word is an answer, with the message played to its end and no opt-out. */
  predicate DeliveredBy(log: seq<Event>) {
    Decision(log) == Some(Answered) && Has(log, IsPlayed) && !Has(log, IsOptOut)
  }

  lemma DeliveredIsTold(s: CallState, log: seq<Event>)
    requires Fresh(s)
    ensures Delivered(Fold(s, log)) <==> DeliveredBy(log)
  {
    FoldIsClosedForm(s, log);
  }

  /** A call that no event has been handled of. */
  predicate Unheard(d: Desk) { Fresh(d.call.row.state) && d.call.row.log == [] }

  ghost predicate NeverDelivered(log: seq<Event>) {
    forall n :: 0 <= n <= |log| ==> !DeliveredBy(log[..n])
  }

  lemma DeliveredAfter(d: Desk, es: seq<Event>)
    requires Unheard(d)
    ensures Delivered(After(d, es).call.row.state) <==> DeliveredBy(After(d, es).call.row.log)
  {
    RowIsLive(d, es);
    LiveIsFoldOfLog(d.call.row.state, es);
    DeliveredIsTold(d.call.row.state, After(d, es).call.row.log);
  }

  lemma LogGrows(d: Desk, es: seq<Event>)
    requires Unheard(d) && es != []
    ensures var before, after := After(d, es[..|es| - 1]).call.row.log, After(d, es).call.row.log;
            after == before || after == before + [es[|es| - 1]]
  {
    RowIsLive(d, es[..|es| - 1]);
    HandledOpen(After(d, es[..|es| - 1]), es[|es| - 1]);
  }

  lemma OneMoreMoment(before: seq<Event>, after: seq<Event>, e: Event)
    requires after == before || after == before + [e]
    ensures NeverDelivered(after) <==> NeverDelivered(before) && !DeliveredBy(after)
  {
    assert after[..|after|] == after;
    if after == before + [e] { OneMoreEvent(before, e); }
  }

  lemma OneMoreEvent(log: seq<Event>, e: Event)
    ensures NeverDelivered(log + [e]) <==> NeverDelivered(log) && !DeliveredBy(log + [e])
  {
    var longer := log + [e];
    assert longer[..|longer|] == longer;
    forall n | 0 <= n <= |log| ensures longer[..n] == log[..n] {
    }
    if NeverDelivered(longer) {
      forall n | 0 <= n <= |log| ensures !DeliveredBy(log[..n]) {
        assert !DeliveredBy(longer[..n]);
      }
    } else if NeverDelivered(log) {
      var n :| 0 <= n <= |longer| && DeliveredBy(longer[..n]);
      assert n == |longer|;
    }
  }

  lemma CountedLast(ss: seq<CallState>, s: CallState)
    ensures Deliveries(ss + [s]) == Deliveries(ss) + if Delivered(s) then 1 else 0
  {
    assert (ss + [s])[..|ss|] == ss;
  }

  lemma {:induction false} NoDeliveriesExactly(d: Desk, es: seq<Event>)
    requires Unheard(d)
    ensures Deliveries(Moments(d, es)) == 0 <==> NeverDelivered(After(d, es).call.row.log)
  {
    if es == [] {
      assert Decision([]) == None;
    } else {
      NoDeliveriesExactly(d, es[..|es| - 1]);
      DeliveredAfter(d, es);
      CountedLast(Moments(d, es[..|es| - 1]), After(d, es).call.row.state);
      LogGrows(d, es);
      OneMoreMoment(After(d, es[..|es| - 1]).call.row.log, After(d, es).call.row.log, es[|es| - 1]);
    }
  }

  /**
   * When a call adds no delivery, one that ends as a machine's included: if and only if its log was never, at any
   * moment, one whose last word was an answer with the message played and no opt-out.
   */
  lemma AddsNoDeliveryExactly(d: Desk, es: seq<Event>)
    requires Unheard(d) && d.file.ladder.Some?
    ensures After(d, es).file.ladder.Some?
    ensures After(d, es).file.ladder.value.delivered == d.file.ladder.value.delivered <==>
            NeverDelivered(After(d, es).call.row.log)
  {
    LadderCounts(d, es);
    NoDeliveriesExactly(d, es);
  }

  lemma {:induction false} HasLonger(log: seq<Event>, p: Event -> bool, m: nat, n: nat)
    requires m <= n <= |log|
    ensures Has(log[..m], p) ==> Has(log[..n], p)
  {
    if m < n {
      HasLonger(log, p, m, n - 1);
      assert log[..n][..n - 1] == log[..n - 1];
    }
  }

  /** So a call adds none when the machine's verdict is in before the message has played to its end. */
  lemma MachineFirstAddsNone(d: Desk, es: seq<Event>, n: nat)
    requires Unheard(d) && d.file.ladder.Some? && n <= |After(d, es).call.row.log|
    requires var log := After(d, es).call.row.log;
             && !Has(log[..n], IsPlayed)
             && forall m :: n < m <= |log| ==> Decision(log[..m]) == Some(AnsweredMachine)
    ensures After(d, es).file.ladder.Some?
    ensures After(d, es).file.ladder.value.delivered == d.file.ladder.value.delivered
  {
    var log := After(d, es).call.row.log;
    forall m | 0 <= m <= |log| ensures !DeliveredBy(log[..m]) {
      if m <= n { HasLonger(log, IsPlayed, m, n); }
    }
    AddsNoDeliveryExactly(d, es);
  }

  const ANSWERED := Event(Ari, "start", StasisStart, Payload("", false, None, None, ""), 1)
  const PLAYED := Event(Ari, "played", PlaybackFinished, Payload("", false, None, None, ""), 2)
  const MACHINE := Event(Ari, "amd", AmdResult, Payload("", true, None, None, ""), 3)

  lemma AfterThree(d: Desk, x: Event, y: Event, z: Event, d1: Desk, d2: Desk, d3: Desk)
    requires d1 == Handled(d, x) && d2 == Handled(d1, y) && d3 == Handled(d2, z)
    ensures After(d, [x, y, z]) == d3
  {
    AfterTwo(d, x, y);
    assert [x, y, z][..2] == [x, y];
  }

  lemma AnsweredFirst(d: Desk) returns (d1: Desk)
    requires Unheard(d) && d.file.ladder.Some?
    ensures d1 == Handled(d, ANSWERED) && d1.call.row.log == [ANSWERED]
    ensures var s := d1.call.row.state; s.status == Answered && !s.playbackCompleted && !s.optedOut
    ensures d1.file.ladder == Some(Ladder(d.file.ladder.value.attempts + 1, d.file.ladder.value.delivered))
  {
    d1 := Handled(d, ANSWERED);
    HandledOpen(d, ANSWERED);
    PhaseStep(d.call.row.state, ANSWERED);
    FactsStep(d.call.row.state, ANSWERED);
    LadderStep(d, ANSWERED);
  }

  lemma PlayedNext(d: Desk) returns (d1: Desk)
    requires d.call.row.log == [ANSWERED] && d.call.row.state.status == Answered && !d.call.row.state.optedOut
    requires d.file.ladder.Some?
    ensures d1 == Handled(d, PLAYED) && d1.call.row.log == [ANSWERED, PLAYED] && d1.call.row.state.status == Answered
    ensures d1.file.ladder == Some(Ladder(0, d.file.ladder.value.delivered + 1))
  {
    d1 := Handled(d, PLAYED);
    HandledOpen(d, PLAYED);
    PhaseStep(d.call.row.state, PLAYED);
    FactsStep(d.call.row.state, PLAYED);
    LadderStep(d, PLAYED);
  }

  lemma MachineLast(d: Desk) returns (d1: Desk)
    requires d.call.row.log == [ANSWERED, PLAYED] && d.call.row.state.status == Answered && d.file.ladder.Some?
    ensures d1 == Handled(d, MACHINE) && d1.call.row.state.status == AnsweredMachine
    ensures d1.file.ladder == Some(Ladder(d.file.ladder.value.attempts + 1, d.file.ladder.value.delivered))
  {
    d1 := Handled(d, MACHINE);
    HandledOpen(d, MACHINE);
    PhaseStep(d.call.row.state, MACHINE);
    LadderStep(d, MACHINE);
  }

  /** A machine that answers does count as contact when its verdict comes after the message: the call ends
      ANSWERED_MACHINE with one delivery. */
  lemma LateMachineIsCounted(d: Desk) returns (end: Desk)
    requires Unheard(d) && d.file.ladder.Some?
    ensures end == After(d, [ANSWERED, PLAYED, MACHINE])
    ensures end.call.row.state.status == AnsweredMachine
    ensures end.file.ladder == Some(Ladder(1, d.file.ladder.value.delivered + 1))
  {
    var d1 := AnsweredFirst(d);
    var d2 := PlayedNext(d1);
    end := MachineLast(d2);
    AfterThree(d, ANSWERED, PLAYED, MACHINE, d1, d2, end);
  }
}
