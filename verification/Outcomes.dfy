/** What an outcome costs and changes (backend/app/calls/outcomes.py and the outcome half of
    backend/app/policy/engine.py). */
module Outcomes {
  import opened Common
  import opened CallProjection

  /** `classify_attempt`; None is the ValueError for a status that never reached the carrier. */
  function Classify(status: CallStatus, cause: Option<int>): Option<AttemptClass> {
    if status in {Scheduled, Dialing, Blocked, Cancelled} then None
    else if status == Answered || status == AnsweredMachine then Some(Counts)
    else if cause.Some? && cause.value in {34, 38, 41} then Some(CarrierFault)
    else if cause.Some? && cause.value in {1, 22} then Some(TerminalBadNumber)
    else Some(Counts)
  }

  /** One call's row, its log, and whether it spends the frequency budget. */
  datatype Tracked = Tracked(row: Row, counts: bool)

  ghost function TrackedOf(c: Call): Tracked
    reads c
  {
    Tracked(c.ToRow(), c.countsAgainstCap)
  }

  /** The part of `apply_outcome` that writes the call; None is an exception, nothing written. */
  function CapSettled(t: Tracked): Option<Tracked> {
    if !PastDialling(t.row.state.status) then Some(t)
    else
      match Classify(t.row.state.status, t.row.state.hangupCause)
      case None => None
      case Some(k) => Some(t.(counts := k != CarrierFault))
  }

  method SettleCap(c: Call) returns (ok: bool)
    modifies c`countsAgainstCap
    ensures ok <==> CapSettled(old(TrackedOf(c))).Some?
    ensures TrackedOf(c) == if ok then CapSettled(old(TrackedOf(c))).value else old(TrackedOf(c))
  {
    if !PastDialling(c.status) {
      return true;
    }
    var k := Classify(c.status, c.hangupCause);
    if k.None? {
      return false;
    }
    c.countsAgainstCap := k.value != CarrierFault;
    return true;
  }

  /** `attempts_at_level` and `delivered_at_level` of an account's escalation state. */
  datatype Ladder = Ladder(attempts: int, delivered: int)

  /** The debtor's rows that an outcome writes: the number dialled and the escalation state, if there are any. */
  datatype CaseFile = CaseFile(phoneValid: Option<bool>, consentWithdrawn: bool, ladder: Option<Ladder>)

  /** `Call.delivered`: played to a human who did not opt out. */
  predicate Delivered(s: CallState) {
    s.status == Answered && s.playbackCompleted && !s.optedOut
  }

  function RecordAttempt(delivered: bool, l: Ladder): Ladder {
    if delivered then Ladder(0, l.delivered + 1) else Ladder(l.attempts + 1, l.delivered)
  }

  /** The part of `apply_outcome` that writes phone, consent and ladder. */
  function Absorbed(f: CaseFile, s: CallState): CaseFile {
    match Classify(s.status, s.hangupCause)
    case None => f
    case Some(k) =>
      CaseFile(
        if f.phoneValid.Some? && k == TerminalBadNumber then Some(false) else f.phoneValid,
        f.consentWithdrawn || s.optedOut,
        if f.ladder.Some? then Some(RecordAttempt(Delivered(s), f.ladder.value)) else None)
  }

  class Debtor {
    var phoneValid: Option<bool>
    var consentWithdrawn: bool
    var ladder: Option<Ladder>

    ghost function File(): CaseFile
      reads this
    {
      CaseFile(phoneValid, consentWithdrawn, ladder)
    }

    method Absorb(s: CallState, k: AttemptClass)
      requires Classify(s.status, s.hangupCause) == Some(k)
      modifies this
      ensures File() == Absorbed(old(File()), s)
    {
      if phoneValid.Some? && k == TerminalBadNumber {
        phoneValid := Some(false);
      }
      if s.optedOut && !consentWithdrawn {
        consentWithdrawn := true;
      }
      if ladder.Some? {
        ladder := Some(RecordAttempt(Delivered(s), ladder.value));
      }
    }
  }

  /** `apply_outcome` on a call and its debtor's rows; false is the exception, nothing written. */
  method ApplyOutcome(c: Call, d: Debtor) returns (ok: bool)
    modifies c`countsAgainstCap, d
    ensures ok <==> CapSettled(old(TrackedOf(c))).Some?
    ensures TrackedOf(c) == if ok then CapSettled(old(TrackedOf(c))).value else old(TrackedOf(c))
    ensures d.File() == if ok && PastDialling(c.status) then Absorbed(old(d.File()), c.State()) else old(d.File())
  {
    ok := SettleCap(c);
    if ok && PastDialling(c.status) {
      var k := Classify(c.status, c.hangupCause);
      d.Absorb(CallState(c.originatedAt, c.answeredAt, c.playbackStartedAt, c.endedAt, c.durationSec, c.status,
                         c.playbackCompleted, c.dtmfAck, c.optedOut, c.hangupCause, c.sipResponseCode), k.value);
    }
  }

  // ------------------------------------------------------------------------------ by the columns

  /** The carrier says the number is dead: the call ended unanswered with cause 1 or 22. */
  predicate Dead(s: CallState) {
    s.status in {NoAnswer, Busy, Failed, Unknown} && s.hangupCause.Some? && s.hangupCause.value in {1, 22}
  }

  /** An attempt with an outcome is taken off the budget exactly when it ended unanswered with cause 34, 38 or 41; a
      call that was blocked or cancelled has none, and one still to be dialled or dialling is left as it is. */
  lemma CapSays(t: Tracked)
    ensures var s := t.row.state;
            && (s.status in {Blocked, Cancelled} ==> CapSettled(t) == None)
            && (s.status in {Scheduled, Dialing} ==> CapSettled(t) == Some(t))
            && (s.status in {Answered, AnsweredMachine} ==> CapSettled(t) == Some(t.(counts := true)))
            && (s.status in {NoAnswer, Busy, Failed, Unknown} ==>
                  CapSettled(t) == Some(t.(counts := s.hangupCause.None? || s.hangupCause.value !in {34, 38, 41})))
  {
  }

  /** The debtor's rows after an outcome. A number is retired when the carrier says it is dead; consent is withdrawn by
      an opt-out; a message played to its end to a human who did not opt out is a delivery and sets the attempts back,
      and anything else is an attempt. */
  lemma OutcomeSays(f: CaseFile, s: CallState)
    requires s.status in {Answered, AnsweredMachine, NoAnswer, Busy, Failed, Unknown}
    ensures var g := Absorbed(f, s);
            && g.phoneValid == (if f.phoneValid.Some? && Dead(s) then Some(false) else f.phoneValid)
            && (g.consentWithdrawn <==> f.consentWithdrawn || s.optedOut)
            && (g.ladder.Some? <==> f.ladder.Some?)
            && (f.ladder.Some? ==>
                  if s.status == Answered && s.playbackCompleted && !s.optedOut then
                    g.ladder.value.attempts == 0 && g.ladder.value.delivered == f.ladder.value.delivered + 1
                  else
                    g.ladder.value.attempts == f.ladder.value.attempts + 1
                    && g.ladder.value.delivered == f.ladder.value.delivered)
  {
  }

  /** Running the outcome of one call twice is the same as running it once exactly when the account has no
      escalation state: otherwise the ladder counts another attempt, or another delivery, each time. */
  lemma OutcomeRepeatsExactly(f: CaseFile, s: CallState)
    requires Classify(s.status, s.hangupCause).Some?
    ensures Absorbed(Absorbed(f, s), s) == Absorbed(f, s) <==> f.ladder.None?
  {
  }

  /** Whatever number of times it runs: consent once withdrawn and a number once retired stay so, and the ladder has
      counted exactly the runs. */
  lemma {:induction false} OutcomeCountsEveryTime(f: CaseFile, s: CallState, n: nat)
    requires Classify(s.status, s.hangupCause).Some?
    ensures var g := AbsorbedTimes(f, s, n);
            && (n > 0 ==> g.consentWithdrawn == (f.consentWithdrawn || s.optedOut))
            && (f.phoneValid == Some(false) ==> g.phoneValid == Some(false))
            && (g.ladder.Some? <==> f.ladder.Some?)
            && (f.ladder.Some? && Delivered(s) ==> g.ladder.value.delivered == f.ladder.value.delivered + n)
            && (f.ladder.Some? && !Delivered(s) ==> g.ladder.value.attempts == f.ladder.value.attempts + n)
  {
    if n > 0 { OutcomeCountsEveryTime(f, s, n - 1); }
  }

  function AbsorbedTimes(f: CaseFile, s: CallState, n: nat): CaseFile {
    if n == 0 then f else Absorbed(AbsorbedTimes(f, s, n - 1), s)
  }
}
