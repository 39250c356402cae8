/** The call event log and its projection (backend/app/calls/projection.py).

    A `Call` object carries the projected columns and its own slice of `call_events`.
    Every method is tied to a function on plain values (`CallState`, `Row`); the results
    about arrival order, redelivery and replay are lemmas about those functions. */
module CallProjection {
  import opened Common

  datatype Source = Ari | Cdr | Webhook | Worker

  datatype Kind =
    | StasisStart | PlaybackStarted | PlaybackFinished | ChannelDtmfReceived
    | AmdResult | StasisEnd | ChannelDestroyed | OtherKind(name: string)

  /** `machine` says whether the AMD status reads MACHINE in any letter case;
      `origin` is the payload's "source" entry. */
  datatype Payload = Payload(digit: string, machine: bool, cause: Option<int>, sip: Option<int>, origin: string)

  /** `at` is `occurred_at` in microseconds. */
  datatype Event = Event(source: Source, key: string, kind: Kind, payload: Payload, at: int)

  datatype CallState = CallState(
    originatedAt: Option<int>,
    answeredAt: Option<int>,
    playbackStartedAt: Option<int>,
    endedAt: Option<int>,
    durationSec: Option<int>,
    status: CallStatus,
    playbackCompleted: bool,
    dtmfAck: bool,
    optedOut: bool,
    hangupCause: Option<int>,
    sipResponseCode: Option<int>)

  /** One call's row together with its slice of the event log. */
  datatype Row = Row(state: CallState, log: seq<Event>)

  // ---------------------------------------------------------------- the status lattice

  function Rank(s: CallStatus): nat {
    match s
    case Scheduled => 0
    case Dialing => 1
    case Answered | AnsweredMachine => 2
    case _ => 3
  }

  /** The projection's own TERMINAL set. */
  predicate Terminal(s: CallStatus) {
    s in {NoAnswer, Busy, Failed, Unknown, Cancelled, Blocked}
  }

  function CauseStatus(cause: int): CallStatus {
    if cause == 16 then Answered
    else if cause == 17 then Busy
    else if cause == 18 || cause == 19 then NoAnswer
    else Failed
  }

  function Advanced(current: CallStatus, s: CallStatus): CallStatus {
    if Rank(s) < Rank(current) then current
    else if Terminal(current) && Terminal(s) && current != s then current
    else s
  }

  function Earliest(current: Option<int>, candidate: int): int {
    if current.None? then candidate else Min(current.value, candidate)
  }

  /** What a destroyed channel that was never answered is taken to mean. */
  function Verdict(p: Payload): CallStatus {
    if p.origin == "reconciler" then Unknown
    else if p.cause.None? then NoAnswer
    else CauseStatus(p.cause.value)
  }

  function Finalised(s: CallState, p: Payload): CallState {
    if s.answeredAt.Some? then
      if s.status != AnsweredMachine then s.(status := Advanced(s.status, Answered)) else s
    else s.(status := Advanced(s.status, Verdict(p)))
  }

  function Timed(s: CallState): CallState {
    if s.answeredAt.Some? && s.endedAt.Some? && s.durationSec.None? then
      s.(durationSec := Some(Max(0, s.endedAt.value - s.answeredAt.value) / 1_000_000))
    else s
  }

  function Ended(s: CallState, e: Event): CallState {
    s.(endedAt := Some(Earliest(s.endedAt, e.at)),
       hangupCause := if e.payload.cause.Some? then e.payload.cause else s.hangupCause,
       sipResponseCode := if e.payload.sip.Some? then e.payload.sip else s.sipResponseCode)
  }

  /** Everything an event sets except the duration. */
  function Projected(s: CallState, e: Event): CallState {
    match e.kind
    case StasisStart =>
      s.(answeredAt := Some(Earliest(s.answeredAt, e.at)), status := Advanced(s.status, Answered))
    case PlaybackStarted => s.(playbackStartedAt := Some(Earliest(s.playbackStartedAt, e.at)))
    case PlaybackFinished => s.(playbackCompleted := true)
    case ChannelDtmfReceived =>
      if e.payload.digit == "1" then s.(dtmfAck := true)
      else if e.payload.digit == "9" then s.(optedOut := true)
      else s
    case AmdResult => if e.payload.machine then s.(status := Advanced(s.status, AnsweredMachine)) else s
    case StasisEnd => Ended(s, e)
    case ChannelDestroyed => Finalised(Ended(s, e), e.payload)
    case OtherKind(_) => s
  }

  function Applied(s: CallState, e: Event): CallState {
    Timed(Projected(s, e))
  }

  /** Folding events in arrival order. */
  function Fold(s: CallState, es: seq<Event>): CallState {
    if es == [] then s else Applied(Fold(s, es[..|es| - 1]), es[|es| - 1])
  }

  predicate SameKey(a: Event, b: Event) { a.source == b.source && a.key == b.key }

  predicate Seen(log: seq<Event>, e: Event) {
    exists i :: 0 <= i < |log| && SameKey(log[i], e)
  }

  function Ingested(r: Row, e: Event): Row {
    if Seen(r.log, e) then r else Row(Applied(r.state, e), r.log + [e])
  }

  function Live(r: Row, arrivals: seq<Event>): Row {
    if arrivals == [] then r else Ingested(Live(r, arrivals[..|arrivals| - 1]), arrivals[|arrivals| - 1])
  }

  /** Every projected column cleared, as `rebuild` clears it. */
  function Cleared(s: CallState): CallState {
    CallState(s.originatedAt, None, None, None, None, if s.originatedAt.Some? then Dialing else Scheduled,
              false, false, false, None, None)
  }

  // ------------------------------------------------------------------------- the object

  class Call {
    const id: string
    const scheduledAt: int
    var originatedAt: Option<int>
    var answeredAt: Option<int>
    var playbackStartedAt: Option<int>
    var endedAt: Option<int>
    var durationSec: Option<int>
    var status: CallStatus
    var playbackCompleted: bool
    var dtmfAck: bool
    var optedOut: bool
    var hangupCause: Option<int>
    var sipResponseCode: Option<int>
    var countsAgainstCap: bool
    var log: seq<Event>

    constructor (id: string, scheduledAt: int)
      ensures this.id == id && this.scheduledAt == scheduledAt
      ensures ToRow() == Row(Cleared(ToRow().state), []) && originatedAt.None? && countsAgainstCap
    {
      this.id := id;
      this.scheduledAt := scheduledAt;
      originatedAt, answeredAt, playbackStartedAt, endedAt := None, None, None, None;
      durationSec, hangupCause, sipResponseCode := None, None, None;
      status := Scheduled;
      playbackCompleted, dtmfAck, optedOut, countsAgainstCap := false, false, false, true;
      log := [];
    }

    ghost function State(): CallState
      reads this
    {
      CallState(originatedAt, answeredAt, playbackStartedAt, endedAt, durationSec, status,
                playbackCompleted, dtmfAck, optedOut, hangupCause, sipResponseCode)
    }

    ghost function ToRow(): Row
      reads this
    {
      Row(State(), log)
    }

    method Advance(s: CallStatus)
      modifies this`status
      ensures status == Advanced(old(status), s)
    {
      if Rank(s) >= Rank(status) {
        if Terminal(status) && Terminal(s) && status != s {
          return;
        }
        status := s;
      }
    }

    method Finalise(p: Payload)
      modifies this`status
      ensures State() == Finalised(old(State()), p)
    {
      if answeredAt.Some? {
        if status != AnsweredMachine {
          Advance(Answered);
        }
        return;
      }
      if p.origin == "reconciler" {
        Advance(Unknown);
        return;
      }
      if p.cause.None? {
        Advance(NoAnswer);
        return;
      }
      Advance(CauseStatus(p.cause.value));
    }

    method MarkEnded(e: Event)
      modifies this`endedAt, this`hangupCause, this`sipResponseCode
      ensures State() == Ended(old(State()), e)
    {
      endedAt := Some(Earliest(endedAt, e.at));
      if e.payload.cause.Some? {
        hangupCause := e.payload.cause;
      }
      if e.payload.sip.Some? {
        sipResponseCode := e.payload.sip;
      }
    }

    method Project(e: Event)
      modifies this
      ensures State() == Projected(old(State()), e)
      ensures log == old(log) && countsAgainstCap == old(countsAgainstCap)
    {
      if e.kind == StasisStart {
        answeredAt := Some(Earliest(answeredAt, e.at));
        Advance(Answered);
      } else if e.kind == PlaybackStarted {
        playbackStartedAt := Some(Earliest(playbackStartedAt, e.at));
      } else if e.kind == PlaybackFinished {
        playbackCompleted := true;
      } else if e.kind == ChannelDtmfReceived {
        if e.payload.digit == "1" {
          dtmfAck := true;
        } else if e.payload.digit == "9" {
          optedOut := true;
        }
      } else if e.kind == AmdResult {
        if e.payload.machine {
          Advance(AnsweredMachine);
        }
      } else if e.kind == StasisEnd || e.kind == ChannelDestroyed {
        MarkEnded(e);
        if e.kind == ChannelDestroyed {
          Finalise(e.payload);
        }
      }
    }

    method ApplyEvent(e: Event)
      modifies this
      ensures State() == Applied(old(State()), e)
      ensures log == old(log) && countsAgainstCap == old(countsAgainstCap)
    {
      Project(e);
      if answeredAt.Some? && endedAt.Some? && durationSec.None? {
        durationSec := Some(Max(0, endedAt.value - answeredAt.value) / 1_000_000);
      }
    }

    /** `record_event`: append unless (source, dedupe key) is already in the log. */
    method RecordEvent(e: Event) returns (recorded: bool)
      modifies this`log
      ensures recorded == !Seen(old(log), e)
      ensures log == if recorded then old(log) + [e] else old(log)
    {
      for i := 0 to |log|
        invariant forall j :: 0 <= j < i ==> !SameKey(log[j], e)
        invariant log == old(log)
      {
        if SameKey(log[i], e) {
          return false;
        }
      }
      log := log + [e];
      return true;
    }

    method Ingest(e: Event)
      modifies this
      ensures ToRow() == Ingested(old(ToRow()), e)
      ensures countsAgainstCap == old(countsAgainstCap)
    {
      var recorded := RecordEvent(e);
      if recorded {
        ApplyEvent(e);
      }
    }

    method Clear()
      modifies this
      ensures State() == Cleared(old(State()))
      ensures log == old(log) && countsAgainstCap == old(countsAgainstCap)
    {
      answeredAt, playbackStartedAt, endedAt, durationSec := None, None, None, None;
      playbackCompleted, dtmfAck, optedOut := false, false, false;
      hangupCause, sipResponseCode := None, None;
      status := if originatedAt.Some? then Dialing else Scheduled;
    }

    /** `replay` is the log as the database returns it: ordered by occurrence, ties by arrival. */
    method Rebuild(replay: seq<Event>)
      requires multiset(replay) == multiset(log)
      modifies this
      ensures State() == Fold(Cleared(old(State())), replay)
      ensures log == old(log) && countsAgainstCap == old(countsAgainstCap)
    {
      Clear();
      ghost var cleared := State();
      for i := 0 to |replay|
        invariant State() == Fold(cleared, replay[..i])
        invariant log == old(log) && countsAgainstCap == old(countsAgainstCap)
      {
        ApplyEvent(replay[i]);
        assert replay[..i + 1][..i] == replay[..i];
      }
      assert replay[..|replay|] == replay;
    }
  }

  // ------------------------------------------------------------- the log and the live row

  /** The dedupe key determines the event, across the whole delivery. */
  ghost predicate KeysDetermine(es: seq<Event>) {
    forall i, j :: 0 <= i < |es| && 0 <= j < |es| && SameKey(es[i], es[j]) ==> es[i] == es[j]
  }

  ghost predicate DistinctKeys(log: seq<Event>) {
    forall i, j :: 0 <= i < j < |log| ==> !SameKey(log[i], log[j])
  }

  ghost function Elements(es: seq<Event>): set<Event> { set e | e in es }

  /** The arrivals with every later occurrence of a key dropped. */
  function Deduped(arrivals: seq<Event>): seq<Event> {
    if arrivals == [] then []
    else
      var log, e := Deduped(arrivals[..|arrivals| - 1]), arrivals[|arrivals| - 1];
      if Seen(log, e) then log else log + [e]
  }

  /** The live row is at every moment the fold of its log in arrival order, and the log is the
      deduplicated delivery. */
  lemma {:induction false} LiveIsFoldOfLog(s: CallState, arrivals: seq<Event>)
    ensures Live(Row(s, []), arrivals) == Row(Fold(s, Deduped(arrivals)), Deduped(arrivals))
  {
    if arrivals != [] {
      var e := arrivals[|arrivals| - 1];
      LiveIsFoldOfLog(s, arrivals[..|arrivals| - 1]);
      var log := Deduped(arrivals[..|arrivals| - 1]);
      assert (log + [e])[..|log|] == log;
    }
  }

  /** The log never holds a key twice, covers every delivered key, and holds exactly the delivered
      events when keys determine events. */
  lemma {:induction false} DedupedCovers(arrivals: seq<Event>)
    ensures DistinctKeys(Deduped(arrivals))
    ensures forall e :: e in arrivals ==> Seen(Deduped(arrivals), e)
    ensures forall e :: e in Deduped(arrivals) ==> e in arrivals
  {
    if arrivals != [] {
      var before, e := arrivals[..|arrivals| - 1], arrivals[|arrivals| - 1];
      DedupedCovers(before);
      assert arrivals == before + [e];
      var log, log' := Deduped(before), Deduped(arrivals);
      forall x | x in arrivals ensures Seen(log', x) {
        if x in before {
          var i :| 0 <= i < |log| && SameKey(log[i], x);
          assert SameKey(log'[i], x);
        } else if !Seen(log, e) {
          assert SameKey(log'[|log|], x);
        }
      }
    }
  }

  lemma DedupedHoldsAll(arrivals: seq<Event>)
    requires KeysDetermine(arrivals)
    ensures Elements(Deduped(arrivals)) == Elements(arrivals)
  {
    DedupedCovers(arrivals);
    var log := Deduped(arrivals);
    forall x | x in arrivals ensures x in log {
      var i :| 0 <= i < |log| && SameKey(log[i], x);
      assert log[i] in arrivals;
      var a :| 0 <= a < |arrivals| && arrivals[a] == log[i];
      var b :| 0 <= b < |arrivals| && arrivals[b] == x;
      assert SameKey(arrivals[a], arrivals[b]);
    }
  }

  // ----------------------------------------------------------------- order-free facts

  ghost predicate IsEarliest(r: Option<int>, log: set<Event>, p: Event -> bool) {
    match r
    case None => forall e :: e in log ==> !p(e)
    case Some(t) => (exists e :: e in log && p(e) && e.at == t) && forall e :: e in log && p(e) ==> t <= e.at
  }

  ghost predicate Happened(log: set<Event>, p: Event -> bool) { exists e :: e in log && p(e) }

  /** The same along a sequence. */
  predicate Has(es: seq<Event>, p: Event -> bool) {
    es != [] && (p(es[|es| - 1]) || Has(es[..|es| - 1], p))
  }

  predicate IsStart(e: Event) { e.kind == StasisStart }
  predicate IsPlayback(e: Event) { e.kind == PlaybackStarted }
  predicate IsPlayed(e: Event) { e.kind == PlaybackFinished }
  predicate IsEnd(e: Event) { e.kind == StasisEnd || e.kind == ChannelDestroyed }
  predicate IsAck(e: Event) { e.kind == ChannelDtmfReceived && e.payload.digit == "1" }
  predicate IsOptOut(e: Event) { e.kind == ChannelDtmfReceived && e.payload.digit == "9" }

  /** The columns that must not depend on arrival order. */
  datatype Facts = Facts(answeredAt: Option<int>, playbackStartedAt: Option<int>, endedAt: Option<int>,
                         playbackCompleted: bool, dtmfAck: bool, optedOut: bool)

  function FactsOf(s: CallState): Facts {
    Facts(s.answeredAt, s.playbackStartedAt, s.endedAt, s.playbackCompleted, s.dtmfAck, s.optedOut)
  }

  /** The closed form: earliest occurrence, or mere existence, over the set of logged events. */
  ghost predicate FactsAbout(f: Facts, log: set<Event>) {
    && IsEarliest(f.answeredAt, log, IsStart)
    && IsEarliest(f.playbackStartedAt, log, IsPlayback)
    && IsEarliest(f.endedAt, log, IsEnd)
    && (f.playbackCompleted <==> Happened(log, IsPlayed))
    && (f.dtmfAck <==> Happened(log, IsAck))
    && (f.optedOut <==> Happened(log, IsOptOut))
  }

  predicate Fresh(s: CallState) { s == Cleared(s) }

  lemma EarliestStep(r: Option<int>, log: set<Event>, p: Event -> bool, e: Event)
    requires IsEarliest(r, log, p)
    ensures IsEarliest(if p(e) then Some(Earliest(r, e.at)) else r, log + {e}, p)
  {
    if r.Some? {
      var w :| w in log && p(w) && w.at == r.value;
      assert w in log + {e};
    }
    assert e in log + {e};
  }

  lemma HappenedStep(log: set<Event>, p: Event -> bool, e: Event)
    ensures Happened(log + {e}, p) <==> Happened(log, p) || p(e)
  {
    assert e in log + {e};
    if Happened(log, p) {
      var w :| w in log && p(w);
      assert w in log + {e};
    }
  }

  /** What one event does to the facts, with the status machinery left out. */
  function NextFacts(f: Facts, e: Event): Facts {
    Facts(if IsStart(e) then Some(Earliest(f.answeredAt, e.at)) else f.answeredAt,
          if IsPlayback(e) then Some(Earliest(f.playbackStartedAt, e.at)) else f.playbackStartedAt,
          if IsEnd(e) then Some(Earliest(f.endedAt, e.at)) else f.endedAt,
          f.playbackCompleted || IsPlayed(e), f.dtmfAck || IsAck(e), f.optedOut || IsOptOut(e))
  }

  lemma FactsStep(s: CallState, e: Event)
    ensures FactsOf(Applied(s, e)) == NextFacts(FactsOf(s), e)
  {
  }

  lemma NextFactsAbout(f: Facts, log: set<Event>, e: Event)
    requires FactsAbout(f, log)
    ensures FactsAbout(NextFacts(f, e), log + {e})
  {
    EarliestStep(f.answeredAt, log, IsStart, e);
    EarliestStep(f.playbackStartedAt, log, IsPlayback, e);
    EarliestStep(f.endedAt, log, IsEnd, e);
    HappenedStep(log, IsPlayed, e);
    HappenedStep(log, IsAck, e);
    HappenedStep(log, IsOptOut, e);
  }

  lemma {:induction false} FoldFacts(s: CallState, es: seq<Event>)
    requires Fresh(s)
    ensures FactsAbout(FactsOf(Fold(s, es)), Elements(es))
  {
    if es != [] {
      var before, e := es[..|es| - 1], es[|es| - 1];
      FoldFacts(s, before);
      FactsStep(Fold(s, before), e);
      NextFactsAbout(FactsOf(Fold(s, before)), Elements(before), e);
      assert es == before + [e];
      assert Elements(es) == Elements(before) + {e};
    }
  }

  lemma ProjectedKeepsDuration(s: CallState, e: Event)
    ensures Projected(s, e).durationSec == s.durationSec
    ensures s.answeredAt.Some? && s.endedAt.Some? ==> Projected(s, e).answeredAt.Some? && Projected(s, e).endedAt.Some?
  {
    if e.kind == ChannelDestroyed { FinalisedColumns(Ended(s, e), e.payload); }
  }

  /** The duration is recorded exactly when both ends are known, and is never negative. */
  lemma {:induction false} DurationKnown(s: CallState, es: seq<Event>)
    requires Fresh(s)
    ensures var r := Fold(s, es);
            && (r.durationSec.Some? <==> r.answeredAt.Some? && r.endedAt.Some?)
            && (r.durationSec.Some? ==> r.durationSec.value >= 0)
  {
    if es != [] {
      DurationKnown(s, es[..|es| - 1]);
      ProjectedKeepsDuration(Fold(s, es[..|es| - 1]), es[|es| - 1]);
    }
  }

  lemma FactsAreUnique(f: Facts, g: Facts, log: set<Event>)
    requires FactsAbout(f, log) && FactsAbout(g, log)
    ensures f == g
  {
    EarliestIsUnique(f.answeredAt, g.answeredAt, log, IsStart);
    EarliestIsUnique(f.playbackStartedAt, g.playbackStartedAt, log, IsPlayback);
    EarliestIsUnique(f.endedAt, g.endedAt, log, IsEnd);
  }

  lemma EarliestIsUnique(a: Option<int>, b: Option<int>, log: set<Event>, p: Event -> bool)
    requires IsEarliest(a, log, p) && IsEarliest(b, log, p)
    ensures a == b
  {
  }

  /** Arrival order and redelivery do not matter for the facts: two deliveries of the same events,
      in any order and with any repetition, leave the same facts, and those are the closed form. */
  lemma FactsIgnoreOrderAndRedelivery(s: CallState, a: seq<Event>, b: seq<Event>)
    requires Fresh(s) && KeysDetermine(a) && KeysDetermine(b) && Elements(a) == Elements(b)
    ensures FactsAbout(FactsOf(Live(Row(s, []), a).state), Elements(a))
    ensures FactsOf(Live(Row(s, []), a).state) == FactsOf(Live(Row(s, []), b).state)
  {
    LiveIsFoldOfLog(s, a);
    LiveIsFoldOfLog(s, b);
    DedupedHoldsAll(a);
    DedupedHoldsAll(b);
    FoldFacts(s, Deduped(a));
    FoldFacts(s, Deduped(b));
    FactsAreUnique(FactsOf(Fold(s, Deduped(a))), FactsOf(Fold(s, Deduped(b))), Elements(a));
  }

  /** Replaying the log in any order recovers every fact of the live row. */
  lemma RebuildKeepsFacts(s: CallState, arrivals: seq<Event>, replay: seq<Event>)
    requires Fresh(s)
    requires multiset(replay) == multiset(Live(Row(s, []), arrivals).log)
    ensures var live := Live(Row(s, []), arrivals).state;
            FactsOf(Fold(Cleared(live), replay)) == FactsOf(live)
  {
    var r := Live(Row(s, []), arrivals);
    LiveIsFoldOfLog(s, arrivals);
    FoldFacts(s, r.log);
    FoldFacts(Cleared(r.state), replay);
    SameElements(replay, r.log);
    FactsAreUnique(FactsOf(Fold(Cleared(r.state), replay)), FactsOf(r.state), Elements(r.log));
  }

  lemma SameElements(a: seq<Event>, b: seq<Event>)
    requires multiset(a) == multiset(b)
    ensures Elements(a) == Elements(b)
  {
    forall e ensures e in a <==> e in b {
      assert e in a <==> e in multiset(a);
      assert e in b <==> e in multiset(b);
    }
  }

  // ------------------------------------------------------------- the status, on its own

  /** All that the status transitions read: whether an answer was seen, and the status. */
  datatype Phase = Phase(answered: bool, status: CallStatus)

  function PhaseOf(s: CallState): Phase { Phase(s.answeredAt.Some?, s.status) }

  function NextPhase(p: Phase, e: Event): Phase {
    if e.kind == StasisStart then Phase(true, Advanced(p.status, Answered))
    else if e.kind == AmdResult && e.payload.machine then Phase(p.answered, Advanced(p.status, AnsweredMachine))
    else if e.kind == ChannelDestroyed then
      if !p.answered then Phase(false, Advanced(p.status, Verdict(e.payload)))
      else if p.status != AnsweredMachine then Phase(true, Advanced(p.status, Answered))
      else p
    else p
  }

  function FoldPhase(p: Phase, es: seq<Event>): Phase {
    if es == [] then p else NextPhase(FoldPhase(p, es[..|es| - 1]), es[|es| - 1])
  }

  lemma PhaseStep(s: CallState, e: Event)
    ensures PhaseOf(Applied(s, e)) == NextPhase(PhaseOf(s), e)
  {
  }

  /** The status after one event, by the columns. A call that has ended keeps its status; an answer answers it, and a
      machine's verdict makes it a machine's. A destroyed channel leaves an answered call answered; without an answer it
      is unknown when the reconciler says so, unanswered without a cause, and otherwise goes by the cause. */
  lemma StatusSays(s: CallState, e: Event)
    ensures var t, p := Applied(s, e).status, e.payload;
            if s.status in {NoAnswer, Busy, Failed, Unknown, Cancelled, Blocked} then t == s.status
            else if e.kind == StasisStart then t == Answered
            else if e.kind == AmdResult then t == (if p.machine then AnsweredMachine else s.status)
            else if e.kind != ChannelDestroyed then t == s.status
            else if s.answeredAt.Some? then t == (if s.status == AnsweredMachine then AnsweredMachine else Answered)
            else if p.origin == "reconciler" then t == Unknown
            else
              && (p.cause.None? || p.cause.value in {18, 19} ==> t == NoAnswer)
              && (p.cause == Some(16) ==> t == Answered)
              && (p.cause == Some(17) ==> t == Busy)
              && (p.cause.Some? && p.cause.value !in {16, 17, 18, 19} ==> t == Failed)
  {
    PhaseStep(s, e);
  }

  lemma {:induction false} FoldPhaseOf(s: CallState, es: seq<Event>)
    ensures PhaseOf(Fold(s, es)) == FoldPhase(PhaseOf(s), es)
  {
    if es != [] {
      FoldPhaseOf(s, es[..|es| - 1]);
      PhaseStep(Fold(s, es[..|es| - 1]), es[|es| - 1]);
    }
  }

  // ---------------------------------------------------------------------- forward only

  lemma {:induction false} PhaseForward(p: Phase, es: seq<Event>)
    ensures var q := FoldPhase(p, es);
            && Rank(q.status) >= Rank(p.status)
            && (Terminal(p.status) ==> q.status == p.status)
            && (p.answered ==> q.answered)
            && (p.answered && !Terminal(p.status) ==> !Terminal(q.status))
  {
    if es != [] {
      PhaseForward(p, es[..|es| - 1]);
    }
  }

  /** Status only moves up, a terminal status is final, and a call that was answered before any
      outcome was recorded never becomes terminal through events. */
  lemma FoldForward(s: CallState, es: seq<Event>)
    ensures Rank(Fold(s, es).status) >= Rank(s.status)
    ensures Terminal(s.status) ==> Fold(s, es).status == s.status
    ensures s.answeredAt.Some? && !Terminal(s.status) ==> !Terminal(Fold(s, es).status)
  {
    FoldPhaseOf(s, es);
    PhaseForward(PhaseOf(s), es);
  }

  function Seconds(answered: Option<int>, ended: Option<int>): Option<int> {
    if answered.Some? && ended.Some? then Some(Max(0, ended.value - answered.value) / 1_000_000) else None
  }

  lemma CauseColumns(s: CallState, e: Event)
    ensures Projected(s, e).originatedAt == s.originatedAt
    ensures Projected(s, e).hangupCause == if IsEnd(e) && e.payload.cause.Some? then e.payload.cause else s.hangupCause
    ensures Projected(s, e).sipResponseCode ==
            if IsEnd(e) && e.payload.sip.Some? then e.payload.sip else s.sipResponseCode
  {
    if e.kind == ChannelDestroyed { FinalisedColumns(Ended(s, e), e.payload); }
  }

  lemma FinalisedColumns(s: CallState, p: Payload)
    ensures Finalised(s, p) == s.(status := Finalised(s, p).status)
  {
  }

  lemma TimedColumns(s: CallState)
    ensures var r := Timed(s);
            && r == s.(durationSec := r.durationSec)
            && r.durationSec == if s.durationSec.Some? then s.durationSec else Seconds(s.answeredAt, s.endedAt)
  {
  }

  /** The columns that are neither a fact nor the status. */
  lemma OtherColumns(s: CallState, e: Event)
    ensures Applied(s, e).originatedAt == s.originatedAt
    ensures Applied(s, e).hangupCause == if IsEnd(e) && e.payload.cause.Some? then e.payload.cause else s.hangupCause
    ensures Applied(s, e).sipResponseCode ==
            if IsEnd(e) && e.payload.sip.Some? then e.payload.sip else s.sipResponseCode
  {
    CauseColumns(s, e);
    TimedColumns(Projected(s, e));
  }

  lemma DurationColumn(s: CallState, e: Event)
    ensures var r := Applied(s, e);
            r.durationSec == if s.durationSec.Some? then s.durationSec else Seconds(r.answeredAt, r.endedAt)
  {
    ProjectedKeepsDuration(s, e);
    TimedColumns(Projected(s, e));
  }

  /** Applying the same event twice in a row is the same as applying it once. */
  lemma ApplyTwice(s: CallState, e: Event)
    ensures Applied(Applied(s, e), e) == Applied(s, e)
  {
    var t := Applied(s, e);
    var u := Applied(t, e);
    FactsStep(s, e);
    FactsStep(t, e);
    PhaseStep(s, e);
    PhaseStep(t, e);
    ApplyTwiceOthers(s, e);
    assert FactsOf(u) == FactsOf(t) && PhaseOf(u) == PhaseOf(t);
  }

  lemma ApplyTwiceOthers(s: CallState, e: Event)
    ensures var t, u := Applied(s, e), Applied(Applied(s, e), e);
            && u.originatedAt == t.originatedAt && u.durationSec == t.durationSec
            && u.hangupCause == t.hangupCause && u.sipResponseCode == t.sipResponseCode
  {
    var t := Applied(s, e);
    FactsStep(s, e);
    FactsStep(t, e);
    OtherColumns(s, e);
    OtherColumns(t, e);
    DurationColumn(s, e);
    DurationColumn(t, e);
  }

  // ------------------------------------------------------- what the status depends on

  predicate MovesStatus(e: Event) {
    e.kind == StasisStart || e.kind == ChannelDestroyed || (e.kind == AmdResult && e.payload.machine)
  }

  function Relevant(es: seq<Event>): seq<Event> {
    if es == [] then []
    else Relevant(es[..|es| - 1]) + (if MovesStatus(es[|es| - 1]) then [es[|es| - 1]] else [])
  }

  lemma {:induction false} PhaseReadsOnlyRelevant(p: Phase, es: seq<Event>)
    ensures FoldPhase(p, es) == FoldPhase(p, Relevant(es))
  {
    if es != [] {
      PhaseReadsOnlyRelevant(p, es[..|es| - 1]);
      var last := es[|es| - 1];
      var kept := Relevant(es[..|es| - 1]);
      if MovesStatus(last) {
        assert (kept + [last])[..|kept|] == kept;
      } else {
        assert Relevant(es) == kept;
      }
    }
  }

  /** Status is a function of the arrival subsequence of answers, machine verdicts and destroyed
      channels: every other event can be moved, added or removed without changing it. */
  lemma StatusReadsOnlyRelevant(s: CallState, es: seq<Event>, es': seq<Event>)
    requires Relevant(es) == Relevant(es')
    ensures Fold(s, es).status == Fold(s, es').status
  {
    FoldPhaseOf(s, es);
    FoldPhaseOf(s, es');
    PhaseReadsOnlyRelevant(PhaseOf(s), es);
    PhaseReadsOnlyRelevant(PhaseOf(s), es');
  }

  lemma {:induction false} PhaseConcat(p: Phase, a: seq<Event>, b: seq<Event>)
    ensures FoldPhase(p, a + b) == FoldPhase(FoldPhase(p, a), b)
  {
    if b == [] {
      assert a + b == a;
    } else {
      PhaseConcat(p, a, b[..|b| - 1]);
      assert (a + b)[..|a + b| - 1] == a + b[..|b| - 1];
    }
  }

  // ------------------------------------------------ exactly when status ignores order

  /** A destroyed channel that would give an unanswered call an outcome. */
  predicate Closes(e: Event) { e.kind == ChannelDestroyed && Terminal(Verdict(e.payload)) }

  /** A destroyed channel with cause 16: read as ANSWERED even when no answer was seen. */
  predicate ClearsNormally(e: Event) { e.kind == ChannelDestroyed && !Terminal(Verdict(e.payload)) }

  predicate IsMachine(e: Event) { e.kind == AmdResult && e.payload.machine }

  /** Readable off the set of events before any of them is applied. */
  ghost predicate Confluent(log: set<Event>) {
    if Happened(log, Closes) then
      && !Happened(log, IsStart)
      && forall d, d' :: d in log && d' in log && Closes(d) && Closes(d') ==> Verdict(d.payload) == Verdict(d'.payload)
    else
      !(Happened(log, IsMachine) && (Happened(log, IsStart) || Happened(log, ClearsNormally)))
  }

  ghost predicate Ordering(es: seq<Event>, log: set<Event>) {
    Elements(es) == log && forall i, j :: 0 <= i < j < |es| ==> es[i] != es[j]
  }

  /** The status of a confluent log, with no order mentioned. */
  ghost predicate StatusAbout(status: CallStatus, initial: CallStatus, log: set<Event>) {
    if Happened(log, Closes) then exists d :: d in log && Closes(d) && status == Verdict(d.payload)
    else if Happened(log, IsMachine) then status == AnsweredMachine
    else if Happened(log, IsStart) || Happened(log, ClearsNormally) then status == Answered
    else status == initial
  }

  /** Without a closing hangup the call stays open; without an answer event it stays unanswered. */
  lemma {:induction false} OpenOrUnanswered(p: Phase, es: seq<Event>)
    ensures !Terminal(p.status) && (forall e :: e in es ==> !Closes(e)) ==> !Terminal(FoldPhase(p, es).status)
    ensures !p.answered && (forall e :: e in es ==> !IsStart(e)) ==> !FoldPhase(p, es).answered
  {
    if es != [] {
      OpenOrUnanswered(p, es[..|es| - 1]);
      assert es[|es| - 1] in es;
    }
  }

  /** The two phases a cleared row can be in. */
  predicate Opening(p: Phase) { !p.answered && p.status in {Scheduled, Dialing} }

  lemma {:induction false} HasHappened(es: seq<Event>, p: Event -> bool)
    ensures Has(es, p) <==> Happened(Elements(es), p)
  {
    if es != [] {
      var before, e := es[..|es| - 1], es[|es| - 1];
      HasHappened(before, p);
      assert es == before + [e];
      assert Elements(es) == Elements(before) + {e};
      HappenedStep(Elements(before), p, e);
    }
  }

  /** Never answered, and every closing hangup says `v`: the first one decides. */
  lemma {:induction false} ClosedStatus(p: Phase, es: seq<Event>, v: CallStatus, contradicts: Event -> bool)
    requires forall e :: contradicts(e) <==> Closes(e) && Verdict(e.payload) != v
    requires Opening(p) && Terminal(v) && !Has(es, IsStart) && !Has(es, contradicts)
    ensures !FoldPhase(p, es).answered
    ensures if Has(es, Closes) then FoldPhase(p, es).status == v else !Terminal(FoldPhase(p, es).status)
  {
    if es != [] {
      ClosedStatus(p, es[..|es| - 1], v, contradicts);
    }
  }

  /** No closing hangup and no machine verdict: ANSWERED as soon as anything says so. */
  lemma {:induction false} AnsweredStatus(p: Phase, es: seq<Event>)
    requires Opening(p) && !Has(es, Closes) && !Has(es, IsMachine)
    ensures FoldPhase(p, es).status == if Has(es, IsStart) || Has(es, ClearsNormally) then Answered else p.status
  {
    if es != [] {
      AnsweredStatus(p, es[..|es| - 1]);
    }
  }

  /** No hangup and no answer: only a machine verdict moves the status. */
  lemma {:induction false} MachineStatus(p: Phase, es: seq<Event>)
    requires Opening(p) && !Has(es, Closes) && !Has(es, ClearsNormally) && !Has(es, IsStart)
    ensures FoldPhase(p, es).status == if Has(es, IsMachine) then AnsweredMachine else p.status
  {
    if es != [] {
      MachineStatus(p, es[..|es| - 1]);
    }
  }

  lemma ConfluentStatus(p: Phase, es: seq<Event>)
    requires Opening(p) && Confluent(Elements(es))
    ensures StatusAbout(FoldPhase(p, es).status, p.status, Elements(es))
  {
    HasHappened(es, Closes);
    HasHappened(es, IsStart);
    HasHappened(es, IsMachine);
    HasHappened(es, ClearsNormally);
    if Has(es, Closes) {
      var d :| d in Elements(es) && Closes(d);
      var contradicts := (e: Event) => Closes(e) && Verdict(e.payload) != Verdict(d.payload);
      HasHappened(es, contradicts);
      ClosedStatus(p, es, Verdict(d.payload), contradicts);
    } else if Has(es, IsMachine) {
      MachineStatus(p, es);
    } else {
      AnsweredStatus(p, es);
    }
  }

  lemma {:induction false} Enumerate(log: set<Event>) returns (es: seq<Event>)
    ensures Ordering(es, log)
    decreases |log|
  {
    if log == {} {
      es := [];
    } else {
      var e :| e in log;
      var rest;
      es, rest := OrderingFrom(e, log);
    }
  }

  lemma {:induction false} OrderingFrom(first: Event, log: set<Event>) returns (es: seq<Event>, rest: seq<Event>)
    requires first in log
    ensures Ordering(es, log) && es == [first] + rest
    decreases |log|, 0
  {
    rest := Enumerate(log - {first});
    es := [first] + rest;
    assert Elements(es) == {first} + Elements(rest) == log;
    forall i | 0 < i < |es| ensures es[i] != first {
      assert es[i] in Elements(rest);
    }
  }

  lemma OrderingTo(last: Event, log: set<Event>) returns (es: seq<Event>, rest: seq<Event>)
    requires last in log
    ensures Ordering(es, log) && es == rest + [last]
  {
    rest := Enumerate(log - {last});
    es := rest + [last];
    assert Elements(es) == Elements(rest) + {last} == log;
    forall i | 0 <= i < |rest| ensures es[i] != last {
      assert es[i] in Elements(rest);
    }
  }

  /** Two orders of a log whose closing hangup meets an answer or a contradicting hangup. */
  lemma ClosingOrdersDisagree(p: Phase, log: set<Event>, d: Event, d': Event) returns (a: seq<Event>, b: seq<Event>)
    requires Opening(p) && d in log && d' in log && Closes(d)
    requires IsStart(d') || (Closes(d') && Verdict(d.payload) != Verdict(d'.payload))
    ensures Ordering(a, log) && Ordering(b, log)
    ensures FoldPhase(p, a).status != FoldPhase(p, b).status
  {
    var ra, rb;
    a, ra := OrderingFrom(d, log);
    b, rb := OrderingFrom(d', log);
    PhaseConcat(p, [d], ra);
    PhaseConcat(p, [d'], rb);
    assert [d][..0] == [] && [d'][..0] == [];
    assert FoldPhase(p, [d]) == NextPhase(FoldPhase(p, []), d);
    assert FoldPhase(p, [d']) == NextPhase(FoldPhase(p, []), d');
    PhaseForward(FoldPhase(p, [d]), ra);
    PhaseForward(FoldPhase(p, [d']), rb);
  }

  /** An order of a log without closing hangups that ends in an event saying ANSWERED or MACHINE. */
  lemma OrderEndingIn(p: Phase, log: set<Event>, x: Event) returns (es: seq<Event>)
    requires Opening(p) && x in log && !Happened(log, Closes)
    requires IsMachine(x) || IsStart(x) || (ClearsNormally(x) && !Happened(log, IsStart))
    ensures Ordering(es, log)
    ensures FoldPhase(p, es).status == if IsMachine(x) then AnsweredMachine else Answered
  {
    var rest;
    es, rest := OrderingTo(x, log);
    forall e | e in rest ensures e in log {
      assert e in es && e in Elements(es);
    }
    OpenOrUnanswered(p, rest);
    assert es[..|es| - 1] == rest;
  }

  lemma PhaseOrderIndependentExactly(p: Phase, log: set<Event>)
    requires Opening(p)
    ensures Confluent(log) <==> PhasesAgree(p, log)
  {
    if Confluent(log) {
      forall a, b | Ordering(a, log) && Ordering(b, log) ensures FoldPhase(p, a).status == FoldPhase(p, b).status {
        ConfluentStatus(p, a);
        ConfluentStatus(p, b);
      }
    } else if Happened(log, Closes) {
      var d, d' :| d in log && d' in log && Closes(d)
          && (IsStart(d') || (Closes(d') && Verdict(d.payload) != Verdict(d'.payload)));
      var a, b := ClosingOrdersDisagree(p, log, d, d');
    } else {
      var m, x :| m in log && x in log && IsMachine(m)
          && (IsStart(x) || (ClearsNormally(x) && !Happened(log, IsStart)));
      var a := OrderEndingIn(p, log, m);
      var b := OrderEndingIn(p, log, x);
    }
  }

  /** The projection promises that order does not matter. For the status that is so exactly for
      confluent logs: no outcome-giving hangup together with an answer or with a contradicting
      hangup, and no machine verdict together with anything that says ANSWERED. */
  lemma StatusOrderIndependentExactly(s: CallState, log: set<Event>)
    requires Fresh(s)
    ensures Confluent(log) <==>
            forall a, b :: Ordering(a, log) && Ordering(b, log) ==> Fold(s, a).status == Fold(s, b).status
  {
    PhaseOrderIndependentExactly(PhaseOf(s), log);
    StatusIsPhase(s, PhaseOf(s), log);
  }

  ghost predicate PhasesAgree(p: Phase, log: set<Event>) {
    forall a, b :: Ordering(a, log) && Ordering(b, log) ==> FoldPhase(p, a).status == FoldPhase(p, b).status
  }

  lemma StatusIsPhase(s: CallState, p: Phase, log: set<Event>)
    requires p == PhaseOf(s)
    ensures PhasesAgree(p, log) <==>
            forall a, b :: Ordering(a, log) && Ordering(b, log) ==> Fold(s, a).status == Fold(s, b).status
  {
    if PhasesAgree(p, log) {
      forall a, b | Ordering(a, log) && Ordering(b, log) ensures Fold(s, a).status == Fold(s, b).status {
        FoldStatus(s, a);
        FoldStatus(s, b);
      }
    } else {
      var a, b :| Ordering(a, log) && Ordering(b, log) && FoldPhase(p, a).status != FoldPhase(p, b).status;
      FoldStatus(s, a);
      FoldStatus(s, b);
    }
  }

  lemma FoldStatus(s: CallState, es: seq<Event>)
    ensures Fold(s, es).status == FoldPhase(PhaseOf(s), es).status
  {
    FoldPhaseOf(s, es);
  }

  const LATE_ANSWER := Event(Ari, "a", StasisStart, Payload("", false, None, None, ""), 1)
  const EARLY_HANGUP := Event(Ari, "h", ChannelDestroyed, Payload("", false, Some(19), None, ""), 30)

  /** Live and replayed status of a two-event delivery. */
  lemma PairStatus(s: CallState, a: Event, b: Event)
    requires !SameKey(a, b)
    ensures Live(Row(s, []), [a, b]).state.status == NextPhase(NextPhase(PhaseOf(s), a), b).status
    ensures Fold(s, [b, a]).status == NextPhase(NextPhase(PhaseOf(s), b), a).status
  {
    PairDeduped(a, b);
    LiveIsFoldOfLog(s, [a, b]);
    FoldPhaseOf(s, [a, b]);
    FoldPhaseOf(s, [b, a]);
    PairPhases(PhaseOf(s), a, b);
    PairPhases(PhaseOf(s), b, a);
  }

  lemma PairPhases(p: Phase, a: Event, b: Event)
    ensures FoldPhase(p, [a, b]) == NextPhase(NextPhase(p, a), b)
  {
    assert [a, b][..1] == [a] && [a][..0] == [];
    assert FoldPhase(p, [a]) == NextPhase(FoldPhase(p, []), a);
  }

  lemma PairDeduped(a: Event, b: Event)
    requires !SameKey(a, b)
    ensures Deduped([a, b]) == [a, b]
  {
    assert [a, b][..1] == [a] && [a][..0] == [];
    assert Deduped([a]) == [a];
  }

  /** A rebuild that does not reproduce the live row: the hangup arrives first, the earlier answer
      late. Live the call stays NO_ANSWER; replayed in occurrence order it is ANSWERED. */
  lemma RebuildCanChangeStatus(s: CallState)
    requires Fresh(s)
    ensures Live(Row(s, []), [EARLY_HANGUP, LATE_ANSWER]).state.status == NoAnswer
    ensures Fold(s, [LATE_ANSWER, EARLY_HANGUP]).status == Answered
  {
    assert !SameKey(EARLY_HANGUP, LATE_ANSWER) by {
      assert EARLY_HANGUP.key[0] != LATE_ANSWER.key[0];
    }
    PairStatus(s, EARLY_HANGUP, LATE_ANSWER);
    LateAnswerPhases(PhaseOf(s));
  }

  lemma LateAnswerPhases(p: Phase)
    requires Opening(p)
    ensures NextPhase(NextPhase(p, EARLY_HANGUP), LATE_ANSWER).status == NoAnswer
    ensures NextPhase(NextPhase(p, LATE_ANSWER), EARLY_HANGUP).status == Answered
  {
    assert Verdict(EARLY_HANGUP.payload) == NoAnswer;
  }

  function AnswerAt(at: int): Event { Event(Ari, "a", StasisStart, Payload("", false, None, None, ""), at) }

  function EndAt(at: int): Event { Event(Ari, "e", StasisEnd, Payload("", false, None, None, ""), at) }

  lemma FoldThree(s: CallState, a: Event, b: Event, c: Event)
    ensures Fold(s, [a, b, c]) == Applied(Applied(Applied(s, a), b), c)
  {
    assert [a, b, c][..2] == [a, b] && [a, b][..1] == [a] && [a][..0] == [];
    assert Fold(s, [a]) == Applied(Fold(s, []), a);
    assert Fold(s, [a, b]) == Applied(Fold(s, [a]), b);
  }

  /** The duration is fixed by the first answer and end that are known together. When an earlier answer arrives
      after them the row keeps a duration that its own times contradict, and a replay in occurrence order mends it. */
  lemma DurationKeepsItsFirstReading(s: CallState, first: int, second: int, end: int)
    requires Fresh(s) && first < second <= end
    ensures var live, replayed := Fold(s, [AnswerAt(second), EndAt(end), AnswerAt(first)]),
                                  Fold(s, [AnswerAt(first), AnswerAt(second), EndAt(end)]);
            && live.answeredAt == replayed.answeredAt == Some(first) && live.endedAt == replayed.endedAt == Some(end)
            && live.durationSec == Some((end - second) / 1_000_000)
            && replayed.durationSec == Some((end - first) / 1_000_000)
  {
    FoldThree(s, AnswerAt(second), EndAt(end), AnswerAt(first));
    FoldThree(s, AnswerAt(first), AnswerAt(second), EndAt(end));
  }
}
