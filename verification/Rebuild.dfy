/**
 * When replaying the log gives the row back (backend/app/calls/projection.py, `rebuild`), over every run of
 * origination, events, sweeps and reconnects. Every column has a closed form over the order in which events are
 * folded, so the row and its replay compare by where a few events stand in arrival and in occurrence order.
 */
module Rebuild {
  import opened Common
  import opened CallProjection
  import opened Outcomes
  import opened Reconciler
  import opened Sorting

  // ------------------------------------------------------------------- where events stand

  /** The position of the first event of a kind, or the length when there is none. */
  function First(es: seq<Event>, p: Event -> bool): (i: nat)
    ensures i <= |es| && (i < |es| ==> p(es[i])) && forall j :: 0 <= j < i ==> !p(es[j])
    ensures i < |es| <==> Has(es, p)
  {
    if es == [] then 0
    else
      var n := |es| - 1;
      var i := First(es[..n], p);
      if i < n || p(es[n]) then i else |es|
  }

  /** What the event at `i` says of an open call; a normal clearing speaks only before any answer. */
  function Word(es: seq<Event>, i: nat): Option<CallStatus>
    requires i < |es|
  {
    if IsMachine(es[i]) then Some(AnsweredMachine)
    else if IsStart(es[i]) || (ClearsNormally(es[i]) && !Has(es[..i], IsStart)) then Some(Answered)
    else None
  }

  /** The last word said, if any. */
  function LastWord(es: seq<Event>): Option<CallStatus> {
    if es == [] then None
    else
      var n := |es| - 1;
      if Word(es, n).Some? then Word(es, n) else LastWord(es[..n])
  }

  /** A closing hangup stands before every answer. */
  predicate Closed(es: seq<Event>) { First(es, Closes) < First(es, IsStart) }

  /** A closing hangup before every answer decides, the first one; otherwise the last word does. */
  function Decision(es: seq<Event>): Option<CallStatus> {
    if Closed(es) then Some(Verdict(es[First(es, Closes)].payload)) else LastWord(es)
  }

  function OrElse<T>(o: Option<T>, x: T): T { if o.Some? then o.value else x }

  // ----------------------------------------------------------------------- times and causes

  function Soonest(es: seq<Event>, p: Event -> bool): Option<int> {
    if es == [] then None
    else
      var front, e := Soonest(es[..|es| - 1], p), es[|es| - 1];
      if p(e) then Some(Earliest(front, e.at)) else front
  }

  /** Whole seconds from the earliest answer to the earliest end. */
  function Span(es: seq<Event>): Option<int> {
    var answered, ended := Soonest(es, IsStart), Soonest(es, IsEnd);
    if answered.Some? && ended.Some? then Some(Max(0, ended.value - answered.value) / 1_000_000) else None
  }

  /** The shortest prefix that holds both an answer and an end, or everything when there is none. */
  function FirstReading(es: seq<Event>): seq<Event> {
    var last := Max(First(es, IsStart), First(es, IsEnd));
    if last < |es| then es[..last + 1] else es
  }

  function LastCause(es: seq<Event>): Option<int> {
    if es == [] then None
    else
      var e := es[|es| - 1];
      if IsEnd(e) && e.payload.cause.Some? then e.payload.cause else LastCause(es[..|es| - 1])
  }

  function LastSip(es: seq<Event>): Option<int> {
    if es == [] then None
    else
      var e := es[|es| - 1];
      if IsEnd(e) && e.payload.sip.Some? then e.payload.sip else LastSip(es[..|es| - 1])
  }

  /** Every column of the row, from the places of events in `es`; `s` gives the time of origination. */
  function ClosedForm(s: CallState, es: seq<Event>): CallState {
    CallState(
      s.originatedAt, Soonest(es, IsStart), Soonest(es, IsPlayback), Soonest(es, IsEnd), Span(FirstReading(es)),
      OrElse(Decision(es), Cleared(s).status), Has(es, IsPlayed), Has(es, IsAck), Has(es, IsOptOut),
      LastCause(es), LastSip(es))
  }

  // ------------------------------------------------------------------------- one event more

  lemma FirstAppend(es: seq<Event>, e: Event, p: Event -> bool)
    ensures First(es + [e], p) == if Has(es, p) then First(es, p) else if p(e) then |es| else |es| + 1
  {
    assert (es + [e])[..|es|] == es;
  }

  lemma WordAppend(es: seq<Event>, e: Event)
    ensures Word(es + [e], |es|) ==
            if IsMachine(e) then Some(AnsweredMachine)
            else if IsStart(e) || (ClearsNormally(e) && !Has(es, IsStart)) then Some(Answered)
            else None
    ensures LastWord(es + [e]) == if Word(es + [e], |es|).Some? then Word(es + [e], |es|) else LastWord(es)
  {
    assert (es + [e])[..|es|] == es;
  }

  lemma {:induction false} LastWordMeans(es: seq<Event>)
    ensures LastWord(es).None? ==> forall i :: 0 <= i < |es| ==> Word(es, i).None?
    ensures LastWord(es).Some? ==>
              exists i :: 0 <= i < |es| && Word(es, i) == LastWord(es) && forall k :: i < k < |es| ==> Word(es, k).None?
  {
    if es != [] {
      var n := |es| - 1;
      LastWordMeans(es[..n]);
      forall i | 0 <= i < n ensures Word(es[..n], i) == Word(es, i) {
        assert es[..n][..i] == es[..i];
      }
    }
  }

  /** An answer is a word, and words are never outcomes. */
  lemma {:induction false} AnswerIsSaid(es: seq<Event>)
    ensures Has(es, IsStart) ==> LastWord(es).Some?
    ensures LastWord(es).Some? ==> LastWord(es).value in {Answered, AnsweredMachine}
  {
    if es != [] {
      AnswerIsSaid(es[..|es| - 1]);
    }
  }

  /** The phase that a sequence of events leaves, in closed form. */
  function Shape(es: seq<Event>, initial: CallStatus): Phase { Phase(Has(es, IsStart), OrElse(Decision(es), initial)) }

  lemma DecisionAppend(es: seq<Event>, e: Event)
    ensures Decision(es + [e]) ==
            if Closed(es) then Decision(es)
            else if Closes(e) && !Has(es, IsStart) then Some(Verdict(e.payload))
            else LastWord(es + [e])
  {
    FirstAppend(es, e, Closes);
    FirstAppend(es, e, IsStart);
    assert First(es, Closes) < |es| ==> (es + [e])[First(es, Closes)] == es[First(es, Closes)];
  }

  lemma ClosedIsTerminal(es: seq<Event>)
    ensures Closed(es) ==> Decision(es).Some? && Terminal(Decision(es).value)
    ensures !Closed(es) && Decision(es).Some? ==> Decision(es).value in {Answered, AnsweredMachine}
    ensures Has(es, IsStart) ==> Decision(es).Some?
    ensures !Closed(es) && !Has(es, IsStart) ==> !Has(es, Closes)
  {
    AnswerIsSaid(es);
  }

  lemma ShapeAppend(es: seq<Event>, e: Event, initial: CallStatus)
    requires initial in {Scheduled, Dialing}
    ensures NextPhase(Shape(es, initial), e) == Shape(es + [e], initial)
  {
    DecisionAppend(es, e);
    ClosedIsTerminal(es);
    FirstAppend(es, e, IsStart);
    WordAppend(es, e);
    PhaseCases(Shape(es, initial), e);
  }

  /** The same by cases, on what is known of the prefix alone. */
  lemma PhaseCases(p: Phase, e: Event)
    requires p.status in {Scheduled, Dialing, Answered, AnsweredMachine} || Terminal(p.status)
    requires p.answered && !Terminal(p.status) ==> p.status in {Answered, AnsweredMachine}
    ensures NextPhase(p, e).answered == (p.answered || IsStart(e))
    ensures Terminal(p.status) ==> NextPhase(p, e).status == p.status
    ensures !Terminal(p.status) ==>
              NextPhase(p, e).status ==
              if IsMachine(e) then AnsweredMachine
              else if IsStart(e) || (ClearsNormally(e) && !p.answered) then Answered
              else if Closes(e) && !p.answered then Verdict(e.payload)
              else p.status
  {
  }

  lemma SoonestAppend(es: seq<Event>, e: Event, p: Event -> bool)
    ensures Soonest(es + [e], p) == if p(e) then Some(Earliest(Soonest(es, p), e.at)) else Soonest(es, p)
  {
    assert (es + [e])[..|es|] == es;
  }

  lemma {:induction false} SoonestKnown(es: seq<Event>, p: Event -> bool)
    ensures Soonest(es, p).Some? <==> Has(es, p)
  {
    if es != [] {
      SoonestKnown(es[..|es| - 1], p);
    }
  }

  lemma ReadingAppend(es: seq<Event>, e: Event)
    ensures Has(es, IsStart) && Has(es, IsEnd) ==> FirstReading(es + [e]) == FirstReading(es)
    ensures !(Has(es, IsStart) && Has(es, IsEnd)) ==> FirstReading(es + [e]) == es + [e]
  {
    FirstAppend(es, e, IsStart);
    FirstAppend(es, e, IsEnd);
    var last := Max(First(es, IsStart), First(es, IsEnd));
    PrefixAppend(es, e, last);
    assert Has(es, IsStart) && Has(es, IsEnd) <==> last < |es|;
  }

  lemma PrefixAppend(es: seq<Event>, e: Event, last: nat)
    ensures last < |es| ==> (es + [e])[..last + 1] == es[..last + 1]
    ensures last == |es| ==> (es + [e])[..last + 1] == es + [e]
  {
  }

  lemma CausesAppend(es: seq<Event>, e: Event)
    ensures LastCause(es + [e]) == if IsEnd(e) && e.payload.cause.Some? then e.payload.cause else LastCause(es)
    ensures LastSip(es + [e]) == if IsEnd(e) && e.payload.sip.Some? then e.payload.sip else LastSip(es)
  {
    assert (es + [e])[..|es|] == es;
  }

  // ------------------------------------------------------------------ the fold, in closed form

  lemma ClosedPhase(s: CallState, es: seq<Event>)
    ensures PhaseOf(ClosedForm(s, es)) == Shape(es, Cleared(s).status)
  {
    SoonestKnown(es, IsStart);
  }

  /** The facts, from the places of events. */
  function LogFacts(es: seq<Event>): Facts {
    Facts(Soonest(es, IsStart), Soonest(es, IsPlayback), Soonest(es, IsEnd),
          Has(es, IsPlayed), Has(es, IsAck), Has(es, IsOptOut))
  }

  lemma LogFactsAppend(es: seq<Event>, e: Event)
    ensures LogFacts(es + [e]) == NextFacts(LogFacts(es), e)
  {
    SoonestAppend(es, e, IsStart);
    SoonestAppend(es, e, IsPlayback);
    SoonestAppend(es, e, IsEnd);
    FirstAppend(es, e, IsPlayed);
    FirstAppend(es, e, IsAck);
    FirstAppend(es, e, IsOptOut);
  }

  lemma ClosedDuration(es: seq<Event>, e: Event)
    ensures Span(FirstReading(es + [e])) ==
            if Span(FirstReading(es)).Some? then Span(FirstReading(es)) else Span(es + [e])
  {
    ReadingAppend(es, e);
    ReadingKnown(es);
  }

  /** A reading is the shortest prefix with both, so it has both exactly when the whole has. */
  lemma ReadingKnown(es: seq<Event>)
    ensures Span(FirstReading(es)).Some? <==> Has(es, IsStart) && Has(es, IsEnd)
  {
    var n := |FirstReading(es)|;
    assert FirstReading(es) == es[..n];
    KnownWithin(es, IsStart, n);
    KnownWithin(es, IsEnd, n);
  }

  lemma KnownWithin(es: seq<Event>, p: Event -> bool, n: nat)
    requires n <= |es|
    ensures Soonest(es[..n], p).Some? <==> First(es, p) < n
  {
    SoonestKnown(es[..n], p);
    FirstOfPrefix(es, p, n);
  }

  lemma FirstOfPrefix(es: seq<Event>, p: Event -> bool, n: nat)
    requires n <= |es|
    ensures Has(es[..n], p) <==> First(es, p) < n
  {
    if First(es, p) < n {
      assert es[..n][First(es, p)] == es[First(es, p)];
    }
    var m := First(es[..n], p);
    if m < n {
      assert es[m] == es[..n][m];
    }
  }

  lemma ClosedFacts(s: CallState, es: seq<Event>, e: Event)
    ensures FactsOf(Applied(ClosedForm(s, es), e)) == FactsOf(ClosedForm(s, es + [e]))
  {
    FactsStep(ClosedForm(s, es), e);
    LogFactsAppend(es, e);
  }

  lemma ClosedPhaseStep(s: CallState, es: seq<Event>, e: Event)
    ensures PhaseOf(Applied(ClosedForm(s, es), e)) == PhaseOf(ClosedForm(s, es + [e]))
  {
    PhaseStep(ClosedForm(s, es), e);
    ClosedPhase(s, es);
    ClosedPhase(s, es + [e]);
    ShapeAppend(es, e, Cleared(s).status);
  }

  lemma ClosedOthers(s: CallState, es: seq<Event>, e: Event)
    ensures var a, b := Applied(ClosedForm(s, es), e), ClosedForm(s, es + [e]);
            && a.originatedAt == b.originatedAt && a.hangupCause == b.hangupCause
            && a.sipResponseCode == b.sipResponseCode
  {
    OtherColumns(ClosedForm(s, es), e);
    CausesAppend(es, e);
  }

  lemma DurationTold(s: CallState, es: seq<Event>, e: Event)
    requires s.durationSec == Span(FirstReading(es)) && FactsOf(Applied(s, e)) == LogFacts(es + [e])
    ensures Applied(s, e).durationSec == Span(FirstReading(es + [e]))
  {
    DurationColumn(s, e);
    ClosedDuration(es, e);
    FactsGiveSpan(Applied(s, e), es + [e]);
  }

  lemma FactsGiveSpan(s: CallState, es: seq<Event>)
    requires FactsOf(s) == LogFacts(es)
    ensures Seconds(s.answeredAt, s.endedAt) == Span(es)
  {
  }

  lemma ClosedDurationStep(s: CallState, es: seq<Event>, e: Event)
    ensures Applied(ClosedForm(s, es), e).durationSec == ClosedForm(s, es + [e]).durationSec
  {
    ClosedFacts(s, es, e);
    DurationTold(ClosedForm(s, es), es, e);
  }

  lemma ClosedStep(s: CallState, es: seq<Event>, e: Event)
    ensures Applied(ClosedForm(s, es), e) == ClosedForm(s, es + [e])
  {
    ClosedFacts(s, es, e);
    ClosedPhaseStep(s, es, e);
    ClosedOthers(s, es, e);
    ClosedDurationStep(s, es, e);
    SameColumns(Applied(ClosedForm(s, es), e), ClosedForm(s, es + [e]));
  }

  lemma SameColumns(a: CallState, b: CallState)
    requires FactsOf(a) == FactsOf(b) && PhaseOf(a) == PhaseOf(b) && a.originatedAt == b.originatedAt
    requires a.durationSec == b.durationSec && a.hangupCause == b.hangupCause && a.sipResponseCode == b.sipResponseCode
    ensures a == b
  {
  }

  lemma ClosedEmpty(s: CallState)
    ensures ClosedForm(s, []) == Cleared(s)
  {
  }

  lemma ClosedStepTo(s: CallState, es: seq<Event>, whole: seq<Event>)
    requires whole != [] && es == whole[..|whole| - 1]
    ensures Applied(ClosedForm(s, es), whole[|whole| - 1]) == ClosedForm(s, whole)
  {
    assert es + [whole[|whole| - 1]] == whole;
    ClosedStep(s, es, whole[|whole| - 1]);
  }

  /** The fold of any events, column by column. */
  lemma {:induction false} FoldIsClosedForm(s: CallState, es: seq<Event>)
    requires Fresh(s)
    ensures Fold(s, es) == ClosedForm(s, es)
  {
    if es == [] {
      ClosedEmpty(s);
    } else {
      FoldIsClosedForm(s, es[..|es| - 1]);
      ClosedStepTo(s, es[..|es| - 1], es);
    }
  }

  /** Two orders leave the same status exactly when they decide alike. */
  lemma OrdersAgreeExactly(s: CallState, a: seq<Event>, b: seq<Event>)
    requires Fresh(s)
    ensures Fold(s, a).status == Fold(s, b).status <==> Decision(a) == Decision(b)
  {
    FoldIsClosedForm(s, a);
    FoldIsClosedForm(s, b);
    ClosedIsTerminal(a);
    ClosedIsTerminal(b);
  }

  // --------------------------------------------------------------------------- the duration

  lemma {:induction false} SoonestIsEarliest(es: seq<Event>, p: Event -> bool)
    ensures IsEarliest(Soonest(es, p), Elements(es), p)
  {
    if es != [] {
      var front, e := es[..|es| - 1], es[|es| - 1];
      SoonestIsEarliest(front, p);
      EarliestStep(Soonest(front, p), Elements(front), p, e);
      assert es == front + [e];
      assert Elements(es) == Elements(front) + {e};
    }
  }

  lemma SoonestIgnoresOrder(a: seq<Event>, b: seq<Event>, p: Event -> bool)
    requires Elements(a) == Elements(b)
    ensures Soonest(a, p) == Soonest(b, p)
  {
    SoonestIsEarliest(a, p);
    SoonestIsEarliest(b, p);
    EarliestIsUnique(Soonest(a, p), Soonest(b, p), Elements(a), p);
  }

  /**
   * The recorded duration is that of the first reading, so it agrees with the row's own times exactly when the
   * first answer and end known together span as many seconds as the earliest ones do.
   */
  lemma DurationAgreesExactly(s: CallState, es: seq<Event>)
    requires Fresh(s)
    ensures Fold(s, es).durationSec == Span(FirstReading(es))
    ensures Seconds(Fold(s, es).answeredAt, Fold(s, es).endedAt) == Span(es)
    ensures Fold(s, es).durationSec == Seconds(Fold(s, es).answeredAt, Fold(s, es).endedAt) <==>
            Span(FirstReading(es)) == Span(es)
  {
    FoldIsClosedForm(s, es);
    ClosedSpans(Fold(s, es), s, es);
  }

  lemma ClosedSpans(r: CallState, s: CallState, es: seq<Event>)
    requires r == ClosedForm(s, es)
    ensures r.durationSec == Span(FirstReading(es)) && Seconds(r.answeredAt, r.endedAt) == Span(es)
  {
  }

  // ------------------------------------------------------------- the replay, in occurrence order

  predicate Earlier(a: Event, b: Event) { a.at <= b.at }

  /** The log ordered by occurrence; events of one instant stay in the order they were received in. */
  function Replay(log: seq<Event>): seq<Event> { Sort(log, Earlier) }

  /** What `rebuild` leaves of a row. */
  function Rebuilt(r: Row): CallState { Fold(Cleared(r.state), Replay(r.log)) }

  lemma ReplayHoldsTheSame(log: seq<Event>)
    ensures multiset(Replay(log)) == multiset(log) && Elements(Replay(log)) == Elements(log)
    ensures Sorted(Replay(log), Earlier)
  {
    SortPermutes(log, Earlier);
    SameElements(Replay(log), log);
    SortSorts(log, Earlier);
  }

  /** In occurrence order the first is the earliest, from where it stands on. */
  lemma {:induction false} SortedSoonest(es: seq<Event>, p: Event -> bool)
    requires Sorted(es, Earlier)
    ensures Has(es, p) ==> Soonest(es, p) == Some(es[First(es, p)].at)
  {
    if es != [] {
      var front, e := es[..|es| - 1], es[|es| - 1];
      SortedSoonest(front, p);
      assert front + [e] == es;
      FirstAppend(front, e, p);
      SoonestKnown(front, p);
      if Has(front, p) {
        assert Earlier(es[First(front, p)], e);
      }
    }
  }

  lemma PrefixKeepsSoonest(es: seq<Event>, p: Event -> bool, n: nat)
    requires Sorted(es, Earlier) && First(es, p) < n <= |es|
    ensures Soonest(es[..n], p) == Soonest(es, p)
  {
    SortedSoonest(es, p);
    SortedSoonest(es[..n], p);
    FirstOfPrefix(es, p, n);
    var i, j := First(es, p), First(es[..n], p);
    assert es[..n][i] == es[i] && es[..n][j] == es[j];
    assert i == j;
  }

  /** So a replay always records the seconds between the row's own times. */
  lemma ReplaySpansAll(es: seq<Event>)
    requires Sorted(es, Earlier)
    ensures Span(FirstReading(es)) == Span(es)
  {
    var last := Max(First(es, IsStart), First(es, IsEnd));
    if last < |es| {
      PrefixKeepsSoonest(es, IsStart, last + 1);
      PrefixKeepsSoonest(es, IsEnd, last + 1);
      SameSpan(es[..last + 1], es);
    }
  }

  lemma SameSpan(a: seq<Event>, b: seq<Event>)
    requires Soonest(a, IsStart) == Soonest(b, IsStart) && Soonest(a, IsEnd) == Soonest(b, IsEnd)
    ensures Span(a) == Span(b)
  {
  }

  // ------------------------------------------------------------------------- over every run

  /** The status a CDR writes over the projection: any disposition but ANSWERED. */
  function ByCdr(c: Ident, w: World): Option<CallStatus> {
    if !StillUp(c.id, w) && c.id in w.cdrs && CdrStatus(w.cdrs[c.id].disposition) != Answered then
      Some(CdrStatus(w.cdrs[c.id].disposition))
    else None
  }

  function Overrules(t: Tracked, c: Ident, step: Step): Option<CallStatus> {
    match step
    case SweepPass(w, cutoff) => if Due(t, c, cutoff) then ByCdr(c, w) else None
    case ReconnectPass(w) => if InFlight(t.row.state.status) then ByCdr(c, w) else None
    case _ => None
  }

  /** The disposition written over the projection in the course of a run, if any. */
  function Overruled(t: Tracked, c: Ident, steps: seq<Step>): Option<CallStatus> {
    if steps == [] then None
    else
      var front := steps[..|steps| - 1];
      var ruling := Overrules(Run(t, c, front), c, steps[|steps| - 1]);
      if ruling.Some? then ruling else Overruled(t, c, front)
  }

  /** The workers' own events: a synthesised hangup, or a key that begins as origination's do. */
  predicate WorkerKey(e: Event) {
    e.source == Worker && e.kind != ChannelDestroyed ==> e.key != "" && e.key[0] == 'o'
  }

  /** The status of a call that nothing has been said about. */
  function Unstarted(s: CallState): CallStatus { if s.originatedAt.Some? then Dialing else Scheduled }

  /** Every column is told by the log, but for a status that a disposition overruled. */
  ghost predicate Told(r: Row, ruling: Option<CallStatus>) {
    && ColumnsTold(r.state, r.log)
    && StatusTold(r, ruling)
    && forall e :: e in r.log ==> WorkerKey(e)
  }

  predicate ColumnsTold(s: CallState, log: seq<Event>) {
    && FactsOf(s) == LogFacts(log)
    && s.durationSec == Span(FirstReading(log))
    && s.hangupCause == LastCause(log) && s.sipResponseCode == LastSip(log)
  }

  predicate StatusTold(r: Row, ruling: Option<CallStatus>) {
    && (ruling.Some? ==> Terminal(ruling.value))
    && r.state.status == OrElse(ruling, OrElse(Decision(r.log), Unstarted(r.state)))
  }

  lemma StatusStep(s: CallState, log: seq<Event>, ruling: Option<CallStatus>, e: Event)
    requires StatusTold(Row(s, log), ruling) && (s.answeredAt.Some? <==> Has(log, IsStart))
    ensures StatusTold(Row(Applied(s, e), log + [e]), ruling)
  {
    PhaseStep(s, e);
    OtherColumns(s, e);
    if ruling.Some? {
      PhaseMoves(PhaseOf(s), e);
    } else {
      assert PhaseOf(s) == Shape(log, Unstarted(s));
      ShapeAppend(log, e, Unstarted(s));
    }
  }

  lemma ColumnsStep(s: CallState, log: seq<Event>, e: Event)
    requires ColumnsTold(s, log)
    ensures ColumnsTold(Applied(s, e), log + [e])
  {
    FactsStep(s, e);
    LogFactsAppend(log, e);
    DurationTold(s, log, e);
    OtherColumns(s, e);
    CausesAppend(log, e);
  }

  lemma IngestedTold(r: Row, ruling: Option<CallStatus>, e: Event)
    requires Told(r, ruling) && WorkerKey(e)
    ensures Told(Ingested(r, e), ruling)
  {
    if !Seen(r.log, e) {
      ColumnsStep(r.state, r.log, e);
      SoonestKnown(r.log, IsStart);
      StatusStep(r.state, r.log, ruling, e);
    }
  }

  lemma OriginatedTold(r: Row, ruling: Option<CallStatus>, now: int, channel: string)
    requires Told(r, ruling)
    ensures Told(OriginatedRow(r, now, channel), ruling)
  {
    var s := r.state;
    var s' := s.(originatedAt := if s.originatedAt.None? then Some(now) else s.originatedAt,
                 status := if s.status == Scheduled then Dialing else s.status);
    ClosedIsTerminal(r.log);
    assert FactsOf(s') == FactsOf(s) && Told(r.(state := s'), ruling);
    var e := Event(Worker, "originate:" + channel, OtherKind("Originated"), Payload("", false, None, None, ""), now);
    assert e.key[0] == "originate:"[0];
    IngestedTold(r.(state := s'), ruling, e);
  }

  /** Without a record the projection itself has already closed the call, so nothing is written over it. */
  lemma LostLeavesDialling(r: Row, id: string, now: int)
    requires GoodRow(r) && forall e :: e in r.log ==> WorkerKey(e)
    ensures LostResolved(r, id, now) == Ingested(r, LostEvent(id, now))
  {
    var e := LostEvent(id, now);
    IngestedGood(r, e);
    if Seen(r.log, e) {
      var i :| 0 <= i < |r.log| && SameKey(r.log[i], e);
      assert r.log[i] in r.log;
      assert e.key[0] == "reconciler:"[0];
      assert Decides(r.log[i]);
    } else {
      assert e in Ingested(r, e).log && Decides(e);
    }
  }

  lemma OverruledTold(r: Row, v: CallStatus)
    requires Told(r, None) && Terminal(v)
    ensures Told(r.(state := r.state.(status := v)), Some(v))
  {
    assert FactsOf(r.state.(status := v)) == FactsOf(r.state);
  }

  lemma ResolvedTold(r: Row, c: Ident, w: World)
    requires Told(r, None) && GoodRow(r) && !StillUp(c.id, w)
    ensures Told(Resolved(r, c.id, w), ByCdr(c, w))
  {
    if c.id in w.cdrs {
      var e := CdrEvent(c.id, w.cdrs[c.id], w.now);
      IngestedTold(r, None, e);
      if ByCdr(c, w).Some? { OverruledTold(Ingested(r, e), ByCdr(c, w).value); }
    } else {
      IngestedTold(r, None, LostEvent(c.id, w.now));
      LostLeavesDialling(r, c.id, w.now);
    }
  }

  lemma ReconciledRow(t: Tracked, id: string, w: World)
    requires InFlight(t.row.state.status)
    ensures Reconciled(t, id, w).row == if StillUp(id, w) then t.row else Resolved(t.row, id, w)
  {
    ResolvedIsAnOutcome(t.row, id, w);
  }

  lemma GoodIsGoodRow(t: Tracked)
    requires Good(t)
    ensures GoodRow(t.row)
  {
  }

  lemma InFlightIsNotRuled(r: Row, ruling: Option<CallStatus>)
    requires Told(r, ruling) && InFlight(r.state.status)
    ensures ruling.None?
  {
  }

  lemma ReconciledTold(t: Tracked, ruling: Option<CallStatus>, c: Ident, w: World)
    requires Told(t.row, ruling) && Good(t) && InFlight(t.row.state.status)
    ensures Told(Reconciled(t, c.id, w).row, if ByCdr(c, w).Some? then ByCdr(c, w) else ruling)
  {
    InFlightIsNotRuled(t.row, ruling);
    ReconciledRow(t, c.id, w);
    GoodIsGoodRow(t);
    if !StillUp(c.id, w) { ResolvedTold(t.row, c, w); }
  }

  lemma HandledTold(t: Tracked, ruling: Option<CallStatus>, e: Event)
    requires Told(t.row, ruling) && e.source == Ari
    ensures Told(Handled(t, e).row, ruling)
  {
    IngestedTold(t.row, ruling, e);
    HandledRow(t, e);
  }

  lemma HandledRow(t: Tracked, e: Event)
    ensures Handled(t, e).row == t.row || Handled(t, e).row == Ingested(t.row, e)
  {
  }

  lemma SweptTold(t: Tracked, ruling: Option<CallStatus>, c: Ident, w: World, cutoff: int)
    requires Told(t.row, ruling) && Good(t)
    ensures Told(Swept(t, c, w, cutoff).row, if Due(t, c, cutoff) && ByCdr(c, w).Some? then ByCdr(c, w) else ruling)
  {
    if Due(t, c, cutoff) { ReconciledTold(t, ruling, c, w); }
  }

  lemma DiffedTold(t: Tracked, ruling: Option<CallStatus>, c: Ident, w: World)
    requires Told(t.row, ruling) && Good(t)
    ensures Told(Diffed(t, c, w).row, if InFlight(t.row.state.status) && ByCdr(c, w).Some? then ByCdr(c, w) else ruling)
  {
    if InFlight(t.row.state.status) { ReconciledTold(t, ruling, c, w); }
  }

  lemma StepTold(t: Tracked, ruling: Option<CallStatus>, c: Ident, step: Step)
    requires Told(t.row, ruling) && Good(t) && Proper(step)
    ensures Told(Next(t, c, step).row, if Overrules(t, c, step).Some? then Overrules(t, c, step) else ruling)
  {
    match step
    case Originate(now, channel) => OriginatedTold(t.row, ruling, now, channel);
    case Deliver(e) => HandledTold(t, ruling, e);
    case SweepPass(w, cutoff) => SweptTold(t, ruling, c, w, cutoff);
    case ReconnectPass(w) => DiffedTold(t, ruling, c, w);
  }

  lemma {:induction false} RunTold(t: Tracked, c: Ident, steps: seq<Step>)
    requires Inserted(t) && forall i :: 0 <= i < |steps| ==> Proper(steps[i])
    ensures Told(Run(t, c, steps).row, Overruled(t, c, steps))
  {
    if steps != [] {
      var front := steps[..|steps| - 1];
      RunTold(t, c, front);
      RunIsForwardOnly(t, c, front, 0);
      StepTold(Run(t, c, front), Overruled(t, c, front), c, steps[|steps| - 1]);
    }
  }

  // ---------------------------------------------------------------- when a rebuild gives it back

  /** The status comes back: the replay decides as the arrivals did, or as the record that overruled them. */
  ghost predicate StatusComesBack(log: seq<Event>, ruling: Option<CallStatus>) {
    Decision(Replay(log)) == if ruling.Some? then ruling else Decision(log)
  }

  /** The duration comes back: the first reading spans what the row's own times span. */
  predicate DurationComesBack(log: seq<Event>) { Span(FirstReading(log)) == Span(log) }

  predicate CausesComeBack(log: seq<Event>) {
    LastCause(Replay(log)) == LastCause(log) && LastSip(Replay(log)) == LastSip(log)
  }

  lemma LogFactsIgnoreOrder(a: seq<Event>, b: seq<Event>)
    requires Elements(a) == Elements(b)
    ensures LogFacts(a) == LogFacts(b) && Span(a) == Span(b)
  {
    SoonestIgnoresOrder(a, b, IsStart);
    SoonestIgnoresOrder(a, b, IsPlayback);
    SoonestIgnoresOrder(a, b, IsEnd);
    HasHappened(a, IsPlayed);
    HasHappened(b, IsPlayed);
    HasHappened(a, IsAck);
    HasHappened(b, IsAck);
    HasHappened(a, IsOptOut);
    HasHappened(b, IsOptOut);
  }

  /** A replay is told by the replayed log, with nothing overruled. */
  lemma RebuiltTold(r: Row)
    ensures var b, replay := Rebuilt(r), Replay(r.log);
            && b.originatedAt == r.state.originatedAt
            && FactsOf(b) == LogFacts(r.log) && b.durationSec == Span(r.log)
            && b.hangupCause == LastCause(replay) && b.sipResponseCode == LastSip(replay)
            && b.status == OrElse(Decision(replay), Unstarted(r.state))
  {
    var replay := Replay(r.log);
    FoldIsClosedForm(Cleared(r.state), replay);
    ReplayHoldsTheSame(r.log);
    ReplaySpansAll(replay);
    LogFactsIgnoreOrder(replay, r.log);
  }

  lemma StatusComesBackExactly(r: Row, ruling: Option<CallStatus>)
    requires StatusTold(r, ruling)
    ensures OrElse(Decision(Replay(r.log)), Unstarted(r.state)) == r.state.status <==> StatusComesBack(r.log, ruling)
  {
    ClosedIsTerminal(Replay(r.log));
    ClosedIsTerminal(r.log);
  }

  /**
   * The promise that a rebuild reproduces the live row, over every run of origination, events, sweeps and
   * reconnects: the facts always come back; the status does exactly when the occurrence order decides as the
   * arrival order did, or, for a call closed by a record other than ANSWERED, as that record; the duration exactly
   * when its first reading was of the earliest times; and the whole row exactly when, besides, the last cause and
   * SIP code are last in both orders.
   */
  lemma RebuildReproducesExactly(t: Tracked, c: Ident, steps: seq<Step>)
    requires Inserted(t) && forall i :: 0 <= i < |steps| ==> Proper(steps[i])
    ensures var r, ruling := Run(t, c, steps).row, Overruled(t, c, steps);
            && FactsOf(Rebuilt(r)) == FactsOf(r.state)
            && (Rebuilt(r).status == r.state.status <==> StatusComesBack(r.log, ruling))
            && (Rebuilt(r).durationSec == r.state.durationSec <==> DurationComesBack(r.log))
            && (Rebuilt(r) == r.state <==>
                  StatusComesBack(r.log, ruling) && DurationComesBack(r.log) && CausesComeBack(r.log))
  {
    RunTold(t, c, steps);
    RowComesBackExactly(Run(t, c, steps).row, Overruled(t, c, steps));
  }

  lemma RowComesBackExactly(r: Row, ruling: Option<CallStatus>)
    requires Told(r, ruling)
    ensures FactsOf(Rebuilt(r)) == FactsOf(r.state)
    ensures Rebuilt(r).status == r.state.status <==> StatusComesBack(r.log, ruling)
    ensures Rebuilt(r).durationSec == r.state.durationSec <==> DurationComesBack(r.log)
    ensures Rebuilt(r) == r.state <==>
            StatusComesBack(r.log, ruling) && DurationComesBack(r.log) && CausesComeBack(r.log)
  {
    RebuiltTold(r);
    StatusComesBackExactly(r, ruling);
    if StatusComesBack(r.log, ruling) && DurationComesBack(r.log) && CausesComeBack(r.log) {
      SameColumns(Rebuilt(r), r.state);
    }
  }

  /** Never answered, and every closing hangup says the same: any order decides so. */
  lemma UnansweredDecides(log: seq<Event>, d: Event)
    requires d in log && Closes(d) && forall e :: e in log ==> !IsStart(e)
    requires forall e :: e in log && Closes(e) ==> Verdict(e.payload) == Verdict(d.payload)
    ensures Decision(log) == Some(Verdict(d.payload))
  {
    assert d in Elements(log);
    HasHappened(log, Closes);
    HasHappened(log, IsStart);
    assert log[First(log, Closes)] in log;
  }

  /** A call that was dialled and of which nothing more has been heard. */
  predicate JustDialled(t: Tracked, now: int) {
    && t.row.state.status == Dialing && t.row.state.originatedAt == Some(now) && t.row.state.answeredAt.None?
    && |t.row.log| == 1 && t.row.log[0].kind == OtherKind("Originated") && t.row.log[0].source == Worker
  }

  lemma OriginatedCall(t: Tracked, c: Ident, now: int, channel: string)
    requires Inserted(t)
    ensures JustDialled(Run(t, c, [Originate(now, channel)]), now)
  {
    var steps := [Originate(now, channel)];
    assert steps[..0] == [];
    assert Run(t, c, steps) == Next(Run(t, c, []), c, steps[0]);
    assert !Seen([], LostEvent("", 0));
  }

  /** Closing it from its record. */
  lemma RecordCloses(t: Tracked, c: Ident, now: int, w: World, cutoff: int)
    requires JustDialled(t, now) && now <= cutoff && !StillUp(c.id, w) && c.id in w.cdrs
    ensures var r, disposition := Swept(t, c, w, cutoff).row, w.cdrs[c.id].disposition;
            && r.log == t.row.log + [CdrEvent(c.id, w.cdrs[c.id], w.now)]
            && r.state.status == if disposition == "ANSWERED" then NoAnswer else CdrStatus(disposition)
  {
    var e := CdrEvent(c.id, w.cdrs[c.id], w.now);
    ReconciledRow(t, c.id, w);
    assert !Seen(t.row.log, e);
    CdrLeavesNoAnswer(t.row.state, e);
  }

  /**
   * The family of calls for which it fails. A call that is dialled, lost and closed from its record is rebuilt as
   * NO_ANSWER whatever the record says, because the logged event carries no cause: so the status comes back exactly
   * for the dispositions ANSWERED and NO ANSWER.
   */
  lemma RecordComesBackExactly(t: Tracked, c: Ident, now: int, channel: string, w: World, cutoff: int)
    requires Inserted(t) && now <= cutoff && !StillUp(c.id, w) && c.id in w.cdrs
    ensures var r := Run(t, c, [Originate(now, channel), SweepPass(w, cutoff)]).row;
            var disposition := w.cdrs[c.id].disposition;
            && r.state.status == (if disposition == "ANSWERED" then NoAnswer else CdrStatus(disposition))
            && Rebuilt(r).status == NoAnswer
            && (Rebuilt(r).status == r.state.status <==> disposition == "ANSWERED" || disposition == "NO ANSWER")
  {
    var steps := [Originate(now, channel), SweepPass(w, cutoff)];
    assert steps[..1] == [Originate(now, channel)];
    OriginatedCall(t, c, now, channel);
    var t' := Run(t, c, steps[..1]);
    RecordCloses(t', c, now, w, cutoff);
    var r := Swept(t', c, w, cutoff).row;
    assert Run(t, c, steps) == Next(t', c, steps[1]);
    SameInReplay(r.log, CdrEvent(c.id, w.cdrs[c.id], w.now));
    RebuiltTold(r);
  }

  lemma SameInReplay(log: seq<Event>, e: Event)
    requires |log| == 2 && log[1] == e && e.kind == ChannelDestroyed && Verdict(e.payload) == NoAnswer
    requires log[0].kind == OtherKind("Originated")
    ensures Decision(Replay(log)) == Some(NoAnswer)
  {
    ReplayHoldsTheSame(log);
    forall x ensures x in Replay(log) <==> x == log[0] || x == e {
      assert x in Replay(log) <==> x in Elements(Replay(log));
      assert x in log <==> x in Elements(log);
    }
    UnansweredDecides(Replay(log), e);
  }

  lemma CdrLeavesNoAnswer(s: CallState, e: Event)
    requires s.status == Dialing && s.answeredAt.None? && e.kind == ChannelDestroyed && Verdict(e.payload) == NoAnswer
    ensures Applied(s, e).status == NoAnswer
  {
    PhaseStep(s, e);
  }
}
