/** Closing calls the event stream lost (backend/app/calls/reconciler.py), and everything that can
    happen to one call over a run: origination, ARI events, sweeps and reconnect diffs. */
module Reconciler {
  import opened Common
  import opened CallProjection
  import opened Outcomes

  /** A row of Asterisk's own record; `disposition` is upper-cased, an absent `uniqueId` is "". */
  datatype CdrRow = CdrRow(disposition: string, uniqueId: string, end: Option<int>)

  function CdrStatus(disposition: string): CallStatus {
    if disposition == "ANSWERED" then Answered
    else if disposition == "NO ANSWER" then NoAnswer
    else if disposition == "BUSY" then Busy
    else if disposition == "FAILED" || disposition == "CONGESTION" then Failed
    else Unknown
  }

  function CdrEvent(id: string, cdr: CdrRow, now: int): Event {
    Event(Cdr, "cdr:" + (if cdr.uniqueId == "" then id else cdr.uniqueId), ChannelDestroyed,
          Payload("", false, None, None, "cdr"), if cdr.end.Some? then cdr.end.value else now)
  }

  function LostEvent(id: string, now: int): Event {
    Event(Worker, "reconciler:" + id, ChannelDestroyed, Payload("", false, None, None, "reconciler"), now)
  }

  predicate InFlight(s: CallStatus) { s == Dialing || s == Answered }

  /** A call's identity and schedule, which no step changes. */
  datatype Ident = Ident(id: string, scheduledAt: int)

  /** What the outside world looks like to one reconciliation pass. */
  datatype World = World(cdrs: map<string, CdrRow>, live: Option<set<string>>, now: int)

  function CdrResolved(r: Row, id: string, cdr: CdrRow, now: int): Row {
    var r' := Ingested(r, CdrEvent(id, cdr, now));
    if CdrStatus(cdr.disposition) != Answered then r'.(state := r'.state.(status := CdrStatus(cdr.disposition))) else r'
  }

  function LostResolved(r: Row, id: string, now: int): Row {
    var r' := Ingested(r, LostEvent(id, now));
    if !PastDialling(r'.state.status) then r'.(state := r'.state.(status := Unknown)) else r'
  }

  function Resolved(r: Row, id: string, w: World): Row {
    if id in w.cdrs then CdrResolved(r, id, w.cdrs[id], w.now) else LostResolved(r, id, w.now)
  }

  predicate StillUp(id: string, w: World) { w.live.Some? && id in w.live.value }

  /** `reconcile_call`; an exception out of `apply_outcome` leaves the row as it was. */
  function Reconciled(t: Tracked, id: string, w: World): Tracked {
    if StillUp(id, w) then t
    else
      match CapSettled(Tracked(Resolved(t.row, id, w), t.counts))
      case None => t
      case Some(t') => t'
  }

  predicate Due(t: Tracked, c: Ident, cutoff: int) {
    && InFlight(t.row.state.status)
    && (if t.row.state.originatedAt.Some? then t.row.state.originatedAt.value else c.scheduledAt) <= cutoff
  }

  function Swept(t: Tracked, c: Ident, w: World, cutoff: int): Tracked {
    if Due(t, c, cutoff) then Reconciled(t, c.id, w) else t
  }

  /** `reconnect_diff`, which is given the live set. */
  function Diffed(t: Tracked, c: Ident, w: World): Tracked {
    if InFlight(t.row.state.status) then Reconciled(t, c.id, w) else t
  }

  // -------------------------------------------------------------------------- the passes

  method ResolveFromCdr(c: Call, cdr: CdrRow, now: int)
    modifies c
    ensures c.ToRow() == CdrResolved(old(c.ToRow()), c.id, cdr, now)
    ensures c.countsAgainstCap == old(c.countsAgainstCap)
  {
    var status := CdrStatus(cdr.disposition);
    c.Ingest(CdrEvent(c.id, cdr, now));
    if status != Answered {
      c.status := status;
    }
  }

  method ResolveLost(c: Call, now: int)
    modifies c
    ensures c.ToRow() == LostResolved(old(c.ToRow()), c.id, now)
    ensures c.countsAgainstCap == old(c.countsAgainstCap)
  {
    c.Ingest(LostEvent(c.id, now));
    if !PastDialling(c.status) {
      c.status := Unknown;
    }
  }

  method ReconcileCall(c: Call, w: World) returns (closed: bool)
    requires InFlight(c.status)
    modifies c
    ensures TrackedOf(c) == Reconciled(old(TrackedOf(c)), c.id, w)
    ensures closed == !StillUp(c.id, w)
  {
    if w.live.Some? && c.id in w.live.value {
      return false;
    }
    ghost var before := c.ToRow();
    if c.id in w.cdrs {
      ResolveFromCdr(c, w.cdrs[c.id], w.now);
    } else {
      ResolveLost(c, w.now);
    }
    ResolvedIsAnOutcome(before, c.id, w);
    var settled := SettleCap(c);
    return true;
  }

  ghost predicate Distinct(calls: seq<Call>) {
    forall i, j :: 0 <= i < j < |calls| ==> calls[i] != calls[j]
  }

  /** Past the cutoff, and not among the live channels. */
  predicate Overdue(t: Tracked, c: Ident, w: World, cutoff: int) { Due(t, c, cutoff) && !StillUp(c.id, w) }

  method SweepOne(c: Call, w: World, cutoff: int) returns (closed: bool)
    modifies c
    ensures TrackedOf(c) == Swept(old(TrackedOf(c)), Ident(c.id, c.scheduledAt), w, cutoff)
    ensures closed <==> Overdue(old(TrackedOf(c)), Ident(c.id, c.scheduledAt), w, cutoff)
  {
    closed := false;
    if InFlight(c.status) {
      var started := if c.originatedAt.Some? then c.originatedAt.value else c.scheduledAt;
      if started <= cutoff {
        closed := ReconcileCall(c, w);
      }
    }
  }

  method Sweep(calls: seq<Call>, w: World, cutoff: int) returns (resolved: seq<Call>)
    requires Distinct(calls)
    modifies calls
    ensures forall c :: c in calls ==>
              TrackedOf(c) == Swept(old(TrackedOf(c)), Ident(c.id, c.scheduledAt), w, cutoff)
    ensures forall c :: c in resolved <==>
              c in calls && Overdue(old(TrackedOf(c)), Ident(c.id, c.scheduledAt), w, cutoff)
  {
    resolved := [];
    for i := 0 to |calls|
      invariant forall k :: 0 <= k < i ==>
                  TrackedOf(calls[k]) == Swept(old(TrackedOf(calls[k])), Ident(calls[k].id, calls[k].scheduledAt), w,
                                               cutoff)
      invariant forall k :: i <= k < |calls| ==> TrackedOf(calls[k]) == old(TrackedOf(calls[k]))
      invariant forall k :: 0 <= k < i ==>
                  (calls[k] in resolved <==>
                   Overdue(old(TrackedOf(calls[k])), Ident(calls[k].id, calls[k].scheduledAt), w, cutoff))
      invariant forall c :: c in resolved ==> exists k :: 0 <= k < i && calls[k] == c
    {
      var c := calls[i];
      label before:
      var closed := SweepOne(c, w, cutoff);
      forall k | 0 <= k < |calls| && k != i ensures TrackedOf(calls[k]) == old@before(TrackedOf(calls[k])) {
        assert calls[k] != c;
      }
      if closed {
        resolved := resolved + [c];
      }
    }
  }

  /** In flight here and not among the live channels. */
  predicate Missing(t: Tracked, id: string, w: World) {
    InFlight(t.row.state.status) && !StillUp(id, w)
  }

  method ReconnectOne(c: Call, w: World) returns (closed: bool)
    requires w.live.Some?
    modifies c
    ensures TrackedOf(c) == Diffed(old(TrackedOf(c)), Ident(c.id, c.scheduledAt), w)
    ensures closed <==> Missing(old(TrackedOf(c)), c.id, w)
  {
    closed := false;
    if InFlight(c.status) && c.id !in w.live.value {
      closed := ReconcileCall(c, w);
    }
  }

  method ReconnectDiff(calls: seq<Call>, w: World) returns (resolved: seq<Call>)
    requires Distinct(calls) && w.live.Some?
    modifies calls
    ensures forall c :: c in calls ==> TrackedOf(c) == Diffed(old(TrackedOf(c)), Ident(c.id, c.scheduledAt), w)
    ensures forall c :: c in resolved <==> c in calls && Missing(old(TrackedOf(c)), c.id, w)
  {
    resolved := [];
    for i := 0 to |calls|
      invariant forall k :: 0 <= k < i ==>
                  TrackedOf(calls[k]) == Diffed(old(TrackedOf(calls[k])), Ident(calls[k].id, calls[k].scheduledAt), w)
      invariant forall k :: i <= k < |calls| ==> TrackedOf(calls[k]) == old(TrackedOf(calls[k]))
      invariant forall k :: 0 <= k < i ==> (calls[k] in resolved <==> Missing(old(TrackedOf(calls[k])), calls[k].id, w))
      invariant forall c :: c in resolved ==> exists k :: 0 <= k < i && calls[k] == c
    {
      var c := calls[i];
      label before:
      var closed := ReconnectOne(c, w);
      forall k | 0 <= k < |calls| && k != i ensures TrackedOf(calls[k]) == old@before(TrackedOf(calls[k])) {
        assert calls[k] != c;
      }
      if closed {
        resolved := resolved + [c];
      }
    }
  }

  // ---------------------------------------------------------------- every run of one call

  datatype Step =
    | Originate(now: int, channel: string)
    | Deliver(e: Event)
    | SweepPass(w: World, cutoff: int)
    | ReconnectPass(w: World)

  function Started(r: Row, now: int): Row {
    var s := r.state;
    r.(state := s.(originatedAt := if s.originatedAt.None? then Some(now) else s.originatedAt,
                   status := if s.status == Scheduled then Dialing else s.status))
  }

  /** `flow.originate` once the client has answered. */
  function OriginatedRow(r: Row, now: int, channel: string): Row {
    Ingested(Started(r, now), Event(Worker, "originate:" + channel, OtherKind("Originated"),
                                    Payload("", false, None, None, ""), now))
  }

  /** Append, project, then the outcome; an exception rolls the event back with it. */
  function Handled(t: Tracked, e: Event): Tracked {
    match CapSettled(Tracked(Ingested(t.row, e), t.counts))
    case None => t
    case Some(t') => t'
  }

  function Next(t: Tracked, c: Ident, step: Step): Tracked {
    match step
    case Originate(now, channel) => t.(row := OriginatedRow(t.row, now, channel))
    case Deliver(e) => Handled(t, e)
    case SweepPass(w, cutoff) => Swept(t, c, w, cutoff)
    case ReconnectPass(w) => Diffed(t, c, w)
  }

  function Run(t: Tracked, c: Ident, steps: seq<Step>): Tracked {
    if steps == [] then t else Next(Run(t, c, steps[..|steps| - 1]), c, steps[|steps| - 1])
  }

  /** Events from the socket carry the ARI source. */
  predicate Proper(step: Step) { step.Deliver? ==> step.e.source == Ari }

  predicate Decides(e: Event) { IsStart(e) || e.kind == ChannelDestroyed }

  /** What every reachable call satisfies. */
  ghost predicate Good(t: Tracked) {
    var s := t.row.state;
    && ((exists e :: e in t.row.log && Decides(e)) ==> PastDialling(s.status))
    && (s.status == Answered && s.answeredAt.None? ==> s.hangupCause.Some?)
    && (forall e :: e in t.row.log && e.source == Cdr ==> e.kind == ChannelDestroyed)
    && (PastDialling(s.status) && Classify(s.status, s.hangupCause).Some? ==>
          t.counts == (Classify(s.status, s.hangupCause).value != CarrierFault))
  }

  /** A fresh call, as it is inserted. */
  predicate Inserted(t: Tracked) {
    Fresh(t.row.state) && t.row.log == [] && t.counts && t.row.state.originatedAt.None?
  }

  /** The row half of `Good`, which ingestion alone keeps. */
  ghost predicate GoodRow(r: Row) {
    && ((exists e :: e in r.log && Decides(e)) ==> PastDialling(r.state.status))
    && (r.state.status == Answered && r.state.answeredAt.None? ==> r.state.hangupCause.Some?)
    && (forall e :: e in r.log && e.source == Cdr ==> e.kind == ChannelDestroyed)
  }

  lemma AppliedKeepsCause(s: CallState, e: Event)
    ensures s.hangupCause.Some? ==> Applied(s, e).hangupCause.Some?
    ensures e.kind == ChannelDestroyed && e.payload.cause.Some? ==> Applied(s, e).hangupCause.Some?
  {
  }

  lemma PhaseMoves(p: Phase, e: Event)
    ensures Rank(NextPhase(p, e).status) >= Rank(p.status)
    ensures Terminal(p.status) ==> NextPhase(p, e).status == p.status
    ensures Decides(e) ==> PastDialling(NextPhase(p, e).status)
    ensures NextPhase(p, e).status == Answered && !NextPhase(p, e).answered ==>
              p.status == Answered || (e.kind == ChannelDestroyed && e.payload.cause.Some?)
    ensures p.answered ==> NextPhase(p, e).answered
    ensures NextPhase(p, e).status in {Blocked, Cancelled} ==> NextPhase(p, e).status == p.status
  {
  }

  lemma IngestedGood(r: Row, e: Event)
    requires GoodRow(r) && (e.source == Cdr ==> e.kind == ChannelDestroyed)
    ensures GoodRow(Ingested(r, e))
    ensures Rank(Ingested(r, e).state.status) >= Rank(r.state.status)
    ensures Terminal(r.state.status) ==> Ingested(r, e).state.status == r.state.status
    ensures Ingested(r, e).state.status in {Blocked, Cancelled} ==> Ingested(r, e).state.status == r.state.status
  {
    var s := r.state;
    PhaseStep(s, e);
    PhaseMoves(PhaseOf(s), e);
    AppliedKeepsCause(s, e);
    assert PhaseOf(s).status == s.status && PhaseOf(Applied(s, e)).status == Applied(s, e).status;
    assert Rank(s.status) >= 2 <==> PastDialling(s.status);
    assert Rank(Applied(s, e).status) >= 2 <==> PastDialling(Applied(s, e).status);
    if !Seen(r.log, e) {
      forall x | x in r.log + [e] && Decides(x) ensures PastDialling(Applied(s, e).status) {
        if x in r.log {
          assert PastDialling(s.status);
        }
      }
    }
  }

  /** Reconciling an in-flight call always leaves a status the carrier could have produced, so the
      outcome never raises, and the status does not go back. */
  lemma ResolvedIsAnOutcome(r: Row, id: string, w: World)
    requires InFlight(r.state.status)
    ensures var s := Resolved(r, id, w).state.status;
            Rank(s) >= Rank(r.state.status) && s !in {Scheduled, Blocked, Cancelled}
  {
    var e := if id in w.cdrs then CdrEvent(id, w.cdrs[id], w.now) else LostEvent(id, w.now);
    PhaseStep(r.state, e);
    PhaseMoves(PhaseOf(r.state), e);
  }

  /** A reachable in-flight call really leaves dialling: a CDR already in the log means it had. */
  lemma ResolvedGood(r: Row, id: string, w: World)
    requires InFlight(r.state.status) && GoodRow(r)
    ensures GoodRow(Resolved(r, id, w)) && PastDialling(Resolved(r, id, w).state.status)
  {
    var e := if id in w.cdrs then CdrEvent(id, w.cdrs[id], w.now) else LostEvent(id, w.now);
    IngestedGood(r, e);
    if id in w.cdrs {
      if Seen(r.log, e) {
        var i :| 0 <= i < |r.log| && SameKey(r.log[i], e);
        assert r.log[i] in r.log && Decides(r.log[i]);
      } else {
        assert e in r.log + [e] && Decides(e);
      }
    }
  }

  lemma ReconciledGood(t: Tracked, id: string, w: World)
    requires Good(t) && InFlight(t.row.state.status)
    ensures Good(Reconciled(t, id, w))
    ensures Rank(Reconciled(t, id, w).row.state.status) >= Rank(t.row.state.status)
    ensures !StillUp(id, w) ==> PastDialling(Reconciled(t, id, w).row.state.status)
  {
    ResolvedIsAnOutcome(t.row, id, w);
    ResolvedGood(t.row, id, w);
  }

  lemma DeliveredGood(t: Tracked, e: Event)
    requires Good(t) && e.source == Ari
    ensures Good(Handled(t, e))
    ensures Rank(Handled(t, e).row.state.status) >= Rank(t.row.state.status)
    ensures Terminal(t.row.state.status) ==> Handled(t, e).row.state.status == t.row.state.status
  {
    IngestedGood(t.row, e);
  }

  lemma OriginatedGood(t: Tracked, now: int, channel: string)
    requires Good(t)
    ensures var t' := t.(row := OriginatedRow(t.row, now, channel));
            && Good(t')
            && Rank(t'.row.state.status) >= Rank(t.row.state.status)
            && (PastDialling(t.row.state.status) ==> t'.row.state.status == t.row.state.status)
  {
    var e := Event(Worker, "originate:" + channel, OtherKind("Originated"), Payload("", false, None, None, ""), now);
    StartedGood(t.row, now);
    IngestedGood(Started(t.row, now), e);
    NoteMovesNothing(Started(t.row, now).state, e);
  }

  lemma StartedGood(r: Row, now: int)
    requires GoodRow(r)
    ensures GoodRow(Started(r, now)) && Rank(Started(r, now).state.status) >= Rank(r.state.status)
    ensures PastDialling(r.state.status) ==> Started(r, now).state.status == r.state.status
  {
  }

  lemma NoteMovesNothing(s: CallState, e: Event)
    requires e.kind.OtherKind?
    ensures Applied(s, e).status == s.status
  {
    PhaseStep(s, e);
  }

  /** One step: the invariant is kept, rank never falls, and a terminal status stays. */
  lemma StepKeeps(t: Tracked, c: Ident, step: Step)
    requires Good(t) && Proper(step)
    ensures Good(Next(t, c, step))
    ensures Rank(Next(t, c, step).row.state.status) >= Rank(t.row.state.status)
    ensures Terminal(t.row.state.status) ==> Next(t, c, step).row.state.status == t.row.state.status
  {
    match step
    case Originate(now, channel) => OriginatedGood(t, now, channel);
    case Deliver(e) => DeliveredGood(t, e);
    case SweepPass(w, _) => if InFlight(t.row.state.status) { ReconciledGood(t, c.id, w); }
    case ReconnectPass(w) => if InFlight(t.row.state.status) { ReconciledGood(t, c.id, w); }
  }

  /** Over every run: the status rank never decreases between any two moments, a terminal status
      never changes again, and the invariant holds throughout. */
  lemma {:induction false} RunIsForwardOnly(t: Tracked, c: Ident, steps: seq<Step>, k: nat)
    requires Inserted(t) && k <= |steps| && forall i :: 0 <= i < |steps| ==> Proper(steps[i])
    ensures Good(Run(t, c, steps))
    ensures var then_, now_ := Run(t, c, steps[..k]).row.state.status, Run(t, c, steps).row.state.status;
            Rank(then_) <= Rank(now_) && (Terminal(then_) ==> now_ == then_)
    decreases |steps|
  {
    if steps == [] {
      assert steps[..k] == steps;
    } else {
      var front := steps[..|steps| - 1];
      RunIsForwardOnly(t, c, front, if k < |steps| then k else k - 1);
      StepKeeps(Run(t, c, front), c, steps[|steps| - 1]);
      if k < |steps| {
        assert front[..k] == steps[..k];
      } else {
        assert steps[..k] == steps;
      }
    }
  }

  // --------------------------------------------------------------- what a sweep achieves

  /** No reachable call past the cutoff and not live is left dialling; all others are untouched. */
  lemma SweepClosesEveryLostCall(t: Tracked, c: Ident, w: World, cutoff: int)
    requires Good(t)
    ensures Due(t, c, cutoff) && !StillUp(c.id, w) ==> PastDialling(Swept(t, c, w, cutoff).row.state.status)
    ensures !Due(t, c, cutoff) || StillUp(c.id, w) ==> Swept(t, c, w, cutoff) == t
  {
    if Due(t, c, cutoff) {
      ReconciledGood(t, c.id, w);
    }
  }

  lemma IngestedSeen(r: Row, e: Event, e': Event)
    requires SameKey(e, e')
    ensures Seen(Ingested(r, e).log, e')
  {
    var log := Ingested(r, e).log;
    if Seen(r.log, e) {
      var i :| 0 <= i < |r.log| && SameKey(r.log[i], e);
      assert SameKey(log[i], e');
    } else {
      assert SameKey(log[|r.log|], e');
    }
  }

  /**
   * A second sweep over the same channels and records, at any later clock reading and so with any other cutoff, changes
   * no column and no log of a call that the first one closed; every other call it treats as if it were the first.
   */
  lemma SweepIsIdempotent(t: Tracked, c: Ident, w: World, cutoff: int, later: int, next: int)
    ensures var once, again := Swept(t, c, w, cutoff), w.(now := later);
            Swept(once, c, again, next) == if Overdue(t, c, w, cutoff) then once else Swept(t, c, again, next)
  {
    if Overdue(t, c, w, cutoff) {
      var once := Swept(t, c, w, cutoff);
      ClosedOnce(t, c, w, cutoff);
      if InFlight(once.row.state.status) { ResolvedTwice(t.row, c.id, w, later); }
    }
  }

  lemma ClosedOnce(t: Tracked, c: Ident, w: World, cutoff: int)
    requires Overdue(t, c, w, cutoff)
    ensures var once := Swept(t, c, w, cutoff);
            once.row == Resolved(t.row, c.id, w) && CapSettled(once) == Some(once)
  {
    ResolvedIsAnOutcome(t.row, c.id, w);
  }

  /** Resolving a call that is still in flight after it was resolved finds its event in the log. */
  lemma ResolvedTwice(r: Row, id: string, w: World, later: int)
    requires InFlight(r.state.status) && InFlight(Resolved(r, id, w).state.status)
    ensures Resolved(Resolved(r, id, w), id, w.(now := later)) == Resolved(r, id, w)
  {
    if id in w.cdrs {
      IngestedSeen(r, CdrEvent(id, w.cdrs[id], w.now), CdrEvent(id, w.cdrs[id], later));
      assert Resolved(r, id, w).log == Ingested(r, CdrEvent(id, w.cdrs[id], w.now)).log;
    } else {
      IngestedSeen(r, LostEvent(id, w.now), LostEvent(id, later));
      assert Resolved(r, id, w).log == Ingested(r, LostEvent(id, w.now)).log;
    }
  }

  /** The event that resolving a call leaves in its log: its record's, or the reconciler's own. */
  function Resolving(c: Ident, w: World): Event {
    if c.id in w.cdrs then CdrEvent(c.id, w.cdrs[c.id], w.now) else LostEvent(c.id, w.now)
  }

  /** Dialling or answered, and not known to be up. */
  ghost predicate Lost(t: Tracked, c: Ident, w: World) {
    t.row.state.status in {Dialing, Answered} && (w.live.Some? ==> c.id !in w.live.value)
  }

  lemma LostIsResolved(t: Tracked, c: Ident, w: World)
    requires Lost(t, c, w)
    ensures Reconciled(t, c.id, w).row == Resolved(t.row, c.id, w)
    ensures Seen(Reconciled(t, c.id, w).row.log, Resolving(c, w))
  {
    ResolvedIsAnOutcome(t.row, c.id, w);
    var log := Resolved(t.row, c.id, w).log;
    if !Seen(t.row.log, Resolving(c, w)) { assert SameKey(log[|t.row.log|], Resolving(c, w)); }
  }

  /** Which calls a pass touches, by the columns. A sweep resolves exactly those dialling or answered that are not
      known to be up and were originated, or if never that were scheduled, by the cutoff; a reconnect exactly those
      dialling or answered that are not known to be up. Every other call is left as it is. */
  lemma PassesTouchExactly(t: Tracked, c: Ident, w: World, cutoff: int)
    ensures var started := if t.row.state.originatedAt.Some? then t.row.state.originatedAt.value else c.scheduledAt;
            && (Overdue(t, c, w, cutoff) <==> Lost(t, c, w) && started <= cutoff)
            && if Lost(t, c, w) && started <= cutoff then
                 Swept(t, c, w, cutoff).row == Resolved(t.row, c.id, w) &&
                 Seen(Swept(t, c, w, cutoff).row.log, Resolving(c, w))
               else Swept(t, c, w, cutoff) == t
    ensures Missing(t, c.id, w) <==> Lost(t, c, w)
    ensures if Lost(t, c, w) then
              Diffed(t, c, w).row == Resolved(t.row, c.id, w) && Seen(Diffed(t, c, w).row.log, Resolving(c, w))
            else Diffed(t, c, w) == t
  {
    if Lost(t, c, w) { LostIsResolved(t, c, w); }
  }

  /** What a record makes of a lost call: any disposition but ANSWERED names the status, whatever the events said
      before, and ANSWERED leaves it to whether an answer was seen; and the end of the call is the record's, or the
      moment of the pass without one, unless an earlier one is known. */
  lemma RecordSays(t: Tracked, c: Ident, w: World, cutoff: int)
    requires Due(t, c, cutoff) && !StillUp(c.id, w) && c.id in w.cdrs
    ensures var d, s := w.cdrs[c.id].disposition, Swept(t, c, w, cutoff).row.state;
            && (d == "NO ANSWER" ==> s.status == NoAnswer) && (d == "BUSY" ==> s.status == Busy)
            && (d in {"FAILED", "CONGESTION"} ==> s.status == Failed)
            && (d !in {"ANSWERED", "NO ANSWER", "BUSY", "FAILED", "CONGESTION"} ==> s.status == Unknown)
            && (d == "ANSWERED" && !Seen(t.row.log, CdrEvent(c.id, w.cdrs[c.id], w.now)) ==>
                  s.status == if t.row.state.answeredAt.Some? then Answered else NoAnswer)
    ensures var e := CdrEvent(c.id, w.cdrs[c.id], w.now);
            && e.source == Cdr
            && e.key == "cdr:" + (if w.cdrs[c.id].uniqueId != "" then w.cdrs[c.id].uniqueId else c.id)
            && e.at == (if w.cdrs[c.id].end.Some? then w.cdrs[c.id].end.value else w.now)
            && (!Seen(t.row.log, e) ==>
                  Swept(t, c, w, cutoff).row.state.endedAt ==
                  Some(if t.row.state.endedAt.Some? then Min(t.row.state.endedAt.value, e.at) else e.at))
  {
    var e := CdrEvent(c.id, w.cdrs[c.id], w.now);
    StatusSays(t.row.state, e);
    FactsStep(t.row.state, e);
    ResolvedIsAnOutcome(t.row, c.id, w);
  }

  /** Closed with no evidence at all, a reachable call ends UNKNOWN and spends the attempt. */
  lemma LostCallEndsUnknownAndCounts(t: Tracked, c: Ident, w: World, cutoff: int)
    requires Good(t) && Due(t, c, cutoff) && !StillUp(c.id, w) && c.id !in w.cdrs
    requires t.row.state.answeredAt.None? && t.row.state.hangupCause.None?
    ensures Swept(t, c, w, cutoff).row.state.status == Unknown && Swept(t, c, w, cutoff).counts
  {
    var e := LostEvent(c.id, w.now);
    assert t.row.state.status == Dialing;
    PhaseStep(t.row.state, e);
    assert Applied(t.row.state, e).hangupCause.None?;
    assert Verdict(e.payload) == Unknown;
    assert Resolved(t.row, c.id, w).state.status == Unknown;
    assert Resolved(t.row, c.id, w).state.hangupCause.None?;
  }
}
