/**
 * The opt-out over whole runs: a call and its debtor's rows through origination, keypresses, sweeps and reconnects,
 * each of which may be what gives the call its outcome (backend/app/telephony/events.py,
 * backend/app/calls/reconciler.py).
 */
module OptOut {
  import opened Common
  import opened CallProjection
  import opened Outcomes
  import opened AriConsumer
  import R = Reconciler

  // ------------------------------------------------------------------- a call and its debtor

  /** Whether a pass closes the call, and so runs its outcome. */
  predicate EndsCall(t: Tracked, c: R.Ident, step: R.Step) {
    match step
    case SweepPass(w, cutoff) => R.Due(t, c, cutoff) && !R.StillUp(c.id, w)
    case ReconnectPass(w) => R.InFlight(t.row.state.status) && !R.StillUp(c.id, w)
    case _ => false
  }

  /** The call as the reconciler's step leaves it, and the debtor's rows as its outcome, if it runs, leaves them. */
  function Next(d: Desk, c: R.Ident, step: R.Step): Desk {
    match step
    case Deliver(e) => Handled(d, e)
    case _ =>
      var t := R.Next(d.call, c, step);
      Desk(t,
           if EndsCall(d.call, c, step) && PastDialling(t.row.state.status) then Absorbed(d.file, t.row.state)
           else d.file)
  }

  /** A pass runs the outcome of exactly the calls it resolves, once each, and leaves the rows of every other debtor. */
  lemma PassRunsOutcomeExactly(d: Desk, c: R.Ident, w: R.World, cutoff: int)
    ensures var s := d.call.row.state;
            var started := if s.originatedAt.Some? then s.originatedAt.value else c.scheduledAt;
            var swept := Next(d, c, R.SweepPass(w, cutoff));
            swept.file == if R.Lost(d.call, c, w) && started <= cutoff && PastDialling(swept.call.row.state.status) then
                            Absorbed(d.file, swept.call.row.state)
                          else d.file
    ensures var diffed := Next(d, c, R.ReconnectPass(w));
            diffed.file == if R.Lost(d.call, c, w) && PastDialling(diffed.call.row.state.status) then
                             Absorbed(d.file, diffed.call.row.state)
                           else d.file
  {
    R.PassesTouchExactly(d.call, c, w, cutoff);
  }

  function Run(d: Desk, c: R.Ident, steps: seq<R.Step>): Desk {
    if steps == [] then d else Next(Run(d, c, steps[..|steps| - 1]), c, steps[|steps| - 1])
  }

  ghost predicate Proper(steps: seq<R.Step>) { forall i :: 0 <= i < |steps| ==> R.Proper(steps[i]) }

  /** A fresh call of a debtor who consents. */
  predicate Inserted(d: Desk) { R.Inserted(d.call) && !d.file.consentWithdrawn }

  /** The call's own columns are those of the reconciler's run. */
  lemma {:induction false} SameCall(d: Desk, c: R.Ident, steps: seq<R.Step>)
    ensures Run(d, c, steps).call == R.Run(d.call, c, steps)
  {
    if steps != [] {
      SameCall(d, c, steps[..|steps| - 1]);
    }
  }

  // ------------------------------------------------------------------- what was pressed, and when

  /** The events delivered in the course of a run. */
  function Arrivals(steps: seq<R.Step>): seq<Event> {
    if steps == [] then []
    else
      var front := Arrivals(steps[..|steps| - 1]);
      match steps[|steps| - 1]
      case Deliver(e) => front + [e]
      case _ => front
  }

  /** A 9 was delivered as the first event of its key. */
  ghost predicate OptedOut(steps: seq<R.Step>) { Pressed([], Arrivals(steps), IsOptOut) }

  /** Of the socket's events, the log holds exactly the delivered keys. */
  ghost predicate LogsDelivered(log: seq<Event>, es: seq<Event>) {
    forall x: Event :: x.source == Ari ==> (Seen(log, x) <==> exists i :: 0 <= i < |es| && SameKey(es[i], x))
  }

  ghost predicate Kept(d: Desk, es: seq<Event>) {
    var s := d.call.row.state;
    && R.Good(d.call) && !Shut(s.status)
    && LogsDelivered(d.call.row.log, es)
    && (s.optedOut <==> Pressed([], es, IsOptOut))
    && (d.file.consentWithdrawn <==> PastDialling(s.status) && s.optedOut)
  }

  lemma ForeignKeepsLog(r: Row, e: Event, es: seq<Event>)
    requires LogsDelivered(r.log, es) && e.source != Ari
    ensures LogsDelivered(Ingested(r, e).log, es)
  {
    forall x: Event | x.source == Ari ensures Seen(Ingested(r, e).log, x) <==> Seen(r.log, x) {
      SeenAfter(r, e, x);
    }
  }

  lemma DeliveredKeepsLog(r: Row, e: Event, es: seq<Event>)
    requires LogsDelivered(r.log, es)
    ensures LogsDelivered(Ingested(r, e).log, es + [e])
  {
    var all := es + [e];
    forall x: Event | x.source == Ari
        ensures Seen(Ingested(r, e).log, x) <==> exists i :: 0 <= i < |all| && SameKey(all[i], x) {
      SeenAfter(r, e, x);
      assert forall i :: 0 <= i < |es| ==> all[i] == es[i];
      assert all[|es|] == e;
    }
  }

  lemma ForeignKeepsOptOut(r: Row, e: Event)
    requires e.kind != ChannelDtmfReceived
    ensures Ingested(r, e).state.optedOut == r.state.optedOut
  {
    RecordedExactly(r, e);
  }

  lemma DeliveredKept(d: Desk, e: Event, es: seq<Event>)
    requires Kept(d, es) && e.source == Ari
    ensures Kept(Handled(d, e), es + [e])
  {
    var r := d.call.row;
    HandledOpen(d, e);
    OutcomeHonours(d, e);
    R.DeliveredGood(d.call, e);
    assert Handled(d, e).call == R.Handled(d.call, e);
    DeliveredKeepsLog(r, e, es);
    RecordedExactly(r, e);
    NotSeenIsFirst(r.log, es, e);
    PressedAppend([], es, e, IsOptOut);
    if PastDialling(r.state.status) { StillPastDialling(r, e); }
  }

  lemma NotSeenIsFirst(log: seq<Event>, es: seq<Event>, e: Event)
    requires LogsDelivered(log, es) && e.source == Ari
    ensures !Seen(log, e) <==> FirstOfKey([], es + [e], |es|)
  {
    assert forall i :: 0 <= i < |es| ==> (es + [e])[i] == es[i];
  }

  lemma OriginatedKept(d: Desk, es: seq<Event>, now: int, channel: string)
    requires Kept(d, es)
    ensures Kept(d.(call := d.call.(row := R.OriginatedRow(d.call.row, now, channel))), es)
  {
    var r := d.call.row;
    var s := r.state;
    var s' := s.(originatedAt := if s.originatedAt.None? then Some(now) else s.originatedAt,
                 status := if s.status == Scheduled then Dialing else s.status);
    var e := Event(Worker, "originate:" + channel, OtherKind("Originated"), Payload("", false, None, None, ""), now);
    R.OriginatedGood(d.call, now, channel);
    ForeignKeepsLog(r.(state := s'), e, es);
    ForeignKeepsOptOut(r.(state := s'), e);
    PhaseStep(s', e);
    assert R.OriginatedRow(r, now, channel).state.status == s'.status;
  }

  /** The event that closes a lost call comes from a record or from the reconciler, never from the socket. */
  lemma ResolvedKeeps(r: Row, id: string, w: R.World, es: seq<Event>)
    requires LogsDelivered(r.log, es)
    ensures LogsDelivered(R.Resolved(r, id, w).log, es) && R.Resolved(r, id, w).state.optedOut == r.state.optedOut
  {
    var e := if id in w.cdrs then R.CdrEvent(id, w.cdrs[id], w.now) else R.LostEvent(id, w.now);
    ForeignKeepsLog(r, e, es);
    ForeignKeepsOptOut(r, e);
  }

  lemma ClosedKept(d: Desk, es: seq<Event>, id: string, w: R.World)
    requires Kept(d, es) && R.InFlight(d.call.row.state.status) && !R.StillUp(id, w)
    ensures var t := R.Reconciled(d.call, id, w);
            Kept(Desk(t, Absorbed(d.file, t.row.state)), es) && PastDialling(t.row.state.status)
  {
    var r := d.call.row;
    R.ReconciledGood(d.call, id, w);
    R.ResolvedIsAnOutcome(r, id, w);
    ResolvedKeeps(r, id, w, es);
    assert R.Reconciled(d.call, id, w).row == R.Resolved(r, id, w);
  }

  lemma StepKept(d: Desk, c: R.Ident, step: R.Step, es: seq<Event>)
    requires Kept(d, es) && R.Proper(step)
    ensures Kept(Next(d, c, step), if step.Deliver? then es + [step.e] else es)
  {
    match step
    case Deliver(e) => DeliveredKept(d, e, es);
    case Originate(now, channel) => OriginatedKept(d, es, now, channel);
    case SweepPass(w, _) => if EndsCall(d.call, c, step) { ClosedKept(d, es, c.id, w); }
    case ReconnectPass(w) => if EndsCall(d.call, c, step) { ClosedKept(d, es, c.id, w); }
  }

  lemma {:induction false} RunKept(d: Desk, c: R.Ident, steps: seq<R.Step>)
    requires Inserted(d) && Proper(steps)
    ensures Kept(Run(d, c, steps), Arrivals(steps))
  {
    if steps != [] {
      var front := steps[..|steps| - 1];
      RunKept(d, c, front);
      StepKept(Run(d, c, front), c, steps[|steps| - 1], Arrivals(front));
    }
  }

  /**
   * Over every run from a fresh call, consent is withdrawn if and only if the call has an outcome and a 9 was
   * delivered as the first event of its key. What gives the outcome, and in which order it and the keypress come,
   * does not matter.
   */
  lemma ConsentWithdrawnExactly(d: Desk, c: R.Ident, steps: seq<R.Step>)
    requires Inserted(d) && Proper(steps)
    ensures Run(d, c, steps).file.consentWithdrawn <==>
            PastDialling(Run(d, c, steps).call.row.state.status) && OptedOut(steps)
  {
    RunKept(d, c, steps);
  }

  lemma {:induction false} DeliveredPrefix(steps: seq<R.Step>, n: nat)
    requires n <= |steps|
    ensures Arrivals(steps[..n]) <= Arrivals(steps)
    decreases |steps|
  {
    if n < |steps| {
      var front := steps[..|steps| - 1];
      DeliveredPrefix(front, n);
      assert front[..n] == steps[..n];
    } else {
      assert steps[..n] == steps;
    }
  }

  /** And then it stays withdrawn. */
  lemma WithdrawnForGood(d: Desk, c: R.Ident, steps: seq<R.Step>, n: nat)
    requires Inserted(d) && Proper(steps) && n <= |steps|
    ensures Run(d, c, steps[..n]).file.consentWithdrawn ==> Run(d, c, steps).file.consentWithdrawn
  {
    ConsentWithdrawnExactly(d, c, steps);
    ConsentWithdrawnExactly(d, c, steps[..n]);
    SameCall(d, c, steps);
    SameCall(d, c, steps[..n]);
    R.RunIsForwardOnly(d.call, c, steps, n);
    DeliveredPrefix(steps, n);
    if OptedOut(steps[..n]) {
      var es, all := Arrivals(steps[..n]), Arrivals(steps);
      var j :| 0 <= j < |es| && IsOptOut(es[j]) && FirstOfKey([], es, j);
      assert forall i :: 0 <= i <= j ==> all[i] == es[i];
      assert IsOptOut(all[j]) && FirstOfKey([], all, j);
    }
  }
}
