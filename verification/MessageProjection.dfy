/** Delivery webhooks of a message, appended and projected (backend/app/comms/service.py). */
module MessageProjection {
  import opened Common

  datatype Status = Queued | Sent | Delivered | Read | Failed | Blocked

  function Rank(s: Status): nat {
    match s
    case Queued => 0
    case Sent => 1
    case Delivered => 2
    case Read => 3
    case Failed => 4
    case Blocked => 4
  }

  /** `Other` is any event type the projection does not know. */
  datatype Kind = SentEvent | DeliveredEvent | ReadEvent | FailedEvent | Other

  datatype Event = Event(source: nat, key: nat, kind: Kind, at: int, reason: string)

  /** The status an event speaks for, if any. */
  function Says(e: Event): Option<Status> {
    match e.kind
    case SentEvent => Some(Sent)
    case DeliveredEvent => Some(Delivered)
    case ReadEvent => Some(Read)
    case FailedEvent => Some(Status.Failed)
    case Other => None
  }

  datatype Row = Row(
    status: Status, sentAt: Option<int>, deliveredAt: Option<int>, readAt: Option<int>, failedReason: Option<string>,
    log: seq<Event>)

  predicate SameKey(a: Event, b: Event) { a.source == b.source && a.key == b.key }

  predicate Known(log: seq<Event>, e: Event) { exists i :: 0 <= i < |log| && SameKey(log[i], e) }

  function Or(t: Option<int>, at: int): Option<int> { if t.Some? then t else Some(at) }

  function Ingested(r: Row, e: Event): Row {
    if Known(r.log, e) then r
    else
      Row(
        if Says(e).Some? && Rank(Says(e).value) >= Rank(r.status) then Says(e).value else r.status,
        if e.kind.SentEvent? then Or(r.sentAt, e.at) else r.sentAt,
        if e.kind.DeliveredEvent? then Or(r.deliveredAt, e.at) else r.deliveredAt,
        if e.kind.ReadEvent? then Or(r.readAt, e.at) else r.readAt,
        if e.kind.FailedEvent? then Some(e.reason) else r.failedReason,
        r.log + [e])
  }

  class Message {
    var status: Status
    var sentAt: Option<int>
    var deliveredAt: Option<int>
    var readAt: Option<int>
    var failedReason: Option<string>
    var log: seq<Event>

    function State(): Row
      reads this
    {
      Row(status, sentAt, deliveredAt, readAt, failedReason, log)
    }

    /** Appends the webhook, then projects it; one already in the log changes nothing. */
    method IngestEvent(e: Event)
      modifies this
      ensures State() == Ingested(old(State()), e)
    {
      if exists i :: 0 <= i < |log| && SameKey(log[i], e) {
        return;
      }
      log := log + [e];
      match e.kind {
        case SentEvent => sentAt := Or(sentAt, e.at);
        case DeliveredEvent => deliveredAt := Or(deliveredAt, e.at);
        case ReadEvent => readAt := Or(readAt, e.at);
        case FailedEvent => failedReason := Some(e.reason);
        case Other =>
      }
      var said := Says(e);
      if said.Some? && Rank(said.value) >= Rank(status) {
        status := said.value;
      }
    }
  }

  /** All webhooks, in the order they arrive. */
  function Live(r: Row, arrivals: seq<Event>): Row {
    if arrivals == [] then r else Ingested(Live(r, arrivals[..|arrivals| - 1]), arrivals[|arrivals| - 1])
  }

  ghost function RaisedBy(s: Status, kind: Kind): Status {
    match kind
    case SentEvent => if s in {Queued, Sent} then Sent else s
    case DeliveredEvent => if s in {Queued, Sent, Delivered} then Delivered else s
    case ReadEvent => if s in {Status.Failed, Status.Blocked} then s else Read
    case FailedEvent => Status.Failed
    case Other => s
  }

  /** One webhook, by the columns. With its source and key in the log already it changes nothing; otherwise it is
      logged, its time is filled in unless one was known, and the status rises to its own, a failure over everything. */
  lemma WebhookSays(r: Row, e: Event)
    ensures var n := Ingested(r, e);
            if exists i :: 0 <= i < |r.log| && r.log[i].source == e.source && r.log[i].key == e.key then n == r
            else
              && n.log == r.log + [e]
              && n.status == RaisedBy(r.status, e.kind)
              && n.sentAt == (if e.kind == SentEvent && r.sentAt.None? then Some(e.at) else r.sentAt)
              && n.deliveredAt ==
                 (if e.kind == DeliveredEvent && r.deliveredAt.None? then Some(e.at) else r.deliveredAt)
              && n.readAt == (if e.kind == ReadEvent && r.readAt.None? then Some(e.at) else r.readAt)
              && n.failedReason == (if e.kind == FailedEvent then Some(e.reason) else r.failedReason)
  {
    if i :| 0 <= i < |r.log| && r.log[i].source == e.source && r.log[i].key == e.key { assert SameKey(r.log[i], e); }
  }

  // ------------------------------------------------------------------ what the row says of its log

  ghost predicate Happened(log: seq<Event>, kind: Kind) { exists e :: e in log && e.kind == kind }

  /** The highest rank among the first status and the events; a failure outranks even BLOCKED. */
  ghost predicate IsPeak(s: Status, first: Status, log: seq<Event>) {
    && Rank(s) >= Rank(first)
    && (forall e :: e in log && Says(e).Some? ==> Rank(s) >= Rank(Says(e).value))
    && (s == first || exists e :: e in log && Says(e) == Some(s))
    && (s == Status.Blocked ==> !Happened(log, FailedEvent))
  }

  ghost predicate Tells(first: Row, now: Row) {
    && IsPeak(now.status, first.status, now.log)
    && (now.sentAt.Some? <==> first.sentAt.Some? || Happened(now.log, SentEvent))
    && (now.deliveredAt.Some? <==> first.deliveredAt.Some? || Happened(now.log, DeliveredEvent))
    && (now.readAt.Some? <==> first.readAt.Some? || Happened(now.log, ReadEvent))
  }

  lemma HappenedAppend(log: seq<Event>, e: Event, kind: Kind)
    ensures Happened(log + [e], kind) <==> Happened(log, kind) || e.kind == kind
  {
    if Happened(log, kind) {
      var x :| x in log && x.kind == kind;
      assert x in log + [e];
    }
    assert e in log + [e];
  }

  lemma PeakAppend(s: Status, first: Status, log: seq<Event>, e: Event)
    requires IsPeak(s, first, log)
    ensures
      var next := if Says(e).Some? && Rank(Says(e).value) >= Rank(s) then Says(e).value else s;
      IsPeak(next, first, log + [e])
  {
    HappenedAppend(log, e, FailedEvent);
    assert e in log + [e];
    if s != first {
      var x :| x in log && Says(x) == Some(s);
      assert x in log + [e];
    }
  }

  /** Every webhook keeps the row true to its log. */
  lemma StepTells(first: Row, now: Row, e: Event)
    requires Tells(first, now)
    ensures Tells(first, Ingested(now, e))
  {
    if !Known(now.log, e) {
      PeakAppend(now.status, first.status, now.log, e);
      HappenedAppend(now.log, e, SentEvent);
      HappenedAppend(now.log, e, DeliveredEvent);
      HappenedAppend(now.log, e, ReadEvent);
    }
  }

  lemma {:induction false} LiveTells(first: Row, arrivals: seq<Event>)
    requires first.log == []
    ensures Tells(first, Live(first, arrivals))
  {
    if arrivals != [] {
      LiveTells(first, arrivals[..|arrivals| - 1]);
      StepTells(first, Live(first, arrivals[..|arrivals| - 1]), arrivals[|arrivals| - 1]);
    }
  }

  /** The log holds arrivals only, and the key of each arrival. */
  lemma {:induction false} LogCovers(first: Row, arrivals: seq<Event>)
    requires first.log == []
    ensures forall e :: e in Live(first, arrivals).log ==> e in arrivals
    ensures forall e :: e in arrivals ==> Known(Live(first, arrivals).log, e)
  {
    if arrivals != [] {
      var before, last := arrivals[..|arrivals| - 1], arrivals[|arrivals| - 1];
      LogCovers(first, before);
      var log, log' := Live(first, before).log, Live(first, arrivals).log;
      assert forall i :: 0 <= i < |log| ==> log'[i] == log[i];
      assert forall e :: Known(log, e) ==> Known(log', e);
      assert Known(log', last) by {
        if !Known(log, last) { assert log'[|log|] == last; }
      }
      assert forall e :: e in arrivals ==> e in before || e == last;
    }
  }

  // ------------------------------------------------------------------------- any order at all

  /** An event is determined by its source and key, as a provider's identities promise. */
  ghost predicate KeysDetermine(es: seq<Event>) {
    forall a, b :: a in es && b in es && SameKey(a, b) ==> a == b
  }

  ghost predicate SameEvents(a: seq<Event>, b: seq<Event>) { forall e :: e in a <==> e in b }

  lemma LogIsArrivals(first: Row, arrivals: seq<Event>)
    requires first.log == [] && KeysDetermine(arrivals)
    ensures SameEvents(Live(first, arrivals).log, arrivals)
  {
    LogCovers(first, arrivals);
    var log := Live(first, arrivals).log;
    forall e | e in arrivals ensures e in log {
      assert Known(log, e);
      var i :| 0 <= i < |log| && SameKey(log[i], e);
      assert log[i] in log;
    }
  }

  lemma PeakIsUnique(s: Status, t: Status, first: Status, a: seq<Event>, b: seq<Event>)
    requires SameEvents(a, b) && IsPeak(s, first, a) && IsPeak(t, first, b)
    ensures s == t
  {
    SameHappened(a, b, FailedEvent);
    if s != first {
      var x :| x in a && Says(x) == Some(s);
      assert x in b && Rank(t) >= Rank(s);
      assert s == Status.Failed ==> Happened(a, FailedEvent);
    }
    if t != first {
      var y :| y in b && Says(y) == Some(t);
      assert y in a && Rank(s) >= Rank(t);
      assert t == Status.Failed ==> Happened(b, FailedEvent);
    }
  }

  lemma SameHappened(a: seq<Event>, b: seq<Event>, kind: Kind)
    requires SameEvents(a, b)
    ensures Happened(a, kind) <==> Happened(b, kind)
  {
    if Happened(a, kind) {
      var x :| x in a && x.kind == kind;
      assert x in b;
    }
    if Happened(b, kind) {
      var y :| y in b && y.kind == kind;
      assert y in a;
    }
  }

  /**
   * In whatever order webhooks arrive and however often each is repeated, the message ends with the same status
   * and the same three facts. This holds from every first status, BLOCKED included.
   */
  lemma WebhookOrderDoesNotMatter(first: Row, a: seq<Event>, b: seq<Event>)
    requires first.log == [] && KeysDetermine(a) && KeysDetermine(b) && SameEvents(a, b)
    ensures
      var x, y := Live(first, a), Live(first, b);
      && x.status == y.status
      && x.sentAt.Some? == y.sentAt.Some? && x.deliveredAt.Some? == y.deliveredAt.Some?
      && x.readAt.Some? == y.readAt.Some?
  {
    var x, y := Live(first, a), Live(first, b);
    LiveTells(first, a);
    LiveTells(first, b);
    LogIsArrivals(first, a);
    LogIsArrivals(first, b);
    assert SameEvents(x.log, y.log);
    PeakIsUnique(x.status, y.status, first.status, x.log, y.log);
    SameHappened(x.log, y.log, SentEvent);
    SameHappened(x.log, y.log, DeliveredEvent);
    SameHappened(x.log, y.log, ReadEvent);
  }

  /** READ does not need DELIVERED or SENT before it, and neither is filled in on its account. */
  lemma FactsAreNeverCollapsed(first: Row, arrivals: seq<Event>)
    requires first.log == [] && first.sentAt == None && first.deliveredAt == None && KeysDetermine(arrivals)
    ensures Live(first, arrivals).deliveredAt.Some? <==> exists e :: e in arrivals && e.kind == DeliveredEvent
    ensures Live(first, arrivals).sentAt.Some? <==> exists e :: e in arrivals && e.kind == SentEvent
  {
    LiveTells(first, arrivals);
    LogIsArrivals(first, arrivals);
    SameHappened(Live(first, arrivals).log, arrivals, DeliveredEvent);
    SameHappened(Live(first, arrivals).log, arrivals, SentEvent);
  }

  /** Over every run the status never falls in rank, and a failure is final. */
  lemma {:induction false} StatusOnlyRises(first: Row, arrivals: seq<Event>, n: nat)
    requires n <= |arrivals|
    ensures Rank(Live(first, arrivals[..n]).status) <= Rank(Live(first, arrivals).status)
    ensures Live(first, arrivals[..n]).status == Status.Failed ==> Live(first, arrivals).status == Status.Failed
    decreases |arrivals|
  {
    if n == |arrivals| {
      assert arrivals[..n] == arrivals;
    } else {
      var before := arrivals[..|arrivals| - 1];
      StatusOnlyRises(first, before, n);
      assert before[..n] == arrivals[..n];
    }
  }

  // ------------------------------------------------------------------------------- the times

  /** The position of the first event of a kind, or the length when there is none. */
  function FirstOf(log: seq<Event>, kind: Kind): (i: nat)
    ensures i <= |log| && (i < |log| ==> log[i].kind == kind) && forall j :: 0 <= j < i ==> log[j].kind != kind
  {
    if log == [] then 0
    else
      var n := |log| - 1;
      var i := FirstOf(log[..n], kind);
      if i < n || log[n].kind == kind then i else |log|
  }

  function FirstAt(log: seq<Event>, kind: Kind): Option<int> {
    if FirstOf(log, kind) < |log| then Some(log[FirstOf(log, kind)].at) else None
  }

  predicate Timed(kind: Kind) { kind.SentEvent? || kind.DeliveredEvent? || kind.ReadEvent? }

  /** The column that records when a kind of event happened. */
  function TimeOf(r: Row, kind: Kind): Option<int>
    requires Timed(kind)
  {
    match kind
    case SentEvent => r.sentAt
    case DeliveredEvent => r.deliveredAt
    case _ => r.readAt
  }

  lemma FirstAtAppend(log: seq<Event>, e: Event, kind: Kind)
    ensures FirstAt(log + [e], kind) ==
            if FirstAt(log, kind).Some? then FirstAt(log, kind) else if e.kind == kind then Some(e.at) else None
  {
    assert (log + [e])[..|log|] == log;
  }

  /** Each time is that of the first event of its kind in the log, unless there was one before. */
  lemma {:induction false} TimesAreFirstArrivals(first: Row, arrivals: seq<Event>, kind: Kind)
    requires first.log == [] && Timed(kind)
    ensures TimeOf(Live(first, arrivals), kind) ==
            if TimeOf(first, kind).Some? then TimeOf(first, kind) else FirstAt(Live(first, arrivals).log, kind)
  {
    if arrivals != [] {
      var before, e := Live(first, arrivals[..|arrivals| - 1]), arrivals[|arrivals| - 1];
      TimesAreFirstArrivals(first, arrivals[..|arrivals| - 1], kind);
      FirstAtAppend(before.log, e, kind);
    }
  }

  /** What arrives first stands first in the log. */
  lemma {:induction false} FirstArrivalIsLogged(first: Row, x: Event, es: seq<Event>)
    requires first.log == []
    ensures Live(first, [x] + es).log != [] && Live(first, [x] + es).log[0] == x
  {
    var all := [x] + es;
    if es == [] {
      assert all[..0] == [];
      assert Live(first, all) == Ingested(Live(first, []), x);
    } else {
      FirstArrivalIsLogged(first, x, es[..|es| - 1]);
      assert all[..|all| - 1] == [x] + es[..|es| - 1];
    }
  }

  lemma FirstAtOfSame(a: seq<Event>, b: seq<Event>, kind: Kind)
    requires SameEvents(a, b) && OneTime(a, kind)
    ensures FirstAt(a, kind) == FirstAt(b, kind)
  {
    var i, j := FirstOf(a, kind), FirstOf(b, kind);
    SameHappened(a, b, kind);
    assert i < |a| ==> a[i] in a;
    assert j < |b| ==> b[j] in b;
    FirstOfHappened(a, kind);
    FirstOfHappened(b, kind);
  }

  lemma FirstOfHappened(log: seq<Event>, kind: Kind)
    ensures FirstOf(log, kind) < |log| <==> Happened(log, kind)
  {
    assert FirstOf(log, kind) < |log| ==> log[FirstOf(log, kind)] in log;
  }

  /** All the events of a kind carry one time. */
  ghost predicate OneTime(es: seq<Event>, kind: Kind) {
    forall x, y :: x in es && y in es && x.kind == kind && y.kind == kind ==> x.at == y.at
  }

  /** The time is the same for every order and repetition of the same webhooks. */
  ghost predicate OrderFree(first: Row, es: seq<Event>, kind: Kind)
    requires Timed(kind)
  {
    forall a, b :: SameEvents(a, es) && SameEvents(b, es) ==>
        TimeOf(Live(first, a), kind) == TimeOf(Live(first, b), kind)
  }

  lemma OneTimeIsOrderFree(first: Row, es: seq<Event>, kind: Kind)
    requires first.log == [] && KeysDetermine(es) && Timed(kind) && (TimeOf(first, kind).Some? || OneTime(es, kind))
    ensures OrderFree(first, es, kind)
  {
    forall a, b | SameEvents(a, es) && SameEvents(b, es)
        ensures TimeOf(Live(first, a), kind) == TimeOf(Live(first, b), kind) {
      assert KeysDetermine(a) && SameEvents(a, b);
      TimesAgree(first, a, b, kind);
    }
  }

  lemma TwoTimesShow(first: Row, es: seq<Event>, kind: Kind)
    requires first.log == [] && Timed(kind) && TimeOf(first, kind).None? && !OneTime(es, kind)
    ensures !OrderFree(first, es, kind)
  {
    var x, y :| x in es && y in es && x.kind == kind && y.kind == kind && x.at != y.at;
    OrderShows(first, x, es, kind);
    OrderShows(first, y, es, kind);
  }

  /**
   * So a time does not depend on the order if and only if it was set before the webhooks, or all the events of its
   * kind carry one time.
   */
  lemma TimesIgnoreOrderExactly(first: Row, es: seq<Event>, kind: Kind)
    requires first.log == [] && KeysDetermine(es) && Timed(kind)
    ensures OrderFree(first, es, kind) <==> TimeOf(first, kind).Some? || OneTime(es, kind)
  {
    if TimeOf(first, kind).Some? || OneTime(es, kind) {
      OneTimeIsOrderFree(first, es, kind);
    } else {
      TwoTimesShow(first, es, kind);
    }
  }

  lemma TimesAgree(first: Row, a: seq<Event>, b: seq<Event>, kind: Kind)
    requires first.log == [] && KeysDetermine(a) && SameEvents(a, b) && Timed(kind)
    requires TimeOf(first, kind).Some? || OneTime(a, kind)
    ensures TimeOf(Live(first, a), kind) == TimeOf(Live(first, b), kind)
  {
    TimesAreFirstArrivals(first, a, kind);
    TimesAreFirstArrivals(first, b, kind);
    LogIsArrivals(first, a);
    LogIsArrivals(first, b);
    if TimeOf(first, kind).None? {
      assert OneTime(Live(first, a).log, kind);
      FirstAtOfSame(Live(first, a).log, Live(first, b).log, kind);
    }
  }

  /** Delivered first, and again with the others, an event gives its own time. */
  lemma OrderShows(first: Row, x: Event, es: seq<Event>, kind: Kind)
    requires first.log == [] && x in es && x.kind == kind && Timed(kind) && TimeOf(first, kind).None?
    ensures SameEvents([x] + es, es) && TimeOf(Live(first, [x] + es), kind) == Some(x.at)
  {
    FirstArrivalIsLogged(first, x, es);
    TimesAreFirstArrivals(first, [x] + es, kind);
    assert FirstOf(Live(first, [x] + es).log, kind) == 0;
  }
}
