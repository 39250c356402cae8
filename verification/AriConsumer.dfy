/** The event consumer and the L3 gate (backend/app/telephony/events.py, flow.py): append, project,
    act, then the outcome. */
module AriConsumer {
  import opened Common
  import opened CallProjection
  import opened Outcomes

  datatype Command = Play(media: string) | Hangup

  const GATE_PROMPT := "gate-prompt"

  /** Control commands for one event. `ack` is `dtmf_ack` after projection; no staged media is "". */
  function Acts(level: Level, ack: bool, media: string, e: Event): seq<Command> {
    match e.kind
    case StasisStart =>
      if media == "" then [] else if level == L3 && !ack then [Play(GATE_PROMPT)] else [Play(media)]
    case ChannelDtmfReceived =>
      if e.payload.digit == "1" && level == L3 then [Play(media)]
      else if e.payload.digit == "9" then [Hangup]
      else []
    case PlaybackFinished => if level == L3 && !ack then [] else [Hangup]
    case _ => []
  }

  /** The database half of handling one event: the call, and the debtor's rows. */
  datatype Desk = Desk(call: Tracked, file: CaseFile)

  /** The outcome runs when the status is past dialling; an exception rolls everything back. */
  function Handled(d: Desk, e: Event): Desk {
    var t := Tracked(Ingested(d.call.row, e), d.call.counts);
    match CapSettled(t)
    case None => d
    case Some(t') => Desk(t', if PastDialling(t.row.state.status) then Absorbed(d.file, t.row.state) else d.file)
  }

  class Client {
    var commands: seq<Command>

    constructor ()
      ensures commands == []
    {
      commands := [];
    }

    method Send(c: Command)
      modifies this
      ensures commands == old(commands) + [c]
    {
      commands := commands + [c];
    }
  }

  method OnStasisStart(client: Client, level: Level, ack: bool, media: string)
    modifies client
    ensures client.commands == old(client.commands) +
            (if level == L3 && !ack then [Play(GATE_PROMPT)] else [Play(media)])
  {
    if level == L3 && !ack {
      client.Send(Play(GATE_PROMPT));
      return;
    }
    client.Send(Play(media));
  }

  method OnDtmf(client: Client, level: Level, digit: string, media: string)
    modifies client
    ensures client.commands == old(client.commands) +
            (if digit == "1" && level == L3 then [Play(media)] else if digit == "9" then [Hangup] else [])
  {
    if digit == "1" && level == L3 {
      client.Send(Play(media));
    } else if digit == "9" {
      client.Send(Hangup);
    }
  }

  method OnPlaybackFinished(client: Client, level: Level, ack: bool)
    modifies client
    ensures client.commands == old(client.commands) + (if level == L3 && !ack then [] else [Hangup])
  {
    if level == L3 && !ack {
      return;
    }
    client.Send(Hangup);
  }

  /** `handle` on the rows it touches; false means the transaction was rolled back by an exception,
      in which case only the commands remain. */
  method Handle(client: Client, call: Call, debtor: Debtor, level: Level, media: string, e: Event) returns (ok: bool)
    modifies client, call, debtor
    ensures client.commands ==
              old(client.commands) + Acts(level, Ingested(old(call.ToRow()), e).state.dtmfAck, media, e)
    ensures ok <==> CapSettled(Tracked(Ingested(old(call.ToRow()), e), old(call.countsAgainstCap))).Some?
    ensures ok ==> Desk(TrackedOf(call), debtor.File()) == Handled(old(Desk(TrackedOf(call), debtor.File())), e)
  {
    call.Ingest(e);
    if e.kind == StasisStart && media != "" {
      OnStasisStart(client, level, call.dtmfAck, media);
    } else if e.kind == ChannelDtmfReceived {
      OnDtmf(client, level, e.payload.digit, media);
    } else if e.kind == PlaybackFinished {
      OnPlaybackFinished(client, level, call.dtmfAck);
    }
    ok := true;
    if PastDialling(call.status) {
      ok := ApplyOutcome(call, debtor);
    }
  }

  // --------------------------------------------------------------------------- every run

  function After(d: Desk, es: seq<Event>): Desk {
    if es == [] then d else Handled(After(d, es[..|es| - 1]), es[|es| - 1])
  }

  /** The commands issued while handling the k-th event of a run. */
  function IssuedAt(d: Desk, level: Level, media: string, es: seq<Event>, k: nat): seq<Command>
    requires k < |es|
  {
    Acts(level, Ingested(After(d, es[..k]).call.row, es[k]).state.dtmfAck, media, es[k])
  }

  lemma AckOnlyByKeypress(r: Row, e: Event)
    ensures Ingested(r, e).state.dtmfAck ==> r.state.dtmfAck || IsAck(e)
  {
    FactsStep(r.state, e);
  }

  lemma {:induction false} AckNeedsKeypress(d: Desk, es: seq<Event>)
    ensures After(d, es).call.row.state.dtmfAck ==> d.call.row.state.dtmfAck || Has(es, IsAck)
  {
    if es != [] {
      AckNeedsKeypress(d, es[..|es| - 1]);
      AckOnlyByKeypress(After(d, es[..|es| - 1]).call.row, es[|es| - 1]);
    }
  }

  lemma {:induction false} HasIsSome(es: seq<Event>, p: Event -> bool)
    ensures Has(es, p) <==> exists j :: 0 <= j < |es| && p(es[j])
  {
    if es != [] {
      HasIsSome(es[..|es| - 1], p);
      if Has(es[..|es| - 1], p) {
        var j :| 0 <= j < |es| - 1 && p(es[..|es| - 1][j]);
        assert p(es[j]);
      }
      if j :| 0 <= j < |es| - 1 && p(es[j]) {
        assert p(es[..|es| - 1][j]);
      }
    }
  }

  /** The gate. For an L3 call, whatever arrives and in whatever order, anything but the gate prompt
      is commanded to play only once a keypress 1 has been handled, and the application hangs up
      only once a keypress 1 or 9 has been handled. */
  lemma GateHolds(d: Desk, media: string, es: seq<Event>, k: nat, c: Command)
    requires !d.call.row.state.dtmfAck && k < |es| && c in IssuedAt(d, L3, media, es, k)
    ensures c.Play? && c.media != GATE_PROMPT ==> exists j :: 0 <= j <= k && IsAck(es[j])
    ensures c.Hangup? ==> exists j :: 0 <= j <= k && (IsAck(es[j]) || IsOptOut(es[j]))
  {
    var before := After(d, es[..k]).call.row;
    AckNeedsKeypress(d, es[..k]);
    HasIsSome(es[..k], IsAck);
    AckOnlyByKeypress(before, es[k]);
    if before.state.dtmfAck {
      var j :| 0 <= j < k && IsAck(es[..k][j]);
      assert IsAck(es[j]);
    }
  }

  // ---------------------------------------------------------------- what a keypress leaves behind

  /** An ARI message as far as the consumer reads it; `timestamp` is the text the key is given. */
  datatype Message = Message(kind: Kind, timestamp: string, channel: string, playback: string, digit: string,
                             cause: Option<int>)

  function KindName(kind: Kind): string {
    match kind
    case StasisStart => "StasisStart"
    case PlaybackStarted => "PlaybackStarted"
    case PlaybackFinished => "PlaybackFinished"
    case ChannelDtmfReceived => "ChannelDtmfReceived"
    case AmdResult => "AmdResult"
    case StasisEnd => "StasisEnd"
    case ChannelDestroyed => "ChannelDestroyed"
    case OtherKind(name) => name
  }

  /** `_dedupe_key`: type, timestamp, channel and playback, cut to 128 characters. */
  function DedupeKey(m: Message): string {
    var key := KindName(m.kind) + ":" + m.timestamp + ":" + m.channel + ":" + m.playback;
    if |key| <= 128 then key else key[..128]
  }

  /** The event a message is logged as; `clock` reads a timestamp. */
  function EventOf(m: Message, clock: string -> int): Event {
    Event(Ari, DedupeKey(m), m.kind, Payload(m.digit, false, m.cause, None, ""), clock(m.timestamp))
  }

  /** The first event of its key: neither logged before nor among the earlier ones. */
  predicate FirstOfKey(log: seq<Event>, es: seq<Event>, j: nat)
    requires j < |es|
  {
    !Seen(log, es[j]) && forall i :: 0 <= i < j ==> !SameKey(es[i], es[j])
  }

  /** A status that no carrier reported: every event of such a call is rolled back. */
  predicate Shut(s: CallStatus) { s == Blocked || s == Cancelled }

  lemma HandledOpen(d: Desk, e: Event)
    requires !Shut(d.call.row.state.status)
    ensures Handled(d, e).call.row == Ingested(d.call.row, e) && !Shut(Handled(d, e).call.row.state.status)
  {
    PhaseStep(d.call.row.state, e);
  }

  lemma ShutStays(r: Row, e: Event)
    requires Shut(r.state.status)
    ensures Ingested(r, e).state.status == r.state.status
  {
    PhaseStep(r.state, e);
  }

  lemma HandledShut(d: Desk, e: Event)
    requires Shut(d.call.row.state.status)
    ensures Handled(d, e) == d
  {
    ShutStays(d.call.row, e);
  }

  lemma {:induction false} AllRolledBack(d: Desk, es: seq<Event>)
    requires Shut(d.call.row.state.status)
    ensures After(d, es) == d
  {
    if es != [] {
      AllRolledBack(d, es[..|es| - 1]);
      HandledShut(d, es[|es| - 1]);
    }
  }

  /** On a call that is not shut nothing is rolled back, so its row is the live one. */
  lemma {:induction false} RowIsLive(d: Desk, es: seq<Event>)
    requires !Shut(d.call.row.state.status)
    ensures After(d, es).call.row == Live(d.call.row, es) && !Shut(After(d, es).call.row.state.status)
  {
    if es != [] {
      RowIsLive(d, es[..|es| - 1]);
      HandledOpen(After(d, es[..|es| - 1]), es[|es| - 1]);
    }
  }

  lemma SeenAfter(r: Row, e: Event, x: Event)
    ensures Seen(Ingested(r, e).log, x) <==> Seen(r.log, x) || SameKey(e, x)
  {
    var log := Ingested(r, e).log;
    assert forall i :: 0 <= i < |r.log| ==> log[i] == r.log[i];
    if !Seen(r.log, e) {
      assert log[|r.log|] == e;
    } else if SameKey(e, x) {
      var i :| 0 <= i < |r.log| && SameKey(r.log[i], e);
      assert SameKey(log[i], x);
    }
  }

  /** The log holds what it held, and the first event of each key since. */
  lemma {:induction false} LogAfter(r: Row, es: seq<Event>, x: Event)
    ensures Seen(Live(r, es).log, x) <==> Seen(r.log, x) || exists i :: 0 <= i < |es| && SameKey(es[i], x)
  {
    if es != [] {
      var front := es[..|es| - 1];
      LogAfter(r, front, x);
      SeenAfter(Live(r, front), es[|es| - 1], x);
      assert forall i :: 0 <= i < |front| ==> front[i] == es[i];
    }
  }

  /** A keypress `p` was handled as the first event of its key. */
  ghost predicate Pressed(log: seq<Event>, es: seq<Event>, p: Event -> bool) {
    exists j :: 0 <= j < |es| && p(es[j]) && FirstOfKey(log, es, j)
  }

  lemma PressedAppend(log: seq<Event>, es: seq<Event>, e: Event, p: Event -> bool)
    ensures Pressed(log, es + [e], p) <==> Pressed(log, es, p) || (p(e) && FirstOfKey(log, es + [e], |es|))
  {
    var all := es + [e];
    assert forall j :: 0 <= j < |es| ==> all[j] == es[j];
    if j :| 0 <= j < |es| && p(es[j]) && FirstOfKey(log, es, j) {
      assert p(all[j]) && FirstOfKey(log, all, j);
    }
    if j :| 0 <= j < |es| && p(all[j]) && FirstOfKey(log, all, j) {
      assert p(es[j]) && FirstOfKey(log, es, j);
    }
    assert all[|es|] == e;
  }

  /** What one event records. */
  lemma RecordedExactly(r: Row, e: Event)
    ensures Ingested(r, e).state.dtmfAck <==> r.state.dtmfAck || (IsAck(e) && !Seen(r.log, e))
    ensures Ingested(r, e).state.optedOut <==> r.state.optedOut || (IsOptOut(e) && !Seen(r.log, e))
  {
    FactsStep(r.state, e);
    assert Ingested(r, e).state.dtmfAck == FactsOf(Ingested(r, e).state).dtmfAck;
    assert Ingested(r, e).state.optedOut == FactsOf(Ingested(r, e).state).optedOut;
  }

  lemma {:induction false} LiveRecordsExactly(r: Row, es: seq<Event>)
    ensures Live(r, es).state.dtmfAck <==> r.state.dtmfAck || Pressed(r.log, es, IsAck)
    ensures Live(r, es).state.optedOut <==> r.state.optedOut || Pressed(r.log, es, IsOptOut)
  {
    if es != [] {
      var front, e := es[..|es| - 1], es[|es| - 1];
      LiveRecordsExactly(r, front);
      RecordedExactly(Live(r, front), e);
      NewIsFirstOfKey(r, front, e);
      assert front + [e] == es;
      PressedAppend(r.log, front, e, IsAck);
      PressedAppend(r.log, front, e, IsOptOut);
    }
  }

  lemma NewIsFirstOfKey(r: Row, front: seq<Event>, e: Event)
    ensures !Seen(Live(r, front).log, e) <==> FirstOfKey(r.log, front + [e], |front|)
  {
    LogAfter(r, front, e);
    assert forall i :: 0 <= i < |front| ==> (front + [e])[i] == front[i];
  }

  /**
   * The evidence, exactly. After any events on a call that is not shut, the acknowledgement and the opt-out are on
   * the row if and only if they were before, or a 1 or a 9 was handled as the first event of its key.
   */
  lemma KeypressesRecordedExactly(d: Desk, es: seq<Event>)
    requires !Shut(d.call.row.state.status)
    ensures var s, log := d.call.row.state, d.call.row.log;
            && (After(d, es).call.row.state.dtmfAck <==> s.dtmfAck || Pressed(log, es, IsAck))
            && (After(d, es).call.row.state.optedOut <==> s.optedOut || Pressed(log, es, IsOptOut))
  {
    RowIsLive(d, es);
    LiveRecordsExactly(d.call.row, es);
  }

  /** Every message commanded on an L3 call is acknowledged exactly when its keypress, or an earlier one, was
      recorded. */
  lemma PlayedIsAcknowledgedExactly(d: Desk, media: string, es: seq<Event>, k: nat)
    requires !Shut(d.call.row.state.status) && k < |es| && IsAck(es[k])
    ensures Play(media) in IssuedAt(d, L3, media, es, k)
    ensures After(d, es[..k + 1]).call.row.state.dtmfAck <==>
            d.call.row.state.dtmfAck || Pressed(d.call.row.log, es[..k + 1], IsAck)
  {
    KeypressesRecordedExactly(d, es[..k + 1]);
  }

  /** An opt-out on the row of a call that has an outcome is consent withdrawn. */
  predicate OptOutHonoured(d: Desk) {
    var s := d.call.row.state;
    PastDialling(s.status) && !Shut(s.status) && s.optedOut ==> d.file.consentWithdrawn
  }

  lemma OutcomeHonours(d: Desk, e: Event)
    requires !Shut(d.call.row.state.status) && OptOutHonoured(d)
    ensures OptOutHonoured(Handled(d, e))
    ensures var s := Handled(d, e).call.row.state;
            Handled(d, e).file.consentWithdrawn <==> d.file.consentWithdrawn || (PastDialling(s.status) && s.optedOut)
  {
    HandledOpen(d, e);
    var t := Tracked(Ingested(d.call.row, e), d.call.counts);
    assert CapSettled(t).Some? && CapSettled(t).value.row == t.row;
  }

  lemma StillPastDialling(r: Row, e: Event)
    requires PastDialling(r.state.status)
    ensures PastDialling(Ingested(r, e).state.status)
  {
    PhaseStep(r.state, e);
  }

  /**
   * The opt-out, exactly. After any events on a call that is not shut, consent is withdrawn if and only if it was
   * before, or the call has an outcome and a 9 is on its row: one handled as the first event of its key.
   */
  lemma {:induction false} OptOutExactly(d: Desk, es: seq<Event>)
    requires !Shut(d.call.row.state.status) && OptOutHonoured(d)
    ensures OptOutHonoured(After(d, es))
    ensures After(d, es).file.consentWithdrawn <==>
              || d.file.consentWithdrawn
              || (PastDialling(After(d, es).call.row.state.status)
                  && (d.call.row.state.optedOut || Pressed(d.call.row.log, es, IsOptOut)))
  {
    if es == [] {
      assert !Pressed(d.call.row.log, es, IsOptOut);
    } else {
      var front, e := es[..|es| - 1], es[|es| - 1];
      var before := After(d, front);
      OptOutExactly(d, front);
      RowIsLive(d, front);
      OutcomeHonours(before, e);
      HandledOpen(before, e);
      KeypressesRecordedExactly(d, front);
      KeypressesRecordedExactly(d, es);
      RecordedExactly(before.call.row, e);
      if PastDialling(before.call.row.state.status) { StillPastDialling(before.call.row, e); }
    }
  }

  // ------------------------------------------------------------------ two keys in one timestamp

  /** The key is the text of type, timestamp, channel and playback, or its first 128 characters. */
  lemma KeySays(m: Message)
    ensures var text := KindName(m.kind) + ":" + m.timestamp + ":" + m.channel + ":" + m.playback;
            DedupeKey(m) <= text && |DedupeKey(m)| == Min(|text|, 128)
  {
  }

  lemma NamesApart(a: Kind, b: Kind)
    requires a != b && !a.OtherKind? && !b.OtherKind?
    ensures |KindName(a)| != |KindName(b)| || KindName(a)[0] != KindName(b)[0]
  {
  }

  lemma NoColon(k: Kind)
    requires !k.OtherKind?
    ensures 0 < |KindName(k)| < 128 && ':' !in KindName(k)
  {
  }

  lemma KeyStarts(m: Message)
    requires !m.kind.OtherKind?
    ensures var name := KindName(m.kind); name + ":" <= DedupeKey(m)
  {
    NoColon(m.kind);
    var name := KindName(m.kind);
    var text := name + ":" + m.timestamp + ":" + m.channel + ":" + m.playback;
    KeySays(m);
    assert text[..|name| + 1] == name + ":";
    assert DedupeKey(m)[..|name| + 1] == text[..|name| + 1];
  }

  lemma ColonWithin(a: string, b: string, key: string)
    requires a + ":" <= key && b <= key && |a| < |b|
    ensures ':' in b
  {
    assert b[|a|] == key[|a|] == (a + ":")[|a|];
  }

  /** What stands before the first colon is the same in equal keys. */
  lemma NamesAgree(a: string, b: string, key: string)
    requires a + ":" <= key && b + ":" <= key && ':' !in a && ':' !in b
    ensures a == b
  {
    assert (a + ":")[..|a|] == a && (b + ":")[..|b|] == b;
    assert a == key[..|a|] && b == key[..|b|];
    if |a| < |b| { ColonWithin(a, b, key); }
    if |b| < |a| { ColonWithin(b, a, key); }
  }

  /** Messages of two kinds never share a key, whatever else they share. */
  lemma KindsHaveOwnKeys(m: Message, n: Message)
    requires m.kind != n.kind && !m.kind.OtherKind? && !n.kind.OtherKind?
    ensures DedupeKey(m) != DedupeKey(n)
  {
    NamesApart(m.kind, n.kind);
    NoColon(m.kind);
    NoColon(n.kind);
    KeyStarts(m);
    KeyStarts(n);
    if DedupeKey(m) == DedupeKey(n) { NamesAgree(KindName(m.kind), KindName(n.kind), DedupeKey(m)); }
  }

  /** The same message, but for the key that was pressed. */
  function Press(m: Message, digit: string): Message { m.(kind := ChannelDtmfReceived, digit := digit) }

  lemma DigitIsNotInKey(m: Message, a: string, b: string, clock: string -> int)
    ensures DedupeKey(Press(m, a)) == DedupeKey(Press(m, b))
    ensures var e := EventOf(Press(m, a), clock);
            && e.source == Ari && e.kind == ChannelDtmfReceived && e.payload.digit == a && !e.payload.machine
            && e.payload.cause == m.cause && e.at == clock(m.timestamp)
    ensures SameKey(EventOf(Press(m, a), clock), EventOf(Press(m, b), clock))
  {
  }

  /**
   * Two keys pressed within one timestamp share a key, whatever they are, and the second leaves nothing behind.
   * A 1 after a 9 plays the message with no acknowledgement; a 9 after a 1 hangs up and withdraws no consent.
   */
  lemma SharedKeyLosesKeypress(d: Desk, m: Message, clock: string -> int, media: string)
    requires !Shut(d.call.row.state.status) && OptOutHonoured(d) && !d.file.consentWithdrawn
    requires !d.call.row.state.dtmfAck && !d.call.row.state.optedOut
    requires !Seen(d.call.row.log, EventOf(Press(m, "1"), clock))
    ensures var one, nine := EventOf(Press(m, "1"), clock), EventOf(Press(m, "9"), clock);
            && IssuedAt(d, L3, media, [nine, one], 1) == [Play(media)] && !After(d, [nine, one]).call.row.state.dtmfAck
            && IssuedAt(d, L3, media, [one, nine], 1) == [Hangup] && !After(d, [one, nine]).call.row.state.optedOut
            && !After(d, [one, nine]).file.consentWithdrawn
  {
    var one, nine := EventOf(Press(m, "1"), clock), EventOf(Press(m, "9"), clock);
    DigitIsNotInKey(m, "1", "9", clock);
    SecondOfKey(d.call.row.log, nine, one, IsAck);
    SecondOfKey(d.call.row.log, one, nine, IsOptOut);
    DigitsDiffer();
    KeypressesRecordedExactly(d, [nine, one]);
    KeypressesRecordedExactly(d, [one, nine]);
    OptOutExactly(d, [one, nine]);
  }

  lemma DigitsDiffer()
    ensures "1" != "9"
  {
    assert "1"[0] != "9"[0];
  }

  lemma SecondOfKey(log: seq<Event>, a: Event, b: Event, p: Event -> bool)
    requires SameKey(a, b) && !p(a)
    ensures !Pressed(log, [a, b], p)
  {
    assert SameKey([a, b][0], [a, b][1]);
  }

  // ------------------------------------------------------------------------ how often it plays

  /** How often a command is issued while the events are handled. */
  function Sent(d: Desk, level: Level, media: string, es: seq<Event>, c: Command): nat {
    if es == [] then 0
    else
      Sent(d, level, media, es[..|es| - 1], c) + multiset(IssuedAt(d, level, media, es, |es| - 1))[c]
  }

  /** How often the message is. */
  function Plays(d: Desk, level: Level, media: string, es: seq<Event>): nat { Sent(d, level, media, es, Play(media)) }

  function Times(es: seq<Event>, p: Event -> bool): nat {
    if es == [] then 0 else Times(es[..|es| - 1], p) + if p(es[|es| - 1]) then 1 else 0
  }

  lemma OpenActs(level: Level, ack: bool, media: string, e: Event, c: Command)
    requires level != L3
    ensures multiset(Acts(level, ack, media, e))[Play(media)] == if media != "" && IsStart(e) then 1 else 0
    ensures multiset(Acts(level, ack, media, e))[Hangup] == if IsPlayed(e) || IsOptOut(e) then 1 else 0
    ensures c != Play(media) && c != Hangup ==> multiset(Acts(level, ack, media, e))[c] == 0
  {
  }

  /**
   * An L1 or L2 call, whatever is delivered and however often: its message plays as often as a start is handled, if it
   * has been staged; the call is hung up as often as a playback ends or a 9 is pressed; and that is all.
   */
  lemma {:induction false} OpenLevelsExactly(d: Desk, level: Level, media: string, es: seq<Event>, c: Command)
    requires level != L3
    ensures Plays(d, level, media, es) == if media == "" then 0 else Times(es, IsStart)
    ensures Sent(d, level, media, es, Hangup) == Times(es, IsPlayed) + Times(es, IsOptOut)
    ensures c != Play(media) && c != Hangup ==> Sent(d, level, media, es, c) == 0
  {
    if es != [] {
      var front, e := es[..|es| - 1], es[|es| - 1];
      OpenLevelsExactly(d, level, media, front, c);
      OpenActs(level, Ingested(After(d, front).call.row, e).state.dtmfAck, media, e, c);
    }
  }

  /** Keypresses 1 that are the first event of their key. */
  function Presses(log: seq<Event>, es: seq<Event>): nat {
    if es == [] then 0
    else
      Presses(log, es[..|es| - 1]) +
      (if IsAck(es[|es| - 1]) && FirstOfKey(log, es, |es| - 1) then 1 else 0)
  }

  /** Keypresses 1 delivered again, or under the key of another event. */
  function Repeats(log: seq<Event>, es: seq<Event>): nat {
    if es == [] then 0
    else
      Repeats(log, es[..|es| - 1]) +
      (if IsAck(es[|es| - 1]) && !FirstOfKey(log, es, |es| - 1) then 1 else 0)
  }

  /** Answers handled once the call is acknowledged. */
  ghost function Restarts(r: Row, es: seq<Event>): nat {
    if es == [] then 0
    else
      Restarts(r, es[..|es| - 1]) +
      (if IsStart(es[|es| - 1]) && (r.state.dtmfAck || Pressed(r.log, es[..|es| - 1], IsAck)) then 1 else 0)
  }

  /**
   * How often the message plays on an L3 call, whatever is delivered and however often: once for every distinct
   * keypress 1, once more for every one delivered again, and once for every answer handled after an acknowledgement.
   */
  lemma {:induction false} PlaysExactly(d: Desk, media: string, es: seq<Event>)
    requires !Shut(d.call.row.state.status) && media != "" && media != GATE_PROMPT
    ensures Plays(d, L3, media, es) == Presses(d.call.row.log, es) + Repeats(d.call.row.log, es) +
            Restarts(d.call.row, es)
  {
    if es != [] {
      var front, e := es[..|es| - 1], es[|es| - 1];
      PlaysExactly(d, media, front);
      KeypressesRecordedExactly(d, front);
      if IsStart(e) { OnlyKeypressAcks(After(d, front).call.row, e); }
    }
  }

  /** Playbacks that end once the call is acknowledged. */
  ghost function Finishes(r: Row, es: seq<Event>): nat {
    if es == [] then 0
    else
      Finishes(r, es[..|es| - 1]) +
      (if IsPlayed(es[|es| - 1]) && (r.state.dtmfAck || Pressed(r.log, es[..|es| - 1], IsAck)) then 1 else 0)
  }

  /**
   * The rest of an L3 call: the gate prompt plays for every answer before the acknowledgement, if a message has been
   * staged, and the call is hung up for every 9 and for every playback that ends after the acknowledgement.
   */
  lemma {:induction false} GateExactly(d: Desk, media: string, es: seq<Event>)
    requires !Shut(d.call.row.state.status) && media != GATE_PROMPT
    ensures Sent(d, L3, media, es, Play(GATE_PROMPT)) ==
            if media == "" then 0 else Times(es, IsStart) - Restarts(d.call.row, es)
    ensures Sent(d, L3, media, es, Hangup) == Times(es, IsOptOut) + Finishes(d.call.row, es)
  {
    if es != [] {
      var front, e := es[..|es| - 1], es[|es| - 1];
      GateExactly(d, media, front);
      KeypressesRecordedExactly(d, front);
      if IsStart(e) || IsPlayed(e) { OnlyKeypressAcks(After(d, front).call.row, e); }
      GateActs(Ingested(After(d, front).call.row, e).state.dtmfAck, media, e);
    }
  }

  lemma GateActs(ack: bool, media: string, e: Event)
    requires media != GATE_PROMPT
    ensures multiset(Acts(L3, ack, media, e))[Play(GATE_PROMPT)] == if media != "" && IsStart(e) && !ack then 1 else 0
    ensures multiset(Acts(L3, ack, media, e))[Hangup] == if IsOptOut(e) || (IsPlayed(e) && ack) then 1 else 0
  {
  }

  lemma OnlyKeypressAcks(r: Row, e: Event)
    requires !IsAck(e)
    ensures Ingested(r, e).state.dtmfAck == r.state.dtmfAck
  {
    RecordedExactly(r, e);
  }

  /** So it plays once for each keypress exactly when none is delivered again and no answer comes after one. */
  lemma PlaysOncePerPressExactly(d: Desk, media: string, es: seq<Event>)
    requires !Shut(d.call.row.state.status) && media != "" && media != GATE_PROMPT
    ensures Plays(d, L3, media, es) == Presses(d.call.row.log, es) <==>
            Repeats(d.call.row.log, es) == 0 && Restarts(d.call.row, es) == 0
  {
    PlaysExactly(d, media, es);
  }

  /** The shortest case: one keypress, delivered twice, changes the row once and plays twice. */
  lemma RedeliveredPressPlaysTwice(d: Desk, media: string, e: Event)
    requires !Shut(d.call.row.state.status) && media != "" && media != GATE_PROMPT
    requires IsAck(e) && !Seen(d.call.row.log, e)
    ensures After(d, [e, e]).call.row == After(d, [e]).call.row
    ensures Presses(d.call.row.log, [e, e]) == 1 && Plays(d, L3, media, [e, e]) == 2
  {
    assert [e, e][..1] == [e] && [e][..0] == [];
    HandledOpen(After(d, []), e);
    HandledOpen(After(d, [e]), e);
    SeenAfter(d.call.row, e, e);
    assert SameKey([e, e][0], [e, e][1]);
    assert IssuedAt(d, L3, media, [e], 0) == IssuedAt(d, L3, media, [e, e], 1) == [Play(media)];
    assert Presses(d.call.row.log, [e]) == 1;
    assert Sent(d, L3, media, [e], Play(media)) == Sent(d, L3, media, [], Play(media)) + 1;
  }

  // ------------------------------------------------------------------------ when a number is retired

  lemma HandledPhone(d: Desk, e: Event)
    requires !Shut(d.call.row.state.status)
    ensures var f, g := d.file.phoneValid, Handled(d, e).file.phoneValid;
            g == if f.Some? && Dead(Handled(d, e).call.row.state) then Some(false) else f
  {
    HandledOpen(d, e);
    var s := Handled(d, e).call.row.state;
    if PastDialling(s.status) { OutcomeSays(d.file, s); }
  }

  /** After some event of the run the call stood ended with a dead number. */
  ghost predicate DiedDuring(d: Desk, es: seq<Event>) {
    exists n :: 0 < n <= |es| && Dead(After(d, es[..n]).call.row.state)
  }

  lemma DiedAppend(d: Desk, es: seq<Event>)
    requires es != []
    ensures DiedDuring(d, es) <==> DiedDuring(d, es[..|es| - 1]) || Dead(After(d, es).call.row.state)
  {
    var front := es[..|es| - 1];
    assert es[..|es|] == es;
    forall n | 0 < n <= |front| ensures front[..n] == es[..n] {
    }
    if n :| 0 < n <= |front| && Dead(After(d, front[..n]).call.row.state) {
      assert Dead(After(d, es[..n]).call.row.state);
    }
    if n :| 0 < n <= |es| && Dead(After(d, es[..n]).call.row.state) && n < |es| {
      assert Dead(After(d, front[..n]).call.row.state);
    }
  }

  /** Over every sequence of events a number is retired exactly when the carrier said at some moment that it is dead. */
  lemma {:induction false} RetiredExactly(d: Desk, es: seq<Event>)
    requires !Shut(d.call.row.state.status) && d.file.phoneValid.Some?
    ensures After(d, es).file.phoneValid == Some(d.file.phoneValid.value && !DiedDuring(d, es))
  {
    if es != [] {
      var front := es[..|es| - 1];
      RetiredExactly(d, front);
      RowIsLive(d, front);
      HandledPhone(After(d, front), es[|es| - 1]);
      DiedAppend(d, es);
    }
  }

  // ------------------------------------------------------------- an attempt that counts again

  /** A cause that is the carrier's fault. */
  predicate Fault(cause: Option<int>) { cause.Some? && cause.value in {34, 38, 41} }

  /** An outcome has run and has taken the attempt off the budget. */
  predicate Refunded(t: Tracked) { PastDialling(t.row.state.status) && !t.counts && CapSettled(t) == Some(t) }

  lemma RefundedMeans(t: Tracked)
    ensures var s := t.row.state;
            Refunded(t) <==> Terminal(s.status) && !Shut(s.status) && Fault(s.hangupCause) && !t.counts
  {
  }

  /** Every event handled on a call with an outcome settles what the attempt costs. */
  lemma OutcomeSettles(d: Desk, e: Event)
    requires !Shut(d.call.row.state.status)
    ensures CapSettled(Handled(d, e).call) == Some(Handled(d, e).call)
  {
    HandledOpen(d, e);
  }

  /**
   * When a refunded attempt counts again: one more event makes it count if and only if it is an end not seen before
   * whose cause is given and is not the carrier's fault.
   */
  lemma CountsAgainExactly(d: Desk, e: Event)
    requires Refunded(d.call)
    ensures Handled(d, e).call.counts <==>
            !Seen(d.call.row.log, e) && IsEnd(e) && e.payload.cause.Some? && !Fault(e.payload.cause)
  {
    var s := d.call.row.state;
    RefundedMeans(d.call);
    TerminalStays(s, e);
    OtherColumns(s, e);
    CountsByCause(Tracked(Ingested(d.call.row, e), d.call.counts));
  }

  lemma TerminalStays(s: CallState, e: Event)
    requires Terminal(s.status)
    ensures Applied(s, e).status == s.status
  {
    PhaseStep(s, e);
  }

  lemma CountsByCause(t: Tracked)
    requires Terminal(t.row.state.status) && !Shut(t.row.state.status)
    ensures CapSettled(t) == Some(t.(counts := !Fault(t.row.state.hangupCause)))
  {
  }

  const CONGESTED := Event(Ari, "destroyed", ChannelDestroyed, Payload("", false, Some(34), None, ""), 1)
  const ENDED := Event(Ari, "ended", StasisEnd, Payload("", false, Some(16), None, ""), 2)

  /** It does happen: a dialled call that ends in congestion is refunded, and the end of its stasis makes it count. */
  lemma CongestionCountsAgain(d: Desk)
    requires d.call.row.state.status == Dialing && d.call.row.state.answeredAt.None? && d.call.row.log == []
    ensures Refunded(After(d, [CONGESTED]).call) && After(d, [CONGESTED, ENDED]).call.counts
  {
    CongestionIsRefunded(d);
    CountsAgainExactly(Handled(d, CONGESTED), ENDED);
    AfterOne(d, CONGESTED);
    AfterTwo(d, CONGESTED, ENDED);
  }

  lemma CongestionIsRefunded(d: Desk)
    requires d.call.row.state.status == Dialing && d.call.row.state.answeredAt.None? && d.call.row.log == []
    ensures Refunded(Handled(d, CONGESTED).call) && Handled(d, CONGESTED).call.row.log == [CONGESTED]
  {
    PhaseStep(d.call.row.state, CONGESTED);
    OtherColumns(d.call.row.state, CONGESTED);
    CountsByCause(Tracked(Ingested(d.call.row, CONGESTED), d.call.counts));
    RefundedMeans(Handled(d, CONGESTED).call);
  }

  lemma AfterOne(d: Desk, a: Event)
    ensures After(d, [a]) == Handled(d, a)
  {
    assert [a][..0] == [];
  }

  lemma AfterTwo(d: Desk, a: Event, b: Event)
    ensures After(d, [a, b]) == Handled(Handled(d, a), b)
  {
    AfterOne(d, a);
    assert [a, b][..1] == [a];
  }
}
