/** What the Policy Engine decides (backend/app/policy/engine.py), told by the columns of its context alone: the
    gates in their fixed order, and everything an allowed contact says. */
module Decisions {
  import opened Common
  import opened Policy

  // ------------------------------------------------------------------------- rungs, by columns

  /** The rungs of a level, cheapest and least intrusive first; L3 is voice only. */
  ghost predicate OnLadder(l: Level, ch: Channel) { l == L3 ==> ch == Voice }

  ghost function RungOf(l: Level, ch: Channel): nat {
    if l == L1 then (match ch case Sms => 1 case WhatsApp => 2 case Email => 3 case Voice => 4)
    else (match ch case Voice => 1 case WhatsApp => 2 case Sms => 3 case Email => 4)
  }

  /** Enabled, on the ladder, and with words to say. */
  ghost predicate Worded(c: Context, l: Level, ch: Channel) {
    && OnLadder(l, ch) && ch in c.channelsEnabled
    && exists t :: t in c.templates && t.level == l && t.channel == ch
  }

  /** Somewhere to send to: an e-mail address, or a dialable number. */
  ghost predicate Reachable(c: Context, ch: Channel) {
    if ch == Email then c.email != "" else exists p :: p in c.phones && Dialable(c, p)
  }

  /** As much was sent today as the channel's own cap allows. */
  ghost predicate Full(c: Context, ch: Channel) {
    ch in c.capByChannel && c.capByChannel[ch] <= if ch in c.todayByChannel then c.todayByChannel[ch] else 0
  }

  ghost predicate RungUsable(c: Context, l: Level, ch: Channel) {
    Worded(c, l, ch) && ch !in c.optedOut && Reachable(c, ch) && !Full(c, ch)
  }

  /** The usable rung that the level prefers. */
  ghost predicate FirstRung(c: Context, l: Level, ch: Channel) {
    RungUsable(c, l, ch) && forall other :: RungUsable(c, l, other) ==> RungOf(l, ch) <= RungOf(l, other)
  }

  lemma LadderMeans(l: Level, ch: Channel)
    ensures ch in Preference(l) <==> OnLadder(l, ch)
  {
    match l
    case L1 => assert Preference(L1)[0] == Sms && Preference(L1)[1] == WhatsApp && Preference(L1)[2] == Email;
               assert Preference(L1)[3] == Voice;
    case L2 => assert Preference(L2)[0] == Voice && Preference(L2)[1] == WhatsApp && Preference(L2)[2] == Sms;
               assert Preference(L2)[3] == Email;
    case L3 => assert Preference(L3)[0] == Voice;
  }

  /** Earlier in the level's list is lower on its ladder. */
  lemma EarlierIsLower(l: Level, i: nat, j: nat)
    requires i < j < |Preference(l)|
    ensures RungOf(l, Preference(l)[i]) < RungOf(l, Preference(l)[j])
  {
  }

  /** Why a rung is skipped, by columns. */
  lemma ConsiderMeans(c: Context, l: Level, ch: Channel)
    requires OnLadder(l, ch) && ch in c.channelsEnabled
    ensures var r := Consider(c, l, SelectPhone(c).Ok?, ch);
            && (r == NoTemplate <==> !Worded(c, l, ch))
            && (r == OptOut <==> Worded(c, l, ch) && ch in c.optedOut)
            && (r == NoAddress <==> Worded(c, l, ch) && ch !in c.optedOut && !Reachable(c, ch))
            && (r == Capped <==> Worded(c, l, ch) && ch !in c.optedOut && Reachable(c, ch) && Full(c, ch))
            && (r == Usable <==> RungUsable(c, l, ch))
  {
    RungHasTemplate(c, l, ch);
    PhoneChosen(c);
  }

  lemma RungConsidered(c: Context, l: Level, ch: Channel)
    ensures ch in Considered(c, l) <==> OnLadder(l, ch) && ch in c.channelsEnabled
  {
    KeepMembers(Preference(l), EnabledIn(c));
    LadderMeans(l, ch);
  }

  // -------------------------------------------------------------------- the channel that is chosen

  ghost predicate OptedOutOf(c: Context, l: Level, ch: Channel) { Worded(c, l, ch) && ch in c.optedOut }

  ghost predicate Unreachable(c: Context, l: Level, ch: Channel) {
    Worded(c, l, ch) && ch !in c.optedOut && !Reachable(c, ch)
  }

  ghost predicate UsedUp(c: Context, l: Level, ch: Channel) {
    Worded(c, l, ch) && ch !in c.optedOut && Reachable(c, ch) && Full(c, ch)
  }

  lemma SawMeans(c: Context, l: Level)
    ensures var judge, rungs := ConsiderIn(c, l, SelectPhone(c).Ok?), Considered(c, l);
            && (Saw(judge, rungs, Usable) <==> exists ch :: RungUsable(c, l, ch))
            && (Saw(judge, rungs, OptOut) <==> exists ch :: OptedOutOf(c, l, ch))
            && (Saw(judge, rungs, Capped) <==> exists ch :: UsedUp(c, l, ch))
            && (Saw(judge, rungs, NoAddress) <==> exists ch :: Unreachable(c, l, ch))
  {
    var judge, rungs := ConsiderIn(c, l, SelectPhone(c).Ok?), Considered(c, l);
    forall ch
      ensures ch in rungs && judge(ch) == Usable <==> RungUsable(c, l, ch)
      ensures ch in rungs && judge(ch) == OptOut <==> OptedOutOf(c, l, ch)
      ensures ch in rungs && judge(ch) == Capped <==> UsedUp(c, l, ch)
      ensures ch in rungs && judge(ch) == NoAddress <==> Unreachable(c, l, ch)
    {
      RungConsidered(c, l, ch);
      if ch in rungs { ConsiderMeans(c, l, ch); }
    }
  }

  /** A channel is chosen exactly when a rung is usable; otherwise the strongest thing in the way of a rung is the
      reason: an opt-out before a cap, a cap before a missing address, and that before missing words. */
  lemma ChannelChosen(c: Context, l: Level)
    ensures var r := ChosenChannel(c, l, SelectPhone(c).Ok?);
            && (r.Ok? <==> exists ch :: RungUsable(c, l, ch))
            && (r.Err? ==> r.error == if exists ch :: OptedOutOf(c, l, ch) then ChannelOptedOut
                                      else if exists ch :: UsedUp(c, l, ch) then ChannelCapReached
                                      else if exists ch :: Unreachable(c, l, ch) then NoContactAddress
                                      else NoTemplateForLevel)
  {
    var judge, rungs := ConsiderIn(c, l, SelectPhone(c).Ok?), Considered(c, l);
    ClimbMeans(judge, rungs, false, false, false);
    SawMeans(c, l);
    if ChosenChannel(c, l, SelectPhone(c).Ok?).Ok? {
      var i :| FirstUsable(judge, rungs, i);
      assert rungs[i] in rungs;
    }
  }

  /** The channel chosen is the usable rung the level prefers, and the only such rung. */
  lemma ChosenIsFirstRung(c: Context, l: Level)
    requires ChosenChannel(c, l, SelectPhone(c).Ok?).Ok?
    ensures forall ch :: FirstRung(c, l, ch) <==> ch == ChosenChannel(c, l, SelectPhone(c).Ok?).value
  {
    var judge, rungs := ConsiderIn(c, l, SelectPhone(c).Ok?), Considered(c, l);
    var chosen := ChosenChannel(c, l, SelectPhone(c).Ok?).value;
    ClimbMeans(judge, rungs, false, false, false);
    var i :| FirstUsable(judge, rungs, i) && rungs[i] == chosen;
    forall ch | RungUsable(c, l, ch) ensures ch == chosen || RungOf(l, chosen) < RungOf(l, ch) {
      RungConsidered(c, l, ch);
      ConsiderMeans(c, l, ch);
      var j :| 0 <= j < |rungs| && rungs[j] == ch;
      if i < j { ConsideredInOrder(c, l, i, j); } else { assert judge(rungs[j]) == Usable; }
    }
    RungConsidered(c, l, chosen);
    ConsiderMeans(c, l, chosen);
  }

  lemma ConsideredInOrder(c: Context, l: Level, i: nat, j: nat)
    requires i < j < |Considered(c, l)|
    ensures RungOf(l, Considered(c, l)[i]) < RungOf(l, Considered(c, l)[j])
  {
    var m := KeepPlace(Preference(l), EnabledIn(c), i);
    var n := KeepPlace(Preference(l), EnabledIn(c), j);
    if n <= m {
      KeepShorter(Preference(l), EnabledIn(c), n, m);
      assert false;
    }
    EarlierIsLower(l, m, n);
  }

  lemma {:induction false} KeepShorter<T>(s: seq<T>, p: T -> bool, n: nat, m: nat)
    requires n <= m <= |s|
    ensures |Keep(s[..n], p)| <= |Keep(s[..m], p)|
  {
    if n > 0 {
      assert s[..n][1..] == s[1..][..n - 1] && s[..m][1..] == s[1..][..m - 1];
      KeepShorter(s[1..], p, n - 1, m - 1);
    }
  }

  // ------------------------------------------------------------------------------- the level

  /** Enough days and attempts at its level to be considered for the next. */
  ghost predicate Ripe(c: Context, a: AccountRef, days: int) {
    WholeDays(c.now - a.levelEnteredAt, days) && a.attemptsAtLevel >= c.policy.maxAttemptsPerLevel
  }

  /** Ripe for L3 and large enough for it. */
  ghost predicate RipeForL3(c: Context, a: AccountRef) {
    a.level == L2 && Ripe(c, a, c.policy.l3AfterDaysAtL2) && a.outstanding >= c.policy.l3MinOutstanding
  }

  /** Ripe for L3 without ever having been reached: a human looks first. */
  ghost predicate NeedsReview(c: Context, a: AccountRef) { RipeForL3(c, a) && a.deliveredAtLevel < 1 }

  /** The level to contact at: the account's own, or the next when it is ripe for that. */
  ghost function ContactLevel(c: Context, a: AccountRef): Level {
    if RipeForL3(c, a) && a.deliveredAtLevel >= 1 then L3
    else if a.level == L1 && Ripe(c, a, c.policy.l2AfterDaysAtL1) then L2
    else a.level
  }

  lemma LevelMeans(c: Context, a: AccountRef)
    ensures DetermineLevel(c, a) == (ContactLevel(c, a), NeedsReview(c, a))
  {
    DaysAreWhole(c.now - a.levelEnteredAt, c.policy.l2AfterDaysAtL1);
    DaysAreWhole(c.now - a.levelEnteredAt, c.policy.l3AfterDaysAtL2);
  }

  // ------------------------------------------------------------------- the gates

  /** One gate: whether the context passes it, and what it says when not. */
  datatype Gate = Gate(passes: bool, reason: BlockReason)

  ghost function FirstFailing(gates: seq<Gate>): Option<BlockReason> {
    if gates == [] then None
    else if !gates[0].passes then Some(gates[0].reason)
    else FirstFailing(gates[1..])
  }

  ghost function Gates(c: Context): seq<Gate> { (FrontGates(c) + AccountGates(c)) + ContactGates(c) }

  ghost function FrontGates(c: Context): seq<Gate> {
    [ Gate(c.campaignActive, CampaignNotActive),
      Gate(!c.consentWithdrawn, ConsentWithdrawn),
      Gate(c.suppressedUntil.Some? ==> c.now >= c.suppressedUntil.value, BuyerSuppressed) ]
  }

  ghost function AccountGates(c: Context): seq<Gate> {
    [ Gate((forall a :: a in c.accounts ==> a.status != InDispute) ||
           (exists a :: a in c.accounts && a.status !in {InDispute, Settled, AccountWrittenOff}), AccountInDispute),
      Gate(c.accounts == [] || exists a :: a in c.accounts && a.status !in {Settled, AccountWrittenOff}, AccountClosed),
      Gate(exists a :: a in c.accounts && IsDue(c, a), AccountNotOverdue) ]
  }

  /** The gates of the account in question: the first, in row order, of the worst that are due. */
  ghost function ContactGates(c: Context): seq<Gate> {
    if exists k: int :: FirstSeverest(c, k) then
      var k: int :| FirstSeverest(c, k);
      GatesOf(c, c.accounts[k])
    else []
  }

  ghost function GatesOf(c: Context, a: AccountRef): seq<Gate> {
    var l := ContactLevel(c, a);
    (CalendarGates(c) + BudgetGates(c, a)) + ((RungGates(c, l) + PhoneGates(c, l)) + WordsGates(c, l))
  }

  ghost function CalendarGates(c: Context): seq<Gate> {
    [ Gate(c.local.date !in c.blackoutDays, Blackout),
      Gate(c.callOnWeekends || c.local.weekday < 5, WeekendNotPermitted),
      Gate(c.windowStart <= c.local.time < c.windowEnd, OutsideCallingWindow) ]
  }

  ghost function BudgetGates(c: Context, a: AccountRef): seq<Gate> {
    [ Gate(c.attemptsToday < c.maxPerDay, DailyCapReached),
      Gate(c.attemptsThisWeek < c.maxPerWeek, WeeklyCapReached),
      Gate(forall b :: b in c.accounts && b.lastContactAt.Some? ==>
             c.now - b.lastContactAt.value >= c.minHoursBetween * 3_600_000_000,
           CooldownActive),
      Gate(!NeedsReview(c, a), L3RequiresPriorContact) ]
  }

  ghost predicate SomeRung(c: Context, l: Level) { exists ch :: RungUsable(c, l, ch) }

  ghost function RungGates(c: Context, l: Level): seq<Gate> {
    [ Gate(SomeRung(c, l) || forall ch :: !OptedOutOf(c, l, ch), ChannelOptedOut),
      Gate(SomeRung(c, l) || forall ch :: !UsedUp(c, l, ch), ChannelCapReached),
      Gate(SomeRung(c, l) || exists ch :: Unreachable(c, l, ch), NoTemplateForLevel) ]
  }

  /** With a rung out of reach, what is wrong with the numbers on file; with one dialable, the address is missing. */
  ghost function PhoneGates(c: Context, l: Level): seq<Gate> {
    [ Gate(SomeRung(c, l) || exists p :: p in c.phones && p.isValid, NoValidPhone),
      Gate(SomeRung(c, l) || exists p :: p in c.phones && p.isValid && p.dnd != OnRegistry, DndRegistered),
      Gate(SomeRung(c, l) || (exists p :: p in c.phones && Dialable(c, p)) ||
           (forall p :: p in c.phones && p.isValid ==> p.dnd != DndNotChecked), DndUnknown),
      Gate(SomeRung(c, l) || exists p :: p in c.phones && Dialable(c, p), DndCheckStale),
      Gate(SomeRung(c, l), NoContactAddress) ]
  }

  /** The words chosen for the channel chosen. */
  ghost predicate InWords(c: Context, l: Level, ch: Channel, i: int) { FirstRung(c, l, ch) && ChosenAt(c, l, ch, i) }

  ghost function WordsGates(c: Context, l: Level): seq<Gate> {
    [ Gate(l == L3 ==> exists i :: InWords(c, l, Voice, i) && c.templates[i].isApproved, L3TemplateNotApproved),
      Gate(FirstRung(c, l, Sms) ==> exists i :: InWords(c, l, Sms, i) && c.templates[i].dltRegistered,
           SmsTemplateNotRegistered) ]
  }

  // --------------------------------------------------------------- the first gate that fails

  lemma {:induction false} FailingConcat(a: seq<Gate>, b: seq<Gate>)
    ensures FirstFailing(a + b) == if FirstFailing(a).Some? then FirstFailing(a) else FirstFailing(b)
  {
    if a == [] {
      assert a + b == b;
    } else {
      FailingConcat(a[1..], b);
      assert (a + b)[1..] == a[1..] + b;
    }
  }

  lemma FailingCons(g: Gate, gates: seq<Gate>)
    ensures FirstFailing([g] + gates) == if !g.passes then Some(g.reason) else FirstFailing(gates)
  {
    assert ([g] + gates)[1..] == gates;
  }

  lemma TwoGates(x: Gate, y: Gate)
    ensures FirstFailing([x, y]) == if !x.passes then Some(x.reason) else if !y.passes then Some(y.reason) else None
  {
    assert [x, y] == [x] + ([y] + []);
    FailingCons(y, []);
    FailingCons(x, [y] + []);
  }

  lemma ThreeGates(x: Gate, y: Gate, z: Gate)
    ensures FirstFailing([x, y, z]) ==
            if !x.passes then Some(x.reason)
            else if !y.passes then Some(y.reason)
            else if !z.passes then Some(z.reason)
            else None
  {
    assert [x, y, z] == [x] + [y, z];
    FailingCons(x, [y, z]);
    TwoGates(y, z);
  }

  lemma AccountFails(c: Context)
    ensures FirstFailing(AccountGates(c)) == if SelectAccount(c).Err? then Some(SelectAccount(c).error) else None
  {
    AccountChosen(c);
    var g := AccountGates(c);
    ThreeGates(g[0], g[1], g[2]);
  }

  lemma FrontFails(c: Context)
    ensures FirstFailing(FrontGates(c)) ==
            if !c.campaignActive then Some(CampaignNotActive)
            else if c.consentWithdrawn then Some(ConsentWithdrawn)
            else if Suppressed(c) then Some(BuyerSuppressed)
            else None
  {
    var g := FrontGates(c);
    ThreeGates(g[0], g[1], g[2]);
  }

  lemma CalendarFails(c: Context)
    ensures FirstFailing(CalendarGates(c)) ==
            if c.local.date in c.blackoutDays then Some(Blackout)
            else if !c.callOnWeekends && c.local.weekday >= 5 then Some(WeekendNotPermitted)
            else if !InWindow(c) then Some(OutsideCallingWindow)
            else None
  {
    var g := CalendarGates(c);
    ThreeGates(g[0], g[1], g[2]);
  }

  lemma CoolingDownMeans(c: Context)
    ensures CoolingDown(c) <==>
            !(forall b :: b in c.accounts && b.lastContactAt.Some? ==>
              c.now - b.lastContactAt.value >= c.minHoursBetween * 3_600_000_000)
  {
    LastContactIsLatest(c.accounts);
    if CoolingDown(c) {
      var a :| a in c.accounts && a.lastContactAt == LastContact(c.accounts);
    }
  }

  lemma BudgetFails(c: Context, a: AccountRef)
    ensures FirstFailing(BudgetGates(c, a)) ==
            if c.attemptsToday >= c.maxPerDay then Some(DailyCapReached)
            else if c.attemptsThisWeek >= c.maxPerWeek then Some(WeeklyCapReached)
            else if CoolingDown(c) then Some(CooldownActive)
            else if NeedsReview(c, a) then Some(L3RequiresPriorContact)
            else None
  {
    CoolingDownMeans(c);
    var g := BudgetGates(c, a);
    assert g == [g[0]] + [g[1], g[2], g[3]];
    FailingCons(g[0], [g[1], g[2], g[3]]);
    ThreeGates(g[1], g[2], g[3]);
  }

  lemma EarlyFails(c: Context, a: AccountRef)
    ensures FirstFailing(CalendarGates(c) + BudgetGates(c, a)) ==
            if NotNow(c).Some? then NotNow(c) else if NeedsReview(c, a) then Some(L3RequiresPriorContact) else None
  {
    FailingConcat(CalendarGates(c), BudgetGates(c, a));
    CalendarFails(c);
    BudgetFails(c, a);
  }

  lemma RungFails(c: Context, l: Level)
    ensures FirstFailing(RungGates(c, l)) ==
            if SomeRung(c, l) then None
            else if exists ch :: OptedOutOf(c, l, ch) then Some(ChannelOptedOut)
            else if exists ch :: UsedUp(c, l, ch) then Some(ChannelCapReached)
            else if exists ch :: Unreachable(c, l, ch) then None
            else Some(NoTemplateForLevel)
  {
    var g := RungGates(c, l);
    ThreeGates(g[0], g[1], g[2]);
  }

  lemma PhoneFails(c: Context, l: Level)
    ensures FirstFailing(PhoneGates(c, l)) ==
            if SomeRung(c, l) then None
            else if SelectPhone(c).Err? then Some(SelectPhone(c).error)
            else Some(NoContactAddress)
  {
    PhoneChosen(c);
    var g := PhoneGates(c, l);
    assert g == [g[0], g[1]] + [g[2], g[3], g[4]];
    FailingConcat([g[0], g[1]], [g[2], g[3], g[4]]);
    TwoGates(g[0], g[1]);
    ThreeGates(g[2], g[3], g[4]);
  }

  /** The words chosen for the one channel that is chosen. */
  lemma WordsFound(c: Context, l: Level) returns (ch: Channel, i: nat)
    requires SomeRung(c, l)
    ensures ChosenChannel(c, l, SelectPhone(c).Ok?) == Ok(ch) && InWords(c, l, ch, i)
    ensures forall other, j :: InWords(c, l, other, j) <==> other == ch && j == i
    ensures SelectTemplate(c, l, ch) ==
            if l == L3 && !c.templates[i].isApproved then Err(L3TemplateNotApproved)
            else if ch == Sms && !c.templates[i].dltRegistered then Err(SmsTemplateNotRegistered)
            else Ok(c.templates[i])
  {
    ChannelChosen(c, l);
    ChosenIsFirstRung(c, l);
    ch := ChosenChannel(c, l, SelectPhone(c).Ok?).value;
    assert FirstRung(c, l, ch);
    RungHasTemplate(c, l, ch);
    i := ChosenIsThere(c, l, ch);
    forall j | ChosenAt(c, l, ch, j) ensures j == i {
      ChosenOnce(c, l, ch, i, j);
    }
  }

  lemma WordsFail(c: Context, l: Level)
    requires SomeRung(c, l)
    ensures ChosenChannel(c, l, SelectPhone(c).Ok?).Ok?
    ensures var words := SelectTemplate(c, l, ChosenChannel(c, l, SelectPhone(c).Ok?).value);
            FirstFailing(WordsGates(c, l)) == if words.Err? then Some(words.error) else None
  {
    var ch, i := WordsFound(c, l);
    var g := WordsGates(c, l);
    TwoGates(g[0], g[1]);
  }

  ghost predicate Agrees(d: Decision, failing: Option<BlockReason>) {
    if failing.Some? then d == Refused(failing.value) else d.Allowed?
  }

  /** A rung that is chosen has somewhere to send to, so the later check for a number cannot fire. */
  lemma ChosenIsReachable(c: Context, l: Level)
    requires SomeRung(c, l)
    ensures ChosenChannel(c, l, SelectPhone(c).Ok?).Ok?
    ensures UsesPhone(ChosenChannel(c, l, SelectPhone(c).Ok?).value) ==> SelectPhone(c).Ok?
  {
    var ch, i := WordsFound(c, l);
    PhoneChosen(c);
  }

  lemma RungAgrees(c: Context, a: AccountRef, l: Level)
    requires SomeRung(c, l)
    ensures Agrees(Contact(c, a, l), FirstFailing(WordsGates(c, l)))
  {
    ChosenIsReachable(c, l);
    WordsFail(c, l);
  }

  lemma NoRungReason(c: Context, l: Level)
    requires !SomeRung(c, l)
    ensures var r := ChosenChannel(c, l, SelectPhone(c).Ok?);
            && r.Err?
            && FirstFailing(RungGates(c, l) + PhoneGates(c, l)) ==
               Some(if SelectPhone(c).Err? && r.error == NoContactAddress then SelectPhone(c).error else r.error)
  {
    FailingConcat(RungGates(c, l), PhoneGates(c, l));
    RungFails(c, l);
    PhoneFails(c, l);
    ChannelChosen(c, l);
  }

  lemma NoRungAgrees(c: Context, a: AccountRef, l: Level)
    requires !SomeRung(c, l)
    ensures FirstFailing(RungGates(c, l) + PhoneGates(c, l)).Some?
    ensures Contact(c, a, l) == Refused(FirstFailing(RungGates(c, l) + PhoneGates(c, l)).value)
  {
    NoRungReason(c, l);
  }

  lemma SomeRungPasses(c: Context, l: Level)
    requires SomeRung(c, l)
    ensures FirstFailing(RungGates(c, l) + PhoneGates(c, l)) == None
  {
    FailingConcat(RungGates(c, l), PhoneGates(c, l));
    RungFails(c, l);
    PhoneFails(c, l);
  }

  lemma ContactAgrees(c: Context, a: AccountRef, l: Level)
    ensures Agrees(Contact(c, a, l), FirstFailing((RungGates(c, l) + PhoneGates(c, l)) + WordsGates(c, l)))
  {
    FailingConcat(RungGates(c, l) + PhoneGates(c, l), WordsGates(c, l));
    if SomeRung(c, l) {
      SomeRungPasses(c, l);
      RungAgrees(c, a, l);
    } else {
      NoRungAgrees(c, a, l);
    }
  }

  lemma AccountAgrees(c: Context, a: AccountRef)
    ensures Agrees(EvaluateFor(c, a), FirstFailing(GatesOf(c, a)))
  {
    var l := ContactLevel(c, a);
    FailingConcat(CalendarGates(c) + BudgetGates(c, a), (RungGates(c, l) + PhoneGates(c, l)) + WordsGates(c, l));
    EarlyFails(c, a);
    LevelMeans(c, a);
    ContactAgrees(c, a, l);
  }

  lemma ContactGatesMeans(c: Context)
    requires SelectAccount(c).Ok?
    ensures ContactGates(c) == GatesOf(c, SelectAccount(c).value)
  {
    var k := ChosenIsFirstSeverest(c);
    forall j: int | FirstSeverest(c, j) ensures j == k {
      FirstSeverestOnce(c, j, k);
    }
  }

  /** The decision is allowed exactly when every gate passes; otherwise it is refused with the reason of the first gate
      that does not, in the fixed order. */
  lemma EvaluateIsFirstFailingGate(c: Context)
    ensures Agrees(Evaluate(c), FirstFailing(Gates(c)))
  {
    FailingConcat(FrontGates(c) + AccountGates(c), ContactGates(c));
    FailingConcat(FrontGates(c), AccountGates(c));
    FrontFails(c);
    AccountFails(c);
    if SelectAccount(c).Ok? {
      ContactGatesMeans(c);
      AccountAgrees(c, SelectAccount(c).value);
    }
  }

  // ------------------------------------------------------------------ what an allowance says

  lemma ContactSays(c: Context, a: AccountRef, l: Level) returns (i: nat)
    requires Contact(c, a, l).Allowed?
    ensures var d := Contact(c, a, l);
            && d.account == a.id && d.level == l && (d.requiresDtmf <==> l == L3)
            && InWords(c, l, d.channel, i) && d.version == c.templates[i].versionId && GoesTo(c, d)
  {
    ChannelChosen(c, l);
    var ch;
    ch, i := WordsFound(c, l);
    PhoneChosen(c);
    if SelectPhone(c).Ok? { var k := ChosenIsFirstDialable(c); }
  }

  /** By e-mail to the address on file; otherwise to the first of the dialable numbers of lowest priority. */
  ghost predicate GoesTo(c: Context, d: Decision)
    requires d.Allowed?
  {
    if d.channel == Email then d.phone == None && d.address == c.email != ""
    else exists k :: FirstDialable(c, k) && d.phone == Some(c.phones[k].id) && d.address == c.phones[k].e164
  }

  /**
   * Everything an allowed contact says. It is about the first of the worst accounts that are due, at its own level or
   * the one it is ripe for; by the lowest usable rung of that level; in the words chosen for it; to the address of that
   * channel; and with a keypress asked for exactly at L3.
   */
  lemma AllowedMeans(c: Context) returns (k: nat, i: nat)
    requires Evaluate(c).Allowed?
    ensures !c.consentWithdrawn && c.attemptsToday < c.maxPerDay && c.attemptsThisWeek < c.maxPerWeek
    ensures var d := Evaluate(c);
            && FirstSeverest(c, k) && d.account == c.accounts[k].id && d.level == ContactLevel(c, c.accounts[k])
            && FirstRung(c, d.level, d.channel) && ChosenAt(c, d.level, d.channel, i)
            && d.version == c.templates[i].versionId && GoesTo(c, d) && (d.requiresDtmf <==> d.level == L3)
  {
    var a := AllowedIsContact(c);
    k := ChosenIsFirstSeverest(c);
    LevelMeans(c, c.accounts[k]);
    i := ContactSays(c, c.accounts[k], ContactLevel(c, c.accounts[k]));
  }

  /** So no number is rung, texted or messaged that is invalid, on the registry, or not scrubbed within seven days. */
  lemma AllowedIsDialable(c: Context)
    requires Evaluate(c).Allowed? && Evaluate(c).channel != Email
    ensures exists p :: p in c.phones && p.isValid && p.dnd == Clear && p.dndCheckedAt.Some?
                        && c.now - p.dndCheckedAt.value <= 7 * 24 * 3_600_000_000
                        && Evaluate(c).phone == Some(p.id) && Evaluate(c).address == p.e164
  {
    var k, i := AllowedMeans(c);
    var d := Evaluate(c);
    var n :| FirstDialable(c, n) && d.phone == Some(c.phones[n].id) && d.address == c.phones[n].e164;
    assert c.phones[n] in c.phones;
  }

  /** At most one level up, never down; and up to L3 only off a delivered contact and a balance at the floor. */
  lemma AllowedKeepsToTheLadder(c: Context)
    requires Evaluate(c).Allowed?
    ensures exists a :: a in c.accounts && a.id == Evaluate(c).account && a.status == Overdue
                        && (Evaluate(c).level == a.level || (Evaluate(c).level == L2 && a.level == L1)
                            || (Evaluate(c).level == L3 && a.level == L2 && a.deliveredAtLevel >= 1
                                && a.outstanding >= c.policy.l3MinOutstanding))
  {
    var k, i := AllowedMeans(c);
    assert c.accounts[k] in c.accounts;
  }

  /** The reasons that are given once the account and the moment are settled. */
  predicate OfContact(r: BlockReason) {
    match r
    case NoValidPhone | DndRegistered | DndUnknown | DndCheckStale => true
    case ChannelOptedOut | ChannelCapReached | NoContactAddress | NoTemplateForLevel => true
    case L3TemplateNotApproved | SmsTemplateNotRegistered => true
    case _ => false
  }

  lemma NoRungReasons(c: Context, l: Level)
    requires !SomeRung(c, l)
    ensures ChosenChannel(c, l, SelectPhone(c).Ok?).Err?
    ensures OfContact(ChosenChannel(c, l, SelectPhone(c).Ok?).error)
    ensures SelectPhone(c).Err? ==> OfContact(SelectPhone(c).error)
  {
    ChannelChosen(c, l);
    PhoneChosen(c);
  }

  lemma WordsReasons(c: Context, l: Level)
    requires SomeRung(c, l)
    ensures ChosenChannel(c, l, SelectPhone(c).Ok?).Ok?
    ensures var words := SelectTemplate(c, l, ChosenChannel(c, l, SelectPhone(c).Ok?).value);
            words.Err? ==> OfContact(words.error)
  {
    var ch, i := WordsFound(c, l);
  }

  lemma ContactReasons(c: Context, a: AccountRef, l: Level)
    ensures Contact(c, a, l).Refused? ==> OfContact(Contact(c, a, l).reason)
  {
    if SomeRung(c, l) {
      ChosenIsReachable(c, l);
      WordsReasons(c, l);
    } else {
      NoRungReasons(c, l);
    }
  }

  lemma AccountReasons(c: Context, a: AccountRef)
    ensures EvaluateFor(c, a) == Refused(DailyCapReached) ==> c.attemptsToday >= c.maxPerDay
    ensures EvaluateFor(c, a) == Refused(WeeklyCapReached) ==> c.attemptsThisWeek >= c.maxPerWeek
    ensures EvaluateFor(c, a) != Refused(ConsentWithdrawn)
  {
    ContactReasons(c, a, DetermineLevel(c, a).0);
  }

  /** A refusal for a cap tells of a count at the cap. */
  lemma CapReasonMeans(c: Context)
    ensures Evaluate(c) == Refused(DailyCapReached) ==> c.attemptsToday >= c.maxPerDay
    ensures Evaluate(c) == Refused(WeeklyCapReached) ==> c.attemptsThisWeek >= c.maxPerWeek
  {
    AccountChosen(c);
    if SelectAccount(c).Ok? { AccountReasons(c, SelectAccount(c).value); }
  }

  /** Of an active campaign's refusals, exactly those of a debtor who withdrew consent say so. */
  lemma ConsentReasonExactly(c: Context)
    requires c.campaignActive
    ensures Evaluate(c) == Refused(ConsentWithdrawn) <==> c.consentWithdrawn
  {
    AccountChosen(c);
    if SelectAccount(c).Ok? { AccountReasons(c, SelectAccount(c).value); }
  }
}
