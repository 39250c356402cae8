/** The Policy Engine (backend/app/policy/engine.py): whether a contact happens, at what level, about
    which account, by which channel. Times are microseconds; the campaign's time zone conversion is
    an input (`local`). */
module Policy {
  import opened Common
  import opened Sorting

  const HOUR := 3_600_000_000
  const DAY := 24 * HOUR
  const DND_MAX_AGE := 7 * DAY

  datatype BlockReason =
    | CampaignNotActive | ConsentWithdrawn | BuyerSuppressed
    | AccountInDispute | AccountClosed | AccountNotOverdue
    | NoValidPhone | DndRegistered | DndUnknown | DndCheckStale
    | Blackout | WeekendNotPermitted | OutsideCallingWindow
    | DailyCapReached | WeeklyCapReached | CooldownActive
    | NoTemplateForLevel | L3TemplateNotApproved | L3RequiresPriorContact
    | ChannelOptedOut | ChannelCapReached | NoContactAddress | SmsTemplateNotRegistered

  datatype Channel = Sms | WhatsApp | Email | Voice

  datatype Dnd = DndNotChecked | OnRegistry | Clear

  datatype PhoneRef = PhoneRef(id: nat, e164: string, priority: int, isValid: bool, dnd: Dnd, dndCheckedAt: Option<int>)

  datatype AccountRef = AccountRef(id: nat, status: AccountStatus, outstanding: int, dueDate: int, level: Level,
                                   levelEnteredAt: int, attemptsAtLevel: int, deliveredAtLevel: int,
                                   lastContactAt: Option<int>)

  datatype TemplateRef = TemplateRef(level: Level, language: string, versionId: nat, isApproved: bool,
                                     channel: Channel, dltRegistered: bool)

  datatype EscalationPolicy = EscalationPolicy(l1AfterDays: int, l2AfterDaysAtL1: int, l3AfterDaysAtL2: int,
                                               maxAttemptsPerLevel: int, l3MinOutstanding: int)

  /** The decision instant in the campaign's zone; `weekday` counts from Monday. */
  datatype LocalTime = LocalTime(date: int, weekday: int, time: int)

  /** A missing e-mail address is "". */
  datatype Context = Context(
    now: int, local: LocalTime, campaignActive: bool,
    windowStart: int, windowEnd: int, callOnWeekends: bool, blackoutDays: set<int>,
    maxPerDay: int, maxPerWeek: int, minHoursBetween: int,
    consentWithdrawn: bool, suppressedUntil: Option<int>,
    phones: seq<PhoneRef>, accounts: seq<AccountRef>,
    attemptsToday: int, attemptsThisWeek: int,
    templates: seq<TemplateRef>, policy: EscalationPolicy, language: string,
    channelsEnabled: seq<Channel>, optedOut: set<Channel>, email: string,
    todayByChannel: map<Channel, int>, capByChannel: map<Channel, int>)

  datatype Decision =
    | Allowed(account: nat, level: Level, version: nat, phone: Option<nat>, channel: Channel, address: string,
              requiresDtmf: bool)
    | Refused(reason: BlockReason)

  // ---------------------------------------------------------------------- the level ladder

  function LevelRank(l: Level): int { match l case L1 => 1 case L2 => 2 case L3 => 3 }

  /** `timedelta.days`, which floors. */
  function Days(delta: int): int { delta / DAY }

  /** The level to contact at, and whether a human should look first. */
  function DetermineLevel(c: Context, a: AccountRef): (Level, bool) {
    var days := Days(c.now - a.levelEnteredAt);
    var exhausted := a.attemptsAtLevel >= c.policy.maxAttemptsPerLevel;
    match a.level
    case L1 => if days >= c.policy.l2AfterDaysAtL1 && exhausted then (L2, false) else (L1, false)
    case L2 =>
      if !(days >= c.policy.l3AfterDaysAtL2 && exhausted) then (L2, false)
      else if a.outstanding < c.policy.l3MinOutstanding then (L2, false)
      else if a.deliveredAtLevel < 1 then (L2, true)
      else (L3, false)
    case L3 => (L3, false)
  }

  // ---------------------------------------------------------------------------- selection

  function Keep<T>(s: seq<T>, p: T -> bool): seq<T> {
    if s == [] then [] else (if p(s[0]) then [s[0]] else []) + Keep(s[1..], p)
  }

  lemma {:induction false} KeepMembers<T>(s: seq<T>, p: T -> bool)
    ensures forall x :: x in Keep(s, p) <==> x in s && p(x)
  {
    if s != [] {
      KeepMembers(s[1..], p);
      assert s == [s[0]] + s[1..];
    }
  }

  predicate Eligible(c: Context, a: AccountRef) {
    a.status == Overdue && Days(c.now - a.dueDate) >= c.policy.l1AfterDays
  }

  /** At least as severe: level, then age, then size. */
  predicate Severer(c: Context, a: AccountRef, b: AccountRef) {
    var (da, db) := (Days(c.now - a.dueDate), Days(c.now - b.dueDate));
    || LevelRank(a.level) > LevelRank(b.level)
    || (a.level == b.level && da > db)
    || (a.level == b.level && da == db && a.outstanding >= b.outstanding)
  }

  function EligibleIn(c: Context): AccountRef -> bool { (a: AccountRef) => Eligible(c, a) }

  function SevererIn(c: Context): (AccountRef, AccountRef) -> bool {
    (a: AccountRef, b: AccountRef) => Severer(c, a, b)
  }

  predicate Closed(s: AccountStatus) { s == Settled || s == AccountWrittenOff }

  function AccountReason(c: Context): BlockReason {
    if c.accounts == [] then AccountNotOverdue
    else if (exists a :: a in c.accounts && a.status == InDispute) &&
            (forall a :: a in c.accounts ==> Closed(a.status) || a.status == InDispute) then AccountInDispute
    else if forall a :: a in c.accounts ==> Closed(a.status) then AccountClosed
    else AccountNotOverdue
  }

  function SelectAccount(c: Context): Result<AccountRef, BlockReason> {
    var eligible := Keep(c.accounts, EligibleIn(c));
    var sorted := Sort(eligible, SevererIn(c));
    if sorted != [] then Ok(sorted[0]) else Err(AccountReason(c))
  }

  predicate CallableNow(c: Context, p: PhoneRef) {
    p.isValid && p.dnd == Clear && p.dndCheckedAt.Some? && c.now - p.dndCheckedAt.value <= DND_MAX_AGE
  }

  function CallableIn(c: Context): PhoneRef -> bool { (p: PhoneRef) => CallableNow(c, p) }

  predicate Sooner(p: PhoneRef, q: PhoneRef) { p.priority <= q.priority }

  function PhoneReason(c: Context): BlockReason {
    if forall p :: p in c.phones ==> !p.isValid then NoValidPhone
    else if forall p :: p in c.phones && p.isValid ==> p.dnd == OnRegistry then DndRegistered
    else if exists p :: p in c.phones && p.isValid && p.dnd == DndNotChecked then DndUnknown
    else DndCheckStale
  }

  function SelectPhone(c: Context): Result<PhoneRef, BlockReason> {
    var usable := Sort(Keep(c.phones, CallableIn(c)), Sooner);
    if usable != [] then Ok(usable[0]) else Err(PhoneReason(c))
  }

  function Preference(l: Level): seq<Channel> {
    match l
    case L1 => [Sms, WhatsApp, Email, Voice]
    case L2 => [Voice, WhatsApp, Sms, Email]
    case L3 => [Voice]
  }

  predicate UsesPhone(ch: Channel) { ch != Email }

  function ForRung(l: Level, ch: Channel): TemplateRef -> bool { (t: TemplateRef) => t.level == l && t.channel == ch }

  function SpokenIn(language: string): TemplateRef -> bool { (t: TemplateRef) => t.language == language }

  function EnabledIn(c: Context): Channel -> bool { (ch: Channel) => ch in c.channelsEnabled }

  function TemplatesFor(c: Context, l: Level, ch: Channel): seq<TemplateRef> {
    Keep(c.templates, ForRung(l, ch))
  }

  predicate HasAddress(c: Context, hasPhone: bool, ch: Channel) {
    if UsesPhone(ch) then hasPhone else c.email != ""
  }

  predicate AtCap(c: Context, ch: Channel) {
    ch in c.capByChannel && (if ch in c.todayByChannel then c.todayByChannel[ch] else 0) >= c.capByChannel[ch]
  }

  /** Why a rung is skipped, if it is. */
  datatype Rung = Usable | NoTemplate | OptOut | NoAddress | Capped

  function Consider(c: Context, l: Level, hasPhone: bool, ch: Channel): Rung {
    if TemplatesFor(c, l, ch) == [] then NoTemplate
    else if ch in c.optedOut then OptOut
    else if !HasAddress(c, hasPhone, ch) then NoAddress
    else if AtCap(c, ch) then Capped
    else Usable
  }

  function Considered(c: Context, l: Level): seq<Channel> {
    Keep(Preference(l), EnabledIn(c))
  }

  function ConsiderIn(c: Context, l: Level, hasPhone: bool): Channel -> Rung {
    (ch: Channel) => Consider(c, l, hasPhone, ch)
  }

  /** The loop over the rungs, with what it has seen so far. */
  function Climb(judge: Channel -> Rung, rungs: seq<Channel>, sawOptOut: bool, sawCap: bool, sawMissing: bool):
    Result<Channel, BlockReason>
  {
    if rungs == [] then
      Err(if sawOptOut then ChannelOptedOut else if sawCap then ChannelCapReached
          else if sawMissing then NoContactAddress else NoTemplateForLevel)
    else
      match judge(rungs[0])
      case Usable => Ok(rungs[0])
      case r => Climb(judge, rungs[1..], sawOptOut || r == OptOut, sawCap || r == Capped, sawMissing || r == NoAddress)
  }

  function ChosenChannel(c: Context, l: Level, hasPhone: bool): Result<Channel, BlockReason> {
    Climb(ConsiderIn(c, l, hasPhone), Considered(c, l), false, false, false)
  }

  lemma ClimbStep(judge: Channel -> Rung, rungs: seq<Channel>, i: nat, o: bool, k: bool, m: bool)
    requires i < |rungs|
    ensures Climb(judge, rungs[i..], o, k, m) ==
            if judge(rungs[i]) == Usable then Ok(rungs[i])
            else
              Climb(judge, rungs[i + 1..], o || judge(rungs[i]) == OptOut, k || judge(rungs[i]) == Capped,
                    m || judge(rungs[i]) == NoAddress)
  {
    assert rungs[i..][1..] == rungs[i + 1..];
  }

  method SelectChannel(c: Context, l: Level, hasPhone: bool) returns (r: Result<Channel, BlockReason>)
    ensures r == ChosenChannel(c, l, hasPhone)
  {
    var considered := Considered(c, l);
    var sawOptOut, sawMissing, sawCap := false, false, false;
    ghost var judge := ConsiderIn(c, l, hasPhone);
    for i := 0 to |considered|
      invariant ChosenChannel(c, l, hasPhone) == Climb(judge, considered[i..], sawOptOut, sawCap, sawMissing)
    {
      var ch := considered[i];
      ClimbStep(judge, considered, i, sawOptOut, sawCap, sawMissing);
      assert judge(ch) == Consider(c, l, hasPhone, ch);
      if TemplatesFor(c, l, ch) == [] {
        continue;
      }
      if ch in c.optedOut {
        sawOptOut := true;
        continue;
      }
      if UsesPhone(ch) && !hasPhone {
        sawMissing := true;
        continue;
      }
      if ch == Email && c.email == "" {
        sawMissing := true;
        continue;
      }
      if ch in c.capByChannel {
        var sent := if ch in c.todayByChannel then c.todayByChannel[ch] else 0;
        if sent >= c.capByChannel[ch] {
          sawCap := true;
          continue;
        }
      }
      return Ok(ch);
    }
    if sawOptOut {
      return Err(ChannelOptedOut);
    }
    if sawCap {
      return Err(ChannelCapReached);
    }
    if sawMissing {
      return Err(NoContactAddress);
    }
    return Err(NoTemplateForLevel);
  }

  predicate ApprovedFirst(t: TemplateRef, u: TemplateRef) { t.isApproved || !u.isApproved }

  /** Words in the buyer's language if there are any, else all of them. */
  function Candidates(c: Context, forLevel: seq<TemplateRef>): seq<TemplateRef> {
    var exact := Keep(forLevel, SpokenIn(c.language));
    if exact != [] then exact else forLevel
  }

  function SelectTemplate(c: Context, l: Level, ch: Channel): Result<TemplateRef, BlockReason> {
    var forLevel := TemplatesFor(c, l, ch);
    if forLevel == [] then Err(NoTemplateForLevel)
    else
      var sorted := Sort(Candidates(c, forLevel), ApprovedFirst);
      if sorted == [] then Err(NoTemplateForLevel)
      else if l == L3 && !sorted[0].isApproved then Err(L3TemplateNotApproved)
      else if ch == Sms && !sorted[0].dltRegistered then Err(SmsTemplateNotRegistered)
      else Ok(sorted[0])
  }

  // ----------------------------------------------------------------------------- evaluate

  predicate Suppressed(c: Context) { c.suppressedUntil.Some? && c.now < c.suppressedUntil.value }

  predicate InWindow(c: Context) {
    !(c.windowEnd <= c.windowStart || !(c.windowStart <= c.local.time < c.windowEnd))
  }

  /** The latest contact on any account. */
  function LastContact(accounts: seq<AccountRef>): Option<int> {
    if accounts == [] then None
    else
      var rest := LastContact(accounts[1..]);
      match accounts[0].lastContactAt
      case None => rest
      case Some(t) => if rest.Some? then Some(Max(t, rest.value)) else Some(t)
  }

  predicate CoolingDown(c: Context) {
    LastContact(c.accounts).Some? && c.now - LastContact(c.accounts).value < c.minHoursBetween * HOUR
  }

  function Evaluate(c: Context): Decision {
    if !c.campaignActive then Refused(CampaignNotActive)
    else if c.consentWithdrawn then Refused(ConsentWithdrawn)
    else if Suppressed(c) then Refused(BuyerSuppressed)
    else
      match SelectAccount(c)
      case Err(reason) => Refused(reason)
      case Ok(account) => EvaluateFor(c, account)
  }

  /** The rest of `evaluate`, once an account is selected. */
  function EvaluateFor(c: Context, account: AccountRef): Decision {
    if NotNow(c).Some? then Refused(NotNow(c).value)
    else if DetermineLevel(c, account).1 then Refused(L3RequiresPriorContact)
    else Contact(c, account, DetermineLevel(c, account).0)
  }

  /** What speaks against any contact at this moment: calendar, window, caps, cooldown. */
  function NotNow(c: Context): Option<BlockReason> {
    if c.local.date in c.blackoutDays then Some(Blackout)
    else if !c.callOnWeekends && c.local.weekday >= 5 then Some(WeekendNotPermitted)
    else if !InWindow(c) then Some(OutsideCallingWindow)
    else if c.attemptsToday >= c.maxPerDay then Some(DailyCapReached)
    else if c.attemptsThisWeek >= c.maxPerWeek then Some(WeeklyCapReached)
    else if CoolingDown(c) then Some(CooldownActive)
    else None
  }

  /** The tail of `evaluate`: channel, address, words. */
  function Contact(c: Context, account: AccountRef, level: Level): Decision {
    var phone := SelectPhone(c);
    match ChosenChannel(c, level, phone.Ok?)
    case Err(reason) => Refused(if phone.Err? && reason == NoContactAddress then phone.error else reason)
    case Ok(channel) => By(account, level, phone, channel, SelectTemplate(c, level, channel), c.email)
  }

  /** By a channel, to its address, in the words chosen for it. */
  function By(account: AccountRef, level: Level, phone: Result<PhoneRef, BlockReason>, channel: Channel,
              words: Result<TemplateRef, BlockReason>, email: string): Decision
  {
    if UsesPhone(channel) && phone.Err? then Refused(phone.error)
    else
      match words
      case Err(reason) => Refused(reason)
      case Ok(template) =>
        Allowed(account.id, level, template.versionId,
                if UsesPhone(channel) then Some(phone.value.id) else None, channel,
                if UsesPhone(channel) then phone.value.e164 else email,
                level == L3 && channel == Voice)
  }

  // -------------------------------------------------------------------- what selection means

  lemma SevererIsPreorder(c: Context)
    ensures TotalPreorder(SevererIn(c))
  {
  }

  /** At least `n` whole days, of 86,400,000,000 microseconds. */
  ghost predicate WholeDays(delta: int, n: int) { delta >= n * 86_400_000_000 }

  lemma DaysAreWhole(delta: int, n: int)
    ensures Days(delta) >= n <==> WholeDays(delta, n)
  {
  }

  /** More whole days. */
  ghost predicate Longer(x: int, y: int) { exists n: int :: WholeDays(x, n) && !WholeDays(y, n) }

  lemma LongerMeans(x: int, y: int)
    ensures Longer(x, y) <==> Days(x) > Days(y)
  {
    DaysAreWhole(x, Days(x));
    DaysAreWhole(y, Days(x));
    if n: int :| WholeDays(x, n) && !WholeDays(y, n) {
      DaysAreWhole(x, n);
      DaysAreWhole(y, n);
    }
  }

  /** Overdue for as many whole days as the ladder waits before any contact. */
  ghost predicate IsDue(c: Context, a: AccountRef) {
    a.status == Overdue && WholeDays(c.now - a.dueDate, c.policy.l1AfterDays)
  }

  lemma DueMeans(c: Context, a: AccountRef)
    ensures Eligible(c, a) <==> IsDue(c, a)
  {
    DaysAreWhole(c.now - a.dueDate, c.policy.l1AfterDays);
  }

  /** Further up the ladder; at one level longer overdue; and as long overdue at one level, owing more. */
  ghost predicate Worse(c: Context, a: AccountRef, b: AccountRef) {
    var x, y := c.now - a.dueDate, c.now - b.dueDate;
    || (a.level == L3 && b.level != L3) || (a.level == L2 && b.level == L1)
    || (a.level == b.level && Longer(x, y))
    || (a.level == b.level && !Longer(y, x) && a.outstanding > b.outstanding)
  }

  lemma WorseMeans(c: Context, a: AccountRef, b: AccountRef)
    ensures Worse(c, a, b) <==> !Severer(c, b, a)
  {
    LongerMeans(c.now - a.dueDate, c.now - b.dueDate);
    LongerMeans(c.now - b.dueDate, c.now - a.dueDate);
  }

  lemma SelectionMeans(c: Context)
    ensures forall a :: Eligible(c, a) <==> IsDue(c, a)
    ensures forall a, b :: Worse(c, a, b) <==> !Severer(c, b, a)
  {
    forall a ensures Eligible(c, a) <==> IsDue(c, a) {
      DueMeans(c, a);
    }
    forall a, b ensures Worse(c, a, b) <==> !Severer(c, b, a) {
      WorseMeans(c, a, b);
    }
  }

  /** An account is chosen exactly when one is due, and none that is due is worse. With none, the reason is a dispute
      when every account is disputed or closed and one is disputed, that all are closed when they are, and otherwise
      that none is overdue. */
  lemma AccountChosen(c: Context)
    ensures SelectAccount(c).Ok? <==> exists a :: a in c.accounts && IsDue(c, a)
    ensures SelectAccount(c).Ok? ==> Severest(c, SelectAccount(c).value)
    ensures SelectAccount(c).Err? ==> SelectAccount(c).error in {AccountNotOverdue, AccountInDispute, AccountClosed}
    ensures SelectAccount(c) == Err(AccountInDispute) <==>
              && (exists a :: a in c.accounts && a.status == InDispute)
              && (forall a :: a in c.accounts ==> a.status in {InDispute, Settled, AccountWrittenOff})
    ensures SelectAccount(c) == Err(AccountClosed) <==>
              c.accounts != [] && forall a :: a in c.accounts ==> a.status in {Settled, AccountWrittenOff}
  {
    var p := EligibleIn(c);
    var le := SevererIn(c);
    KeepMembers(c.accounts, p);
    var eligible := Keep(c.accounts, p);
    SevererIsPreorder(c);
    SortPermutes(eligible, le);
    SelectionMeans(c);
    if eligible != [] {
      assert eligible[0] in eligible;
      SortHead(eligible, le);
    }
    assert c.accounts != [] ==> c.accounts[0] in c.accounts;
  }

  /** One of the accounts that are due, none of which is worse. */
  ghost predicate Severest(c: Context, a: AccountRef) {
    a in c.accounts && IsDue(c, a) && forall b :: b in c.accounts && IsDue(c, b) ==> !Worse(c, b, a)
  }

  /** The account at `k` is the first of them, in row order. */
  ghost predicate FirstSeverest(c: Context, k: int) {
    && 0 <= k < |c.accounts| && Severest(c, c.accounts[k])
    && forall j :: 0 <= j < k && IsDue(c, c.accounts[j]) ==> Worse(c, c.accounts[k], c.accounts[j])
  }

  /** That account is the one chosen. */
  lemma ChosenIsFirstSeverest(c: Context) returns (k: nat)
    requires SelectAccount(c).Ok?
    ensures FirstSeverest(c, k) && SelectAccount(c).value == c.accounts[k]
  {
    AccountChosen(c);
    SevererIsPreorder(c);
    SortPermutes(Keep(c.accounts, EligibleIn(c)), SevererIn(c));
    k := FirstOfKept(c.accounts, EligibleIn(c), SevererIn(c));
    forall j | 0 <= j < k && IsDue(c, c.accounts[j]) ensures Worse(c, c.accounts[k], c.accounts[j]) {
      DueMeans(c, c.accounts[j]);
      assert !SevererIn(c)(c.accounts[j], c.accounts[k]);
      WorseMeans(c, c.accounts[k], c.accounts[j]);
    }
  }

  lemma FirstSeverestOnce(c: Context, i: int, j: int)
    requires FirstSeverest(c, i) && FirstSeverest(c, j)
    ensures i == j
  {
  }

  /** Valid, clear of the registry, and scrubbed within seven days. */
  ghost predicate Dialable(c: Context, p: PhoneRef) {
    p.isValid && p.dnd == Clear && p.dndCheckedAt.Some? && c.now - p.dndCheckedAt.value <= 7 * 86_400_000_000
  }

  lemma DialableMeans(c: Context)
    ensures forall p :: CallableNow(c, p) <==> Dialable(c, p)
  {
  }

  /** The first, in row order, of the dialable numbers of lowest priority. */
  ghost predicate FirstDialable(c: Context, k: int) {
    && 0 <= k < |c.phones| && Dialable(c, c.phones[k])
    && (forall q :: q in c.phones && Dialable(c, q) ==> c.phones[k].priority <= q.priority)
    && forall j :: 0 <= j < k && Dialable(c, c.phones[j]) ==> c.phones[k].priority < c.phones[j].priority
  }

  /** A number is chosen exactly when one is dialable; the refusals say which column was in the way of all. */
  lemma PhoneChosen(c: Context)
    ensures SelectPhone(c).Ok? <==> exists p :: p in c.phones && Dialable(c, p)
    ensures SelectPhone(c).Ok? ==> SelectPhone(c).value in c.phones && Dialable(c, SelectPhone(c).value)
    ensures SelectPhone(c) == Err(NoValidPhone) <==> forall p :: p in c.phones ==> !p.isValid
    ensures SelectPhone(c) == Err(DndRegistered) <==>
              && (exists p :: p in c.phones && p.isValid)
              && (forall p :: p in c.phones && p.isValid ==> p.dnd == OnRegistry)
    ensures SelectPhone(c) == Err(DndUnknown) <==>
              && (exists p :: p in c.phones && p.isValid && p.dnd == DndNotChecked)
              && (forall p :: p in c.phones ==> !Dialable(c, p))
    ensures SelectPhone(c) == Err(DndCheckStale) <==>
              && (exists p :: p in c.phones && p.isValid && p.dnd == Clear)
              && (forall p :: p in c.phones && p.isValid ==> p.dnd != DndNotChecked && !Dialable(c, p))
    ensures SelectPhone(c).Err? ==> SelectPhone(c).error in {NoValidPhone, DndRegistered, DndUnknown, DndCheckStale}
  {
    var p := CallableIn(c);
    KeepMembers(c.phones, p);
    var usable := Keep(c.phones, p);
    SortPermutes(usable, Sooner);
    DialableMeans(c);
    if usable != [] {
      assert usable[0] in usable;
      SortHead(usable, Sooner);
    }
  }

  /** The number chosen is the first of lowest priority. */
  lemma ChosenIsFirstDialable(c: Context) returns (k: nat)
    requires SelectPhone(c).Ok?
    ensures FirstDialable(c, k) && SelectPhone(c).value == c.phones[k]
  {
    SortPermutes(Keep(c.phones, CallableIn(c)), Sooner);
    k := FirstOfKept(c.phones, CallableIn(c), Sooner);
    DialableMeans(c);
    forall q | q in c.phones && Dialable(c, q) ensures c.phones[k].priority <= q.priority {
      assert CallableIn(c)(q) && Sooner(c.phones[k], q);
    }
    forall j | 0 <= j < k && Dialable(c, c.phones[j]) ensures c.phones[k].priority < c.phones[j].priority {
      assert CallableIn(c)(c.phones[j]) && !Sooner(c.phones[j], c.phones[k]);
    }
  }

  /** The first element of a sorted `Keep` is, of all that were kept, the first in order of the least. */
  lemma FirstOfKept<T(!new)>(s: seq<T>, p: T -> bool, le: (T, T) -> bool) returns (k: nat)
    requires TotalPreorder(le) && Keep(s, p) != []
    ensures k < |s| && p(s[k]) && Sort(Keep(s, p), le) != [] && Sort(Keep(s, p), le)[0] == s[k]
    ensures forall x :: x in s && p(x) ==> le(s[k], x)
    ensures forall j :: 0 <= j < k && p(s[j]) ==> !le(s[j], s[k])
  {
    var kept := Keep(s, p);
    var i := SortHeadIsFirst(kept, le);
    k := KeepPlace(s, p, i);
    KeepMembers(s, p);
    KeepMembers(s[..k], p);
    assert kept[i] in kept;
    forall j | 0 <= j < k && p(s[j]) ensures !le(s[j], s[k]) {
      assert s[..k][j] in Keep(s[..k], p);
      var m :| 0 <= m < i && kept[..i][m] == s[j];
    }
  }

  ghost predicate Saw(judge: Channel -> Rung, rungs: seq<Channel>, r: Rung) {
    exists ch :: ch in rungs && judge(ch) == r
  }

  ghost predicate FirstUsable(judge: Channel -> Rung, rungs: seq<Channel>, i: int) {
    0 <= i < |rungs| && judge(rungs[i]) == Usable && forall j :: 0 <= j < i ==> judge(rungs[j]) != Usable
  }

  lemma SawCons(judge: Channel -> Rung, rungs: seq<Channel>, r: Rung)
    requires rungs != []
    ensures Saw(judge, rungs, r) <==> judge(rungs[0]) == r || Saw(judge, rungs[1..], r)
  {
    assert forall ch :: ch in rungs <==> ch == rungs[0] || ch in rungs[1..];
  }

  lemma FirstUsableCons(judge: Channel -> Rung, rungs: seq<Channel>, i: int)
    requires rungs != [] && judge(rungs[0]) != Usable && FirstUsable(judge, rungs[1..], i)
    ensures FirstUsable(judge, rungs, i + 1)
  {
    forall j | 0 <= j < i + 1 ensures judge(rungs[j]) != Usable {
      assert j > 0 ==> rungs[j] == rungs[1..][j - 1];
    }
  }

  /** The climb takes the first usable rung, and only without one reports the strongest thing seen. */
  lemma {:induction false} ClimbMeans(judge: Channel -> Rung, rungs: seq<Channel>, o: bool, k: bool, m: bool)
    ensures match Climb(judge, rungs, o, k, m)
            case Ok(ch) => exists i :: FirstUsable(judge, rungs, i) && rungs[i] == ch
            case Err(reason) =>
              && !Saw(judge, rungs, Usable)
              && reason == (if o || Saw(judge, rungs, OptOut) then ChannelOptedOut
                            else if k || Saw(judge, rungs, Capped) then ChannelCapReached
                            else if m || Saw(judge, rungs, NoAddress) then NoContactAddress
                            else NoTemplateForLevel)
  {
    if rungs != [] {
      var r := judge(rungs[0]);
      SawCons(judge, rungs, Usable);
      SawCons(judge, rungs, OptOut);
      SawCons(judge, rungs, Capped);
      SawCons(judge, rungs, NoAddress);
      if r == Usable {
        assert FirstUsable(judge, rungs, 0);
      } else {
        ClimbMeans(judge, rungs[1..], o || r == OptOut, k || r == Capped, m || r == NoAddress);
        if Climb(judge, rungs, o, k, m).Ok? {
          var i :| FirstUsable(judge, rungs[1..], i) && rungs[1..][i] == Climb(judge, rungs, o, k, m).value;
          FirstUsableCons(judge, rungs, i);
        }
      }
    }
  }

  /** Words that may be said: for the level and channel, and in the buyer's language if any of those are. */
  ghost predicate Fits(c: Context, l: Level, ch: Channel, t: TemplateRef) {
    && t in c.templates && t.level == l && t.channel == ch
    && (t.language == c.language || forall u :: u in c.templates && u.level == l && u.channel == ch ==>
        u.language != c.language)
  }

  /** The words at `i` are chosen: the first approved fitting ones, or the first fitting ones when none is approved. */
  ghost predicate ChosenAt(c: Context, l: Level, ch: Channel, i: int) {
    && 0 <= i < |c.templates| && Fits(c, l, ch, c.templates[i])
    && (c.templates[i].isApproved || forall u :: Fits(c, l, ch, u) ==> !u.isApproved)
    && forall j :: 0 <= j < i && Fits(c, l, ch, c.templates[j]) ==>
        c.templates[i].isApproved && !c.templates[j].isApproved
  }

  /** The elements of a `Keep` stand in the order they stood in. */
  lemma {:induction false} KeepPlace<T>(s: seq<T>, p: T -> bool, i: nat) returns (k: nat)
    requires i < |Keep(s, p)|
    ensures k < |s| && s[k] == Keep(s, p)[i] && Keep(s[..k], p) == Keep(s, p)[..i]
  {
    if p(s[0]) && i == 0 {
      k := 0;
    } else {
      var i' := if p(s[0]) then i - 1 else i;
      var k' := KeepPlace(s[1..], p, i');
      k := k' + 1;
      assert s[..k][1..] == s[1..][..k'];
      assert Keep(s, p)[..i] == (if p(s[0]) then [s[0]] else []) + Keep(s[1..], p)[..i'];
    }
  }

  /** Sorting by approval puts the first approved element first, or keeps the first when none is. */
  lemma ApprovedFirstHead(s: seq<TemplateRef>)
    requires s != []
    ensures Sort(s, ApprovedFirst) != []
    ensures exists i :: FirstBest(s, i) && Sort(s, ApprovedFirst)[0] == s[i]
  {
    var i := SortHeadIsFirst(s, ApprovedFirst);
    assert forall k :: 0 <= k < |s| ==> s[k] in s;
    assert FirstBest(s, i);
  }

  predicate FirstBest(s: seq<TemplateRef>, i: int) {
    && 0 <= i < |s|
    && (s[i].isApproved || forall k :: 0 <= k < |s| ==> !s[k].isApproved)
    && forall k :: 0 <= k < i ==> s[i].isApproved && !s[k].isApproved
  }

  function FitsIn(c: Context, l: Level, ch: Channel, exact: bool): TemplateRef -> bool {
    (t: TemplateRef) => t.level == l && t.channel == ch && (exact ==> t.language == c.language)
  }

  /** The candidates are the fitting words, in row order. */
  lemma CandidatesAreFitting(c: Context, l: Level, ch: Channel) returns (exact: bool)
    requires TemplatesFor(c, l, ch) != []
    ensures Candidates(c, TemplatesFor(c, l, ch)) == Keep(c.templates, FitsIn(c, l, ch, exact)) != []
    ensures forall t :: Fits(c, l, ch, t) <==> t in c.templates && FitsIn(c, l, ch, exact)(t)
  {
    var spoken := Keep(TemplatesFor(c, l, ch), SpokenIn(c.language));
    exact := spoken != [];
    KeepTwice(c.templates, ForRung(l, ch), SpokenIn(c.language), FitsIn(c, l, ch, true));
    KeepSame(c.templates, ForRung(l, ch), FitsIn(c, l, ch, false));
    SpokenExactly(c, l, ch);
  }

  /** Something is said in the buyer's language exactly when some words for the rung are in it. */
  lemma SpokenExactly(c: Context, l: Level, ch: Channel)
    ensures Keep(TemplatesFor(c, l, ch), SpokenIn(c.language)) != [] <==>
            exists u :: u in c.templates && u.level == l && u.channel == ch && u.language == c.language
  {
    var spoken := Keep(TemplatesFor(c, l, ch), SpokenIn(c.language));
    KeepMembers(c.templates, ForRung(l, ch));
    KeepMembers(TemplatesFor(c, l, ch), SpokenIn(c.language));
    if spoken != [] { assert spoken[0] in spoken; }
    forall u | u in c.templates && u.level == l && u.channel == ch && u.language == c.language ensures spoken != [] {
      assert u in TemplatesFor(c, l, ch) && u in spoken;
    }
  }

  lemma {:induction false} KeepTwice<T>(s: seq<T>, p: T -> bool, q: T -> bool, both: T -> bool)
    requires forall x :: x in s ==> both(x) == (p(x) && q(x))
    ensures Keep(Keep(s, p), q) == Keep(s, both)
  {
    if s != [] {
      assert s[0] in s;
      KeepTwice(s[1..], p, q, both);
      assert [s[0]] + s[1..] == s;
      KeepCons(s[0], s[1..], p);
      KeepCons(s[0], s[1..], both);
      if p(s[0]) { KeepCons(s[0], Keep(s[1..], p), q); } else { assert Keep(s, p) == Keep(s[1..], p); }
    }
  }

  lemma KeepCons<T>(x: T, s: seq<T>, p: T -> bool)
    ensures Keep([x] + s, p) == (if p(x) then [x] else []) + Keep(s, p)
  {
    assert ([x] + s)[1..] == s;
  }

  lemma {:induction false} KeepSame<T>(s: seq<T>, p: T -> bool, q: T -> bool)
    requires forall x :: x in s ==> p(x) == q(x)
    ensures Keep(s, p) == Keep(s, q)
  {
    if s != [] {
      KeepSame(s[1..], p, q);
    }
  }

  /** The first best of the candidates stands, among all words, where the chosen ones do. */
  lemma CandidateIsChosen(c: Context, l: Level, ch: Channel, exact: bool, i: nat) returns (k: nat)
    requires forall t :: Fits(c, l, ch, t) <==> t in c.templates && FitsIn(c, l, ch, exact)(t)
    requires FirstBest(Keep(c.templates, FitsIn(c, l, ch, exact)), i)
    ensures ChosenAt(c, l, ch, k) && c.templates[k] == Keep(c.templates, FitsIn(c, l, ch, exact))[i]
  {
    var p := FitsIn(c, l, ch, exact);
    var kept := Keep(c.templates, p);
    k := KeepPlace(c.templates, p, i);
    KeepMembers(c.templates, p);
    KeepMembers(c.templates[..k], p);
    assert kept[i] in kept;
    forall u | Fits(c, l, ch, u) ensures kept[i].isApproved || !u.isApproved {
      assert u in kept;
    }
    forall j | 0 <= j < k && Fits(c, l, ch, c.templates[j]) ensures kept[i].isApproved && !c.templates[j].isApproved {
      assert c.templates[j] == c.templates[..k][j];
      assert c.templates[j] in kept[..i];
    }
  }

  lemma ChosenOnce(c: Context, l: Level, ch: Channel, i: int, j: int)
    requires ChosenAt(c, l, ch, i) && ChosenAt(c, l, ch, j)
    ensures i == j
  {
    assert Fits(c, l, ch, c.templates[i]) && Fits(c, l, ch, c.templates[j]);
  }

  lemma RungHasTemplate(c: Context, l: Level, ch: Channel)
    ensures TemplatesFor(c, l, ch) != [] <==> exists t :: t in c.templates && t.level == l && t.channel == ch
  {
    KeepMembers(c.templates, ForRung(l, ch));
    var templates := TemplatesFor(c, l, ch);
    assert templates != [] ==> templates[0] in templates;
  }

  /**
   * The words, exactly. There are none to choose from when the level and channel have none; otherwise those chosen
   * are refused at L3 when no fitting words are approved, by SMS when they are unregistered, and are said when not.
   */
  lemma WordsExactly(c: Context, l: Level, ch: Channel)
    ensures SelectTemplate(c, l, ch) == Err(NoTemplateForLevel) <==> forall i :: !ChosenAt(c, l, ch, i)
    ensures SelectTemplate(c, l, ch) == Err(L3TemplateNotApproved) <==>
              l == L3 && (exists i :: ChosenAt(c, l, ch, i)) && forall t :: Fits(c, l, ch, t) ==> !t.isApproved
    ensures SelectTemplate(c, l, ch) == Err(SmsTemplateNotRegistered) <==>
              exists i :: ChosenAt(c, l, ch, i) && (l == L3 ==> c.templates[i].isApproved)
                          && ch == Sms && !c.templates[i].dltRegistered
    ensures SelectTemplate(c, l, ch).Ok? <==>
              exists i :: ChosenAt(c, l, ch, i) && Sayable(l, ch, c.templates[i])
    ensures forall i :: ChosenAt(c, l, ch, i) && SelectTemplate(c, l, ch).Ok? ==>
            SelectTemplate(c, l, ch).value == c.templates[i]
  {
    if TemplatesFor(c, l, ch) == [] {
      RungHasTemplate(c, l, ch);
    } else {
      var k := ChosenIsThere(c, l, ch);
      forall i | ChosenAt(c, l, ch, i) ensures i == k {
        ChosenOnce(c, l, ch, i, k);
      }
      assert c.templates[k].isApproved <==> exists t :: Fits(c, l, ch, t) && t.isApproved;
    }
  }

  /** So the words said are for the level and channel, in the buyer's language if any are, and approved if any of
      those are. */
  lemma TemplateChosen(c: Context, l: Level, ch: Channel)
    ensures SelectTemplate(c, l, ch).Ok? ==>
              var t := SelectTemplate(c, l, ch).value;
              && t in c.templates && t.level == l && t.channel == ch
              && (l == L3 ==> t.isApproved) && (ch == Sms ==> t.dltRegistered)
              && (t.language == c.language || forall u :: u in TemplatesFor(c, l, ch) ==> u.language != c.language)
              && (!t.isApproved ==> forall u :: u in TemplatesFor(c, l, ch) && u.language == c.language ==>
                  !u.isApproved)
  {
    WordsExactly(c, l, ch);
    KeepMembers(c.templates, ForRung(l, ch));
  }

  predicate Sayable(l: Level, ch: Channel, t: TemplateRef) {
    (l == L3 ==> t.isApproved) && (ch == Sms ==> t.dltRegistered)
  }

  lemma ChosenIsThere(c: Context, l: Level, ch: Channel) returns (k: nat)
    requires TemplatesFor(c, l, ch) != []
    ensures ChosenAt(c, l, ch, k)
    ensures SelectTemplate(c, l, ch) ==
            var t := c.templates[k];
            if l == L3 && !t.isApproved then Err(L3TemplateNotApproved)
            else if ch == Sms && !t.dltRegistered then Err(SmsTemplateNotRegistered)
            else Ok(t)
  {
    var exact := CandidatesAreFitting(c, l, ch);
    var candidates := Candidates(c, TemplatesFor(c, l, ch));
    ApprovedFirstHead(candidates);
    var i :| FirstBest(candidates, i) && Sort(candidates, ApprovedFirst)[0] == candidates[i];
    k := CandidateIsChosen(c, l, ch, exact, i);
  }

  lemma {:induction false} LastContactIsLatest(accounts: seq<AccountRef>)
    ensures LastContact(accounts).None? <==> forall a :: a in accounts ==> a.lastContactAt.None?
    ensures LastContact(accounts).Some? ==>
              && (exists a :: a in accounts && a.lastContactAt == LastContact(accounts))
              && forall a :: a in accounts && a.lastContactAt.Some? ==>
                  a.lastContactAt.value <= LastContact(accounts).value
  {
    if accounts != [] {
      LastContactIsLatest(accounts[1..]);
      assert forall a :: a in accounts <==> a == accounts[0] || a in accounts[1..];
    }
  }

  /** An allowed contact has passed the gates that stand before the account and the moment. */
  lemma AllowedIsContact(c: Context) returns (a: AccountRef)
    requires Evaluate(c).Allowed?
    ensures SelectAccount(c) == Ok(a) && Evaluate(c) == Contact(c, a, DetermineLevel(c, a).0)
    ensures !c.consentWithdrawn && c.attemptsToday < c.maxPerDay && c.attemptsThisWeek < c.maxPerWeek
  {
    a := SelectAccount(c).value;
  }
}
