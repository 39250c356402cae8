/** The recovery projection of each invoice and the callers that keep it in step
    (backend/app/trade/accounts.py, backend/app/ingestion/reconcile.py, the payment route). */
module Accounts {
  import opened Common
  import opened Allocation
  import opened Ledger
  import PT = PaymentTransactions

  datatype Escalation = Escalation(level: Level, attemptsAtLevel: int, lastContactAt: Option<int>,
                                   needsHumanReview: bool)

  datatype Account = Account(status: AccountStatus, outstanding: int, dueDate: int, escalation: Option<Escalation>)

  /** One account per invoice, under the invoice's id. */
  datatype Office = Office(books: Books, accounts: map<nat, Account>)

  function StatusFor(inv: Invoice, now: int): AccountStatus {
    if inv.status == InvoiceWrittenOff then AccountWrittenOff
    else if inv.outstanding == 0 then Settled
    else if inv.dueDate <= now then Overdue
    else Current
  }

  /** Settling clears the review flag; a part payment softens the cadence and keeps the level. */
  function Laddered(e: Option<Escalation>, status: AccountStatus, paidSomething: bool): Option<Escalation> {
    if e.None? then None
    else if status == Settled then Some(e.value.(needsHumanReview := false))
    else if paidSomething then Some(e.value.(attemptsAtLevel := 0, lastContactAt := None))
    else e
  }

  /** `sync_account_from_invoice`. */
  function Synced(accounts: map<nat, Account>, i: nat, inv: Invoice, now: int): map<nat, Account> {
    var a := if i in accounts then accounts[i] else Account(Overdue, inv.outstanding, inv.dueDate, None);
    var a' := a.(outstanding := inv.outstanding, dueDate := inv.dueDate);
    if a.status == InDispute then accounts[i := a']
    else
      var status := StatusFor(inv, now);
      accounts[i := a'.(status := status,
                        escalation := Laddered(a.escalation, status, inv.outstanding < a.outstanding))]
  }

  function Disputed(a: Account): Account {
    a.(status := InDispute,
       escalation := if a.escalation.Some? then Some(a.escalation.value.(needsHumanReview := true)) else None)
  }

  function DisputeCleared(a: Account): Account {
    if a.status != InDispute then a else a.(status := if a.outstanding != 0 then Overdue else Settled)
  }

  class AccountTable {
    var accounts: map<nat, Account>

    constructor ()
      ensures accounts == map[]
    {
      accounts := map[];
    }

    method SyncFromInvoice(i: nat, inv: Invoice, now: int)
      modifies this
      ensures accounts == Synced(old(accounts), i, inv, now)
    {
      if i !in accounts {
        accounts := accounts[i := Account(Overdue, inv.outstanding, inv.dueDate, None)];
      }
      var a := accounts[i];
      var previous := a.outstanding;
      a := a.(outstanding := inv.outstanding, dueDate := inv.dueDate);
      if a.status != InDispute {
        if inv.status == InvoiceWrittenOff {
          a := a.(status := AccountWrittenOff);
        } else if inv.outstanding == 0 {
          a := a.(status := Settled);
        } else if inv.dueDate <= now {
          a := a.(status := Overdue);
        } else {
          a := a.(status := Current);
        }
        if a.status == Settled {
          a := StopLadder(a);
        } else if inv.outstanding < previous {
          a := ResetCadence(a);
        }
      }
      accounts := accounts[i := a];
    }

    function StopLadder(a: Account): Account {
      if a.escalation.None? then a else a.(escalation := Some(a.escalation.value.(needsHumanReview := false)))
    }

    function ResetCadence(a: Account): Account {
      if a.escalation.None? then a
      else a.(escalation := Some(a.escalation.value.(attemptsAtLevel := 0, lastContactAt := None)))
    }

    method RaiseDispute(i: nat)
      requires i in accounts
      modifies this
      ensures accounts == old(accounts)[i := Disputed(old(accounts)[i])]
    {
      var a := accounts[i].(status := InDispute);
      if a.escalation.Some? {
        a := a.(escalation := Some(a.escalation.value.(needsHumanReview := true)));
      }
      accounts := accounts[i := a];
    }

    method ClearDispute(i: nat)
      requires i in accounts
      modifies this
      ensures accounts == old(accounts)[i := DisputeCleared(old(accounts)[i])]
    {
      if accounts[i].status == InDispute {
        accounts := accounts[i := accounts[i].(status := if accounts[i].outstanding != 0 then Overdue else Settled)];
      }
    }

    /** The loop after every payment: each touched invoice's account, straight away. */
    method SyncEach(invoices: seq<Invoice>, shares: seq<Share>, now: int)
      requires forall s :: s in shares ==> s.invoice < |invoices|
      modifies this
      ensures accounts == SyncedEach(old(accounts), invoices, shares, now)
    {
      for k := 0 to |shares|
        invariant accounts == SyncedEach(old(accounts), invoices, shares[..k], now)
      {
        assert shares[k] in shares && shares[..k + 1][..k] == shares[..k];
        SyncFromInvoice(shares[k].invoice, invoices[shares[k].invoice], now);
      }
      assert shares[..|shares|] == shares;
    }
  }

  function SyncedEach(accounts: map<nat, Account>, invoices: seq<Invoice>, shares: seq<Share>, now: int):
      map<nat, Account>
    requires forall s :: s in shares ==> s.invoice < |invoices|
  {
    if shares == [] then accounts
    else
      var last := shares[|shares| - 1];
      Synced(SyncedEach(accounts, invoices, shares[..|shares| - 1], now), last.invoice, invoices[last.invoice], now)
  }

  // ------------------------------------------------------------------- the office's steps

  datatype Step =
    | NewInvoice(invoice: Invoice, now: int)
    | Import(imported: Invoice)
    | Pay(payment: Payment, instructions: seq<(nat, int)>, rows: seq<nat>, now: int)
    | Credit(note: Note)
    | Amend(i: nat, amount: int, dueDate: int, now: int)
    | Void(i: nat)
    | Dispute(i: nat)
    | Clear(i: nat)
    | Ladder(i: nat, escalation: Escalation)

  ghost predicate Enabled(o: Office, step: Step) {
    match step
    case NewInvoice(inv, _) => inv.net >= 0 && inv.outstanding == inv.net && inv.status == Open
    case Import(inv) => inv.net >= 0 && inv.outstanding == inv.net && inv.status == Open
    case Pay(payment, instructions, rows, _) =>
      payment.unallocated == payment.amount && Lists(rows, o.books, payment.buyer) && DistinctKeys(instructions)
    case Credit(n) =>
      n.amount > 0
      && (n.invoice.Some? && n.invoice.value < |o.books.invoices| ==>
          o.books.invoices[n.invoice.value].buyer == n.buyer)
    case Amend(i, _, _, _) => i < |o.books.invoices|
    case Void(i) => i < |o.books.invoices|
    case Dispute(i) => i in o.accounts
    case Clear(i) => i in o.accounts
    case Ladder(i, _) => i in o.accounts
  }

  /** Escalated beyond a first courtesy contact. */
  predicate UnderActiveRecovery(a: Account) {
    && a.status != Settled && a.status != AccountWrittenOff
    && a.escalation.Some?
    && (a.escalation.value.level != L1 || a.escalation.value.attemptsAtLevel > 0)
  }

  predicate Escalated(o: Office, i: nat) { i in o.accounts && UnderActiveRecovery(o.accounts[i]) }

  /** The invoice after an upstream amount, unless it is the amount already held, or comes after escalation, or
      would over-settle or break a column constraint. */
  function Corrected(o: Office, i: nat, amount: int, dueDate: int): Option<Invoice>
    requires i < |o.books.invoices|
  {
    if o.books.invoices[i].net == amount || Escalated(o, i) || amount < 0 then None
    else Restated(o.books.invoices[i].(net := amount, dueDate := dueDate), SettledOn(o.books, i))
  }

  /** An upstream amount: flagged for a human under recovery, otherwise applied and synced. */
  function Amended(o: Office, i: nat, amount: int, dueDate: int, now: int): Office
    requires i < |o.books.invoices|
  {
    if o.books.invoices[i].net != amount && Escalated(o, i) then
      var a := o.accounts[i];
      o.(accounts := o.accounts[i := a.(escalation := Some(a.escalation.value.(needsHumanReview := true)))])
    else
      match Corrected(o, i, amount, dueDate)
      case None => o
      case Some(inv) => Office(o.books.(invoices := o.books.invoices[i := inv]), Synced(o.accounts, i, inv, now))
  }

  function VoidedOut(o: Office, i: nat): Office
    requires i < |o.books.invoices|
  {
    var inv := o.books.invoices[i].(status := InvoiceCancelled, outstanding := 0);
    Office(o.books.(invoices := o.books.invoices[i := inv]),
           if i in o.accounts then o.accounts[i := o.accounts[i].(status := AccountWrittenOff)] else o.accounts)
  }

  function Banked(o: Office, payment: Payment, rows: seq<nat>, plan: Plan, now: int): Office {
    match PT.Published(o.books, PT.Pending(payment, rows, plan))
    case None => o
    case Some(b) =>
      if exists s :: s in plan.shares && s.invoice >= |b.invoices| then o
      else Office(b, SyncedEach(o.accounts, b.invoices, plan.shares, now))
  }

  ghost function Next(o: Office, step: Step): Office
    requires Enabled(o, step)
  {
    match step
    case NewInvoice(inv, now) =>
      Office(o.books.(invoices := o.books.invoices + [inv]), Synced(o.accounts, |o.books.invoices|, inv, now))
    case Import(inv) => o.(books := o.books.(invoices := o.books.invoices + [inv]))
    case Pay(payment, instructions, rows, now) =>
      (match Planned(payment.amount, Refs(o.books, rows), instructions)
       case Err(_) => o
       case Ok(plan) => Banked(o, payment, rows, plan, now))
    case Credit(n) => o.(books := CreditApplied(o.books, n))
    case Amend(i, amount, dueDate, now) => Amended(o, i, amount, dueDate, now)
    case Void(i) => VoidedOut(o, i)
    case Dispute(i) => o.(accounts := o.accounts[i := Disputed(o.accounts[i])])
    case Clear(i) => o.(accounts := o.accounts[i := DisputeCleared(o.accounts[i])])
    case Ladder(i, e) => o.(accounts := o.accounts[i := o.accounts[i].(escalation := Some(e))])
  }

  // ---------------------------------------------------------------------- the invariant

  /** The account shows its invoice's balance and `behind` more, and a status that goes with what it shows. */
  predicate Shows(inv: Invoice, a: Account, behind: int) {
    && a.outstanding == inv.outstanding + behind
    && (a.status == Overdue || a.status == Current ==> a.outstanding > 0)
    && (a.status == Settled ==> a.outstanding == 0)
  }

  ghost predicate Sound(o: Office) {
    Balanced(o.books) && forall i :: i in o.accounts ==> i < |o.books.invoices|
  }

  predicate Live(o: Office, i: nat) { i < |o.books.invoices| && o.books.invoices[i].status != InvoiceCancelled }

  predicate InStep(o: Office, i: nat, behind: int) {
    i in o.accounts && Live(o, i) ==> Shows(o.books.invoices[i], o.accounts[i], behind)
  }

  /** The account of a voided invoice is not up for contact. */
  predicate AtRest(o: Office, i: nat) {
    i in o.accounts && i < |o.books.invoices| && o.books.invoices[i].status == InvoiceCancelled ==>
      o.accounts[i].status == AccountWrittenOff || o.accounts[i].status == Settled
  }

  /** The steps that bring the account of invoice `i` into line: the ones that create the invoice with its account,
      pay something on it, or correct it. */
  ghost predicate Syncs(o: Office, step: Step, i: nat)
    requires Enabled(o, step)
  {
    match step
    case NewInvoice(_, _) => i == |o.books.invoices|
    case Pay(payment, instructions, rows, _) =>
      var r := Planned(payment.amount, Refs(o.books, rows), instructions);
      r.Ok? && Touched(r.value.shares, i)
    case Amend(j, amount, dueDate, _) => i == j && Corrected(o, j, amount, dueDate).Some?
    case _ => false
  }

  /** How far the account falls behind: by every accepted credit note, until the next sync. */
  ghost function BehindAfter(o: Office, step: Step, i: nat, behind: int): int
    requires Enabled(o, step)
  {
    if Syncs(o, step, i) then 0
    else if step.Credit? && step.note.invoice == Some(i) && CreditOutcome(o.books, step.note).Ok? then
      behind + step.note.amount
    else behind
  }

  lemma SyncedShows(accounts: map<nat, Account>, i: nat, inv: Invoice, now: int)
    requires inv.outstanding >= 0
    ensures var m := Synced(accounts, i, inv, now);
            && i in m && m.Keys == accounts.Keys + {i}
            && (i in accounts && accounts[i].status == InDispute ==> m[i].status == InDispute)
            && Shows(inv, m[i], 0)
    ensures i !in accounts && inv.outstanding == 0 && inv.status != InvoiceWrittenOff ==>
              Synced(accounts, i, inv, now)[i].status == Settled
    ensures forall k :: k in accounts && k != i ==> Synced(accounts, i, inv, now)[k] == accounts[k]
  {
  }

  lemma {:induction false} SyncedEachShows(accounts: map<nat, Account>, invoices: seq<Invoice>, shares: seq<Share>,
                                           now: int, i: nat)
    requires forall s :: s in shares ==> s.invoice < |invoices| && invoices[s.invoice].outstanding >= 0
    ensures var m := SyncedEach(accounts, invoices, shares, now);
            if Touched(shares, i) then i < |invoices| && i in m && Shows(invoices[i], m[i], 0)
            else (i in m <==> i in accounts) && (i in m ==> m[i] == accounts[i])
  {
    if shares != [] {
      var front, last := shares[..|shares| - 1], shares[|shares| - 1];
      assert shares == front + [last];
      SyncedEachShows(accounts, invoices, front, now, i);
      SyncedShows(SyncedEach(accounts, invoices, front, now), last.invoice, invoices[last.invoice], now);
      assert Touched(shares, i) <==> Touched(front, i) || last.invoice == i;
    }
  }

  lemma BankedKeeps(o: Office, payment: Payment, rows: seq<nat>, plan: Plan, now: int, i: nat, behind: int)
    requires Sound(o) && PT.PlanStands(o.books, PT.Pending(payment, rows, plan))
    ensures Balanced(Banked(o, payment, rows, plan, now).books)
    ensures |Banked(o, payment, rows, plan, now).books.invoices| == |o.books.invoices|
    ensures i in Banked(o, payment, rows, plan, now).accounts ==> i < |o.books.invoices|
    ensures InStep(o, i, behind) ==>
              InStep(Banked(o, payment, rows, plan, now), i, if Touched(plan.shares, i) then 0 else behind)
    ensures AtRest(o, i) ==> AtRest(Banked(o, payment, rows, plan, now), i)
  {
    var p := PT.Pending(payment, rows, plan);
    PT.PublishingIsSafe(o.books, p);
    var b := PT.Published(o.books, p).value;
    forall s | s in plan.shares ensures b.invoices[s.invoice].outstanding >= 0 {
      assert InvoiceBalanced(b, s.invoice);
    }
    SyncedEachShows(o.accounts, b.invoices, plan.shares, now, i);
    PaidAreLive(o.books, p);
    if i < |b.invoices| && !Touched(plan.shares, i) {
      PT.PublishingLeavesOthers(o.books, p, i);
    }
  }

  lemma PayKeeps(o: Office, step: Step, i: nat, behind: int)
    requires Sound(o) && step.Pay? && Enabled(o, step)
    ensures Sound(Next(o, step))
    ensures InStep(o, i, behind) ==> InStep(Next(o, step), i, BehindAfter(o, step, i, behind))
    ensures AtRest(o, i) ==> AtRest(Next(o, step), i)
  {
    var r := Planned(step.payment.amount, Refs(o.books, step.rows), step.instructions);
    if r.Ok? {
      SoundIsPostable(o.books, step.payment.buyer, step.rows, step.payment.amount, step.instructions);
      BankedKeeps(o, step.payment, step.rows, r.value, step.now, i, behind);
      forall k | k in Next(o, step).accounts ensures k < |o.books.invoices| {
        BankedKeeps(o, step.payment, step.rows, r.value, step.now, k, 0);
      }
    }
  }

  /** Paying an invoice never cancels it. */
  lemma PaidAreLive(b: Books, p: PT.Pending)
    requires Balanced(b) && PT.PlanStands(b, p) && PT.Published(b, p).Some?
    ensures |PT.Published(b, p).value.invoices| == |b.invoices|
    ensures forall s :: s in p.plan.shares ==> PT.Published(b, p).value.invoices[s.invoice].status != InvoiceCancelled
  {
    PT.PublishingIsSafe(b, p);
    var posted := Posted(PT.Inserted(b, p.payment), |b.payments|, p.plan);
    forall s | s in p.plan.shares ensures Restated(posted.invoices[s.invoice], SettledOn(posted, s.invoice)).Some? {
      PostedSums(b.allocs, |b.payments|, p.plan.shares, s.invoice, 0);
      ShareOnDistinct(p.plan.shares, s.invoice);
    }
    RecomputedEachMeans(posted, p.plan.shares);
  }

  lemma BalancedAfterWrite(b: Books, i: nat, inv: Invoice)
    requires Balanced(b) && i < |b.invoices| && inv.buyer == b.invoices[i].buyer
    requires InvoiceBalanced(b.(invoices := b.invoices[i := inv]), i)
    ensures Balanced(b.(invoices := b.invoices[i := inv]))
  {
    var b' := b.(invoices := b.invoices[i := inv]);
    forall k | 0 <= k < |b'.invoices| ensures InvoiceBalanced(b', k) {
      assert k != i ==> InvoiceBalanced(b, k);
    }
    forall p | 0 <= p < |b'.payments| ensures PaymentBalanced(b', p) {
      assert PaymentBalanced(b, p);
    }
    forall a | a in b'.allocs ensures RowSound(b', a) {
      assert RowSound(b, a);
    }
    forall n | n in b'.notes ensures NoteSound(b', n) {
      assert NoteSound(b, n);
    }
  }

  lemma AmendKeeps(o: Office, step: Step, i: nat, behind: int)
    requires Sound(o) && step.Amend? && Enabled(o, step)
    ensures Sound(Next(o, step))
    ensures InStep(o, i, behind) ==> InStep(Next(o, step), i, BehindAfter(o, step, i, behind))
    ensures AtRest(o, i) ==> AtRest(Next(o, step), i)
  {
    assert InvoiceBalanced(o.books, step.i);
    SettledIsNonNegative(o.books, step.i);
    var r := Corrected(o, step.i, step.amount, step.dueDate);
    if r.Some? {
      BalancedAfterWrite(o.books, step.i, r.value);
      SyncedShows(o.accounts, step.i, r.value, step.now);
    }
  }

  lemma NewInvoiceKeeps(o: Office, step: Step, i: nat, behind: int)
    requires Sound(o) && (step.NewInvoice? || step.Import?) && Enabled(o, step)
    ensures Sound(Next(o, step))
    ensures InStep(o, i, behind) ==> InStep(Next(o, step), i, BehindAfter(o, step, i, behind))
    ensures AtRest(o, i) ==> AtRest(Next(o, step), i)
  {
    var inv := if step.NewInvoice? then step.invoice else step.imported;
    PT.NewInvoiceIsSound(o.books, inv);
    forall k | 0 <= k < |o.books.invoices| ensures InvoiceBalanced(o.books.(invoices := o.books.invoices + [inv]), k) {
      assert InvoiceBalanced(o.books, k);
    }
    if step.NewInvoice? { SyncedShows(o.accounts, |o.books.invoices|, inv, step.now); }
  }

  lemma CreditKeeps(o: Office, step: Step, i: nat, behind: int)
    requires Sound(o) && step.Credit? && Enabled(o, step)
    ensures Sound(Next(o, step))
    ensures InStep(o, i, behind) ==> InStep(Next(o, step), i, BehindAfter(o, step, i, behind))
    ensures AtRest(o, i) ==> AtRest(Next(o, step), i)
  {
    CreditNoteKeepsBalance(o.books, step.note);
    assert (o.books.notes + [step.note])[..|o.books.notes|] == o.books.notes;
    if i < |o.books.invoices| {
      assert InvoiceBalanced(o.books, i);
      SettledIsNonNegative(o.books, i);
    }
  }

  lemma VoidKeeps(o: Office, step: Step, i: nat, behind: int)
    requires Sound(o) && step.Void? && Enabled(o, step)
    ensures Sound(Next(o, step))
    ensures InStep(o, i, behind) ==> InStep(Next(o, step), i, behind)
    ensures AtRest(o, i) ==> AtRest(Next(o, step), i)
  {
    BalancedAfterWrite(o.books, step.i, o.books.invoices[step.i].(status := InvoiceCancelled, outstanding := 0));
  }

  /** Every step keeps the account of a live invoice behind the ledger by exactly the credit notes since its last
      sync; and as long as nobody disputes a voided invoice, its account stays closed. */
  lemma StepKeeps(o: Office, step: Step, i: nat, behind: int)
    requires Sound(o) && Enabled(o, step) && behind >= 0
    ensures Sound(Next(o, step))
    ensures InStep(o, i, behind) ==> InStep(Next(o, step), i, BehindAfter(o, step, i, behind))
    ensures AtRest(o, i) && (step.Dispute? && step.i == i ==> Live(o, i)) ==> AtRest(Next(o, step), i)
  {
    match step
    case NewInvoice(_, _) => NewInvoiceKeeps(o, step, i, behind);
    case Import(_) => NewInvoiceKeeps(o, step, i, behind);
    case Pay(_, _, _, _) => PayKeeps(o, step, i, behind);
    case Credit(_) => CreditKeeps(o, step, i, behind);
    case Amend(_, _, _, _) => AmendKeeps(o, step, i, behind);
    case Void(_) => VoidKeeps(o, step, i, behind);
    case Dispute(_) =>
    case Clear(_) => if Live(o, i) { assert InvoiceBalanced(o.books, i); }
    case Ladder(_, _) =>
  }

  ghost predicate IsRun(os: seq<Office>, steps: seq<Step>) {
    && |os| == |steps| + 1
    && os[0] == Office(Books([], [], [], []), map[])
    && forall k :: 0 <= k < |steps| ==> Enabled(os[k], steps[k]) && os[k + 1] == Next(os[k], steps[k])
  }

  /** Disputes are raised on invoices that have not been voided. */
  ghost predicate DisputesLiveOnly(os: seq<Office>, steps: seq<Step>)
    requires IsRun(os, steps)
  {
    forall k :: 0 <= k < |steps| && steps[k].Dispute? ==> Live(os[k], steps[k].i)
  }

  /** The credit notes accepted for invoice `i` up to moment `k` that no sync has carried to its account. */
  ghost function Behind(os: seq<Office>, steps: seq<Step>, k: nat, i: nat): int
    requires IsRun(os, steps) && k < |os|
  {
    if k == 0 then 0 else BehindAfter(os[k - 1], steps[k - 1], i, Behind(os, steps, k - 1, i))
  }

  lemma {:induction false} EveryRunKeeps(os: seq<Office>, steps: seq<Step>, k: nat, i: nat)
    requires IsRun(os, steps) && k < |os|
    ensures Sound(os[k]) && Behind(os, steps, k, i) >= 0
    ensures InStep(os[k], i, Behind(os, steps, k, i))
    ensures DisputesLiveOnly(os, steps) ==> AtRest(os[k], i)
  {
    if k > 0 {
      EveryRunKeeps(os, steps, k - 1, i);
      StepKeeps(os[k - 1], steps[k - 1], i, Behind(os, steps, k - 1, i));
    }
  }

  /** What an account shows is what its live invoice owes, exactly when no credit note is waiting for a sync. */
  lemma AccountShowsBalanceExactly(os: seq<Office>, steps: seq<Step>, k: nat, i: nat)
    requires IsRun(os, steps) && k < |os| && i in os[k].accounts && Live(os[k], i)
    ensures os[k].accounts[i].outstanding == os[k].books.invoices[i].outstanding + Behind(os, steps, k, i)
    ensures os[k].accounts[i].outstanding == os[k].books.invoices[i].outstanding <==> Behind(os, steps, k, i) == 0
  {
    EveryRunKeeps(os, steps, k, i);
  }

  /** A paid debt is up for contact in two cases only. Over every run, at every moment, an account that is OVERDUE
      belongs to a live invoice, unless a dispute was raised on a voided one; and the invoice has a balance
      exactly when the credit notes waiting for a sync come to less than the account shows. */
  lemma OverdueMeansOwed(os: seq<Office>, steps: seq<Step>, k: nat, i: nat)
    requires IsRun(os, steps) && k < |os| && i in os[k].accounts && os[k].accounts[i].status == Overdue
    ensures i < |os[k].books.invoices|
    ensures DisputesLiveOnly(os, steps) ==> Live(os[k], i)
    ensures Live(os[k], i) ==>
              (os[k].books.invoices[i].outstanding > 0 <==> Behind(os, steps, k, i) < os[k].accounts[i].outstanding)
    ensures Live(os[k], i) && Behind(os, steps, k, i) == 0 ==> os[k].books.invoices[i].outstanding > 0
  {
    EveryRunKeeps(os, steps, k, i);
  }

  // ---------------------------------------------------------------------- why an account is overdue

  predicate Disputing(accounts: map<nat, Account>, i: nat) { i in accounts && accounts[i].status == InDispute }

  /** What a sync leaves. Balance and due date are the invoice's. A dispute is kept, with its ladder; otherwise the
      status is told by the invoice and the day, settling clears the review flag, and a part payment takes the attempts
      and the last contact off the ladder and leaves its level. */
  lemma SyncedSays(accounts: map<nat, Account>, i: nat, inv: Invoice, now: int)
    ensures i in Synced(accounts, i, inv, now)
    ensures var a := Synced(accounts, i, inv, now)[i];
            && a.outstanding == inv.outstanding && a.dueDate == inv.dueDate
            && (Disputing(accounts, i) ==> a.status == InDispute && a.escalation == accounts[i].escalation)
            && (!Disputing(accounts, i) ==>
                  && (a.status == AccountWrittenOff <==> inv.status == InvoiceWrittenOff)
                  && (a.status == Settled <==> inv.status != InvoiceWrittenOff && inv.outstanding == 0)
                  && (inv.status != InvoiceWrittenOff && inv.outstanding != 0 ==>
                        (a.status == Overdue <==> inv.dueDate <= now) && (a.status == Current <==> now < inv.dueDate)))
    ensures i in accounts && !Disputing(accounts, i) ==>
              var (e, e') := (accounts[i].escalation, Synced(accounts, i, inv, now)[i].escalation);
              && (e.Some? <==> e'.Some?)
              && (e.Some? ==>
                    var softened := Synced(accounts, i, inv, now)[i].status != Settled
                                    && inv.outstanding < accounts[i].outstanding;
                    && e'.value.level == e.value.level
                    && e'.value.attemptsAtLevel == (if softened then 0 else e.value.attemptsAtLevel)
                    && e'.value.lastContactAt == (if softened then None else e.value.lastContactAt)
                    && (e'.value.needsHumanReview <==>
                          e.value.needsHumanReview && Synced(accounts, i, inv, now)[i].status != Settled))
  {
  }

  /** A dispute raises the review flag of the ladder and touches nothing else; clearing one makes the account
      overdue, or settled when it shows no balance, and without one does nothing. */
  lemma DisputeSays(a: Account)
    ensures var d := Disputed(a);
            && d.status == InDispute && d.outstanding == a.outstanding && d.dueDate == a.dueDate
            && (d.escalation.Some? <==> a.escalation.Some?)
            && (a.escalation.Some? ==> d.escalation.value == a.escalation.value.(needsHumanReview := true))
    ensures DisputeCleared(a) ==
            if a.status == InDispute && a.outstanding != 0 then a.(status := Overdue)
            else if a.status == InDispute then a.(status := Settled)
            else a
  {
  }

  /** Open to recovery, and contacted before or above L1. */
  predicate Recovering(accounts: map<nat, Account>, i: nat) {
    && i in accounts && accounts[i].status in {Current, Overdue, InDispute} && accounts[i].escalation.Some?
    && (accounts[i].escalation.value.level in {L2, L3} || accounts[i].escalation.value.attemptsAtLevel >= 1)
  }

  /** An upstream amount that differs from the one held changes no figure of an invoice under recovery, only raises the
      review flag; it is refused when negative or under what is settled; and otherwise it becomes the invoice's, with
      the due date that came with it, and the account is synced. */
  lemma AmendSays(o: Office, i: nat, amount: int, dueDate: int, now: int)
    requires i < |o.books.invoices|
    ensures var o', inv := Amended(o, i, amount, dueDate, now), o.books.invoices[i];
            if amount == inv.net then o' == o
            else if Recovering(o.accounts, i) then
              && o'.books == o.books && o'.accounts.Keys == o.accounts.Keys
              && o'.accounts[i].escalation == Some(o.accounts[i].escalation.value.(needsHumanReview := true))
              && o'.accounts[i] == o.accounts[i].(escalation := o'.accounts[i].escalation)
              && forall k :: k in o.accounts && k != i ==> o'.accounts[k] == o.accounts[k]
            else if amount < 0 || (inv.status != InvoiceCancelled && amount < SettledOn(o.books, i)) then o' == o
            else
              && |o'.books.invoices| == |o.books.invoices|
              && o'.books == o.books.(invoices := o.books.invoices[i := o'.books.invoices[i]])
              && o'.books.invoices[i].net == amount && o'.books.invoices[i].dueDate == dueDate
              && o'.books.invoices[i].outstanding ==
                 (if inv.status == InvoiceCancelled then 0 else amount - SettledOn(o.books, i))
              && o'.accounts == Synced(o.accounts, i, o'.books.invoices[i], now)
  {
  }

  /** The clock of a step that syncs. */
  function ClockOf(step: Step): int {
    match step
    case NewInvoice(_, now) => now
    case Pay(_, _, _, now) => now
    case Amend(_, _, _, now) => now
    case _ => 0
  }

  /** A sync of an account that is not in dispute. */
  ghost predicate SyncsFreely(o: Office, step: Step, i: nat)
    requires Enabled(o, step)
  {
    Syncs(o, step, i) && !Disputing(o.accounts, i)
  }

  /** The steps that settle an account's status: a sync, unless it is in dispute; voiding; a dispute; clearing one. */
  ghost predicate Decides(o: Office, step: Step, i: nat)
    requires Enabled(o, step)
  {
    || SyncsFreely(o, step, i)
    || (step == Void(i) && i in o.accounts)
    || step == Dispute(i)
    || (step == Clear(i) && Disputing(o.accounts, i))
  }

  /** Settling it as overdue: a sync that finds a balance due, or clearing a dispute on a balance. */
  ghost predicate MakesOverdue(o: Office, step: Step, i: nat)
    requires Enabled(o, step)
  {
    || (SyncsFreely(o, step, i) && i < |Next(o, step).books.invoices| &&
          var inv := Next(o, step).books.invoices[i];
          inv.status != InvoiceWrittenOff && inv.outstanding != 0 && inv.dueDate <= ClockOf(step))
    || (step == Clear(i) && Disputing(o.accounts, i) && o.accounts[i].outstanding != 0)
  }

  predicate IsOverdue(o: Office, i: nat) { i in o.accounts && o.accounts[i].status == Overdue }

  /** After a sync: in step with the invoice's due date, and overdue exactly when that has come. */
  ghost predicate Dated(accounts: map<nat, Account>, accounts': map<nat, Account>, i: nat, inv: Invoice, now: int) {
    && i in accounts' && accounts'[i].dueDate == inv.dueDate
    && (Disputing(accounts, i) ==> Disputing(accounts', i))
    && (!Disputing(accounts, i) ==>
          !Disputing(accounts', i) &&
          (accounts'[i].status == Overdue <==>
             inv.status != InvoiceWrittenOff && inv.outstanding != 0 && inv.dueDate <= now))
  }

  lemma {:induction false} SyncedEachDates(accounts: map<nat, Account>, invoices: seq<Invoice>, shares: seq<Share>,
                                           now: int, i: nat)
    requires forall s :: s in shares ==> s.invoice < |invoices|
    ensures Touched(shares, i) ==>
              i < |invoices| && Dated(accounts, SyncedEach(accounts, invoices, shares, now), i, invoices[i], now)
  {
    if shares != [] {
      var front, last := shares[..|shares| - 1], shares[|shares| - 1];
      assert shares == front + [last];
      SyncedEachDates(accounts, invoices, front, now, i);
      SyncedEachElsewhere(accounts, invoices, front, now, i);
      SyncedSays(SyncedEach(accounts, invoices, front, now), last.invoice, invoices[last.invoice], now);
      assert Touched(shares, i) <==> Touched(front, i) || last.invoice == i;
    }
  }

  lemma {:induction false} SyncedEachElsewhere(accounts: map<nat, Account>, invoices: seq<Invoice>, shares: seq<Share>,
                                               now: int, i: nat)
    requires forall s :: s in shares ==> s.invoice < |invoices|
    ensures var m := SyncedEach(accounts, invoices, shares, now);
            !Touched(shares, i) ==> (i in m <==> i in accounts) && (i in m ==> m[i] == accounts[i])
  {
    if shares != [] {
      var front, last := shares[..|shares| - 1], shares[|shares| - 1];
      assert shares == front + [last] && last in shares;
      SyncedEachElsewhere(accounts, invoices, front, now, i);
    }
  }

  lemma PayDates(o: Office, step: Step, i: nat)
    requires Sound(o) && step.Pay? && Enabled(o, step)
    ensures var o' := Next(o, step);
            if Syncs(o, step, i) then
              i < |o'.books.invoices| && Dated(o.accounts, o'.accounts, i, o'.books.invoices[i], step.now)
            else
              (i in o'.accounts <==> i in o.accounts) && (i in o.accounts ==> o'.accounts[i] == o.accounts[i])
  {
    var r := Planned(step.payment.amount, Refs(o.books, step.rows), step.instructions);
    if r.Ok? {
      SoundIsPostable(o.books, step.payment.buyer, step.rows, step.payment.amount, step.instructions);
      BankedKeeps(o, step.payment, step.rows, r.value, step.now, i, 0);
      var p := PT.Pending(step.payment, step.rows, r.value);
      PT.PublishingIsSafe(o.books, p);
      var b := PT.Published(o.books, p).value;
      SyncedEachDates(o.accounts, b.invoices, r.value.shares, step.now, i);
      SyncedEachElsewhere(o.accounts, b.invoices, r.value.shares, step.now, i);
    }
  }

  lemma DatesStep(o: Office, step: Step, i: nat)
    requires Sound(o) && Enabled(o, step)
    ensures Syncs(o, step, i) ==>
              && i < |Next(o, step).books.invoices|
              && Dated(o.accounts, Next(o, step).accounts, i, Next(o, step).books.invoices[i], ClockOf(step))
    ensures !Syncs(o, step, i) ==>
              && (i in Next(o, step).accounts <==> i in o.accounts)
              && (i in o.accounts ==> Next(o, step).accounts[i].dueDate == o.accounts[i].dueDate)
              && (!Decides(o, step, i) && i in o.accounts ==> Next(o, step).accounts[i].status == o.accounts[i].status)
  {
    if step.Pay? {
      PayDates(o, step, i);
    } else if step.NewInvoice? {
      SyncedSays(o.accounts, |o.books.invoices|, step.invoice, step.now);
    } else if step.Amend? && Corrected(o, step.i, step.amount, step.dueDate).Some? {
      SyncedSays(o.accounts, step.i, Corrected(o, step.i, step.amount, step.dueDate).value, step.now);
    }
  }

  /** A step that settles an account's status makes it overdue or not; any other leaves that as it was. */
  lemma StatusStep(o: Office, step: Step, i: nat)
    requires Sound(o) && Enabled(o, step)
    ensures IsOverdue(Next(o, step), i) <==> MakesOverdue(o, step, i) || (!Decides(o, step, i) && IsOverdue(o, i))
    ensures MakesOverdue(o, step, i) ==> Decides(o, step, i)
  {
    DatesStep(o, step, i);
  }

  /** Step `j` made the account overdue, and nothing has settled its status since. */
  ghost predicate OverdueSince(os: seq<Office>, steps: seq<Step>, j: int, k: int, i: nat)
    requires IsRun(os, steps) && k <= |steps|
  {
    && 0 <= j < k && MakesOverdue(os[j], steps[j], i)
    && forall m :: j < m < k ==> !Decides(os[m], steps[m], i)
  }

  ghost predicate MadeOverdue(os: seq<Office>, steps: seq<Step>, k: int, i: nat)
    requires IsRun(os, steps) && k <= |steps|
  {
    exists j :: OverdueSince(os, steps, j, k, i)
  }

  lemma StatusAt(os: seq<Office>, steps: seq<Step>, m: nat, k: nat, i: nat)
    requires IsRun(os, steps) && k == m + 1 <= |steps|
    ensures IsOverdue(os[k], i) <==>
            MakesOverdue(os[m], steps[m], i) || (!Decides(os[m], steps[m], i) && IsOverdue(os[m], i))
  {
    EveryRunKeeps(os, steps, m, i);
    StatusStep(os[m], steps[m], i);
  }

  lemma SinceOneMore(os: seq<Office>, steps: seq<Step>, m: nat, k: nat, i: nat)
    requires IsRun(os, steps) && k == m + 1 <= |steps|
    ensures MakesOverdue(os[m], steps[m], i) ==> MadeOverdue(os, steps, k, i)
    ensures !Decides(os[m], steps[m], i) && MadeOverdue(os, steps, m, i) ==> MadeOverdue(os, steps, k, i)
    ensures MadeOverdue(os, steps, k, i) ==>
            MakesOverdue(os[m], steps[m], i) || (!Decides(os[m], steps[m], i) && MadeOverdue(os, steps, m, i))
  {
    if MakesOverdue(os[m], steps[m], i) { assert OverdueSince(os, steps, m, k, i); }
    if MadeOverdue(os, steps, m, i) && !Decides(os[m], steps[m], i) {
      var j :| OverdueSince(os, steps, j, m, i);
      assert OverdueSince(os, steps, j, k, i);
    }
    if j :| OverdueSince(os, steps, j, k, i) && j != m { assert OverdueSince(os, steps, j, m, i); }
  }

  /** Over every run, an account is up for contact exactly when a sync found its balance due, or a dispute on it was
      cleared with a balance, and no sync, voiding or dispute has settled its status since. */
  lemma {:induction false} OverdueExactly(os: seq<Office>, steps: seq<Step>, k: nat, i: nat)
    requires IsRun(os, steps) && k < |os|
    ensures IsOverdue(os[k], i) <==> MadeOverdue(os, steps, k, i)
  {
    if k > 0 {
      OverdueExactly(os, steps, k - 1, i);
      OverdueOneMore(os, steps, k - 1, k, i);
    }
  }

  lemma OverdueOneMore(os: seq<Office>, steps: seq<Step>, m: nat, k: nat, i: nat)
    requires IsRun(os, steps) && k == m + 1 <= |steps|
    requires IsOverdue(os[m], i) <==> MadeOverdue(os, steps, m, i)
    ensures IsOverdue(os[k], i) <==> MadeOverdue(os, steps, k, i)
  {
    StatusAt(os, steps, m, k, i);
    SinceOneMore(os, steps, m, k, i);
  }

  lemma DueDateAt(os: seq<Office>, steps: seq<Step>, m: nat, k: nat, i: nat)
    requires IsRun(os, steps) && k == m + 1 <= |steps|
    ensures MakesOverdue(os[m], steps[m], i) && steps[m] != Clear(i) ==>
              i in os[k].accounts && os[k].accounts[i].dueDate <= ClockOf(steps[m])
    ensures IsOverdue(os[m], i) && !Decides(os[m], steps[m], i) ==>
              i in os[k].accounts && os[k].accounts[i].dueDate == os[m].accounts[i].dueDate
  {
    EveryRunKeeps(os, steps, m, i);
    DatesStep(os[m], steps[m], i);
  }

  lemma SinceBefore(os: seq<Office>, steps: seq<Step>, j: int, m: nat, k: nat, i: nat)
    requires IsRun(os, steps) && k == m + 1 <= |steps| && j < m && OverdueSince(os, steps, j, k, i)
    ensures OverdueSince(os, steps, j, m, i) && !Decides(os[m], steps[m], i) && IsOverdue(os[m], i)
  {
    assert OverdueSince(os, steps, j, m, i);
    OverdueExactly(os, steps, m, i);
  }

  /** While a sync is what made it overdue, the account shows the due date that sync found had come. */
  lemma {:induction false} SyncedIsDue(os: seq<Office>, steps: seq<Step>, j: int, k: nat, i: nat)
    requires IsRun(os, steps) && k < |os| && OverdueSince(os, steps, j, k, i) && steps[j] != Clear(i)
    ensures i in os[k].accounts && os[k].accounts[i].dueDate <= ClockOf(steps[j])
  {
    var m := k - 1;
    DueDateAt(os, steps, m, k, i);
    if j < m {
      SinceBefore(os, steps, j, m, k, i);
      SyncedIsDue(os, steps, j, m, i);
    }
  }

  /** A credit note moves no account. On an OVERDUE account in step with its invoice it leaves a settled invoice up
      for contact exactly when it is for the whole balance. */
  lemma CreditedIsChasedExactly(o: Office, n: Note, i: nat)
    requires Sound(o) && Enabled(o, Credit(n)) && n.invoice == Some(i)
    requires i in o.accounts && Live(o, i) && InStep(o, i, 0) && o.accounts[i].status == Overdue
    ensures var o' := Next(o, Credit(n));
            && o'.accounts[i].status == Overdue
            && (o'.books.invoices[i].outstanding == 0 <==> n.amount == o.books.invoices[i].outstanding)
  {
    CreditKeeps(o, Credit(n), i, 0);
    CreditNoteKeepsBalance(o.books, n);
  }

  /** Clearing a dispute reads the account's own balance. On a voided invoice, whose account keeps
      the balance it had, that makes the debt chaseable again exactly when that balance is not zero. */
  lemma ClearedVoidIsChasedExactly(o: Office, i: nat)
    requires i < |o.books.invoices| && i in o.accounts
    ensures var o' := Next(Next(Next(o, Void(i)), Dispute(i)), Clear(i));
            && o'.books.invoices[i].outstanding == 0
            && (o'.accounts[i].status == Overdue <==> o.accounts[i].outstanding != 0)
  {
  }

  // ------------------------------------------------------------------ the upstream receipt

  /** The instruction `sync_payments` builds from the invoice a receipt quotes. */
  function QuotedInstruction(b: Books, amount: int, quoted: Option<nat>): seq<(nat, int)>
    requires quoted.Some? ==> quoted.value < |b.invoices|
  {
    if quoted.None? then [] else [(quoted.value, Min(amount, b.invoices[quoted.value].outstanding))]
  }

  /** A receipt is banked exactly when it is positive and the invoice it quotes, if any, is a payable
      one of the same buyer that still has a balance: quoting a settled invoice raises instead of
      leaving the money on account. */
  lemma ReceiptIsBankedExactly(b: Books, buyer: nat, rows: seq<nat>, amount: int, quoted: Option<nat>)
    requires Balanced(b) && Lists(rows, b, buyer) && (quoted.Some? ==> quoted.value < |b.invoices|)
    ensures Planned(amount, Refs(b, rows), QuotedInstruction(b, amount, quoted)).Ok? <==>
            amount > 0 && (quoted.Some? ==> quoted.value in rows && b.invoices[quoted.value].outstanding > 0)
  {
    var refs := Refs(b, rows);
    if amount > 0 && quoted.None? {
      assert DistinctRefs(refs);
      UninstructedPlan(amount, refs);
    } else if amount > 0 {
      var i := quoted.value;
      var instructions := QuotedInstruction(b, amount, quoted);
      InstructedPlan(amount, refs, instructions);
      assert instructions[1..] == [] && Requested(instructions) == instructions[0].1;
      assert instructions[0] in instructions;
      ByIdFinds(refs, i);
      if i in rows {
        var k :| 0 <= k < |rows| && rows[k] == i;
        assert refs[k].id == i && refs[k] in refs;
        assert InvoiceBalanced(b, i);
      }
      if ById(refs, i).Some? {
        var k :| 0 <= k < |rows| && refs[k] == ById(refs, i).value;
        assert rows[k] == i;
      }
    }
  }
}
