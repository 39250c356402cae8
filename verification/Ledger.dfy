/** The ledger and its only balance writer (backend/app/trade/allocation.py). Rows are never deleted,
    so a row's id is its position in its table. An exception is a rolled-back transaction. */
module Ledger {
  import opened Common
  import opened Allocation
  import opened Sorting

  datatype Invoice = Invoice(buyer: nat, number: string, issueDate: int, dueDate: int,
                             net: int, outstanding: int, status: InvoiceStatus)

  datatype Payment = Payment(buyer: nat, amount: int, unallocated: int, receivedDate: int, reference: string)

  datatype AllocRow = AllocRow(payment: nat, invoice: nat, amount: int, rule: Rule)

  datatype Note = Note(buyer: nat, invoice: Option<nat>, amount: int, issueDate: int, number: string)

  datatype Books = Books(invoices: seq<Invoice>, payments: seq<Payment>, allocs: seq<AllocRow>, notes: seq<Note>)

  function OnInvoice(allocs: seq<AllocRow>, i: nat): int {
    if allocs == [] then 0
    else
      OnInvoice(allocs[..|allocs| - 1], i) +
      (if allocs[|allocs| - 1].invoice == i then allocs[|allocs| - 1].amount else 0)
  }

  function OfPayment(allocs: seq<AllocRow>, p: nat): int {
    if allocs == [] then 0
    else
      OfPayment(allocs[..|allocs| - 1], p) +
      (if allocs[|allocs| - 1].payment == p then allocs[|allocs| - 1].amount else 0)
  }

  function Credited(notes: seq<Note>, i: nat): int {
    if notes == [] then 0
    else
      Credited(notes[..|notes| - 1], i) +
      (if notes[|notes| - 1].invoice == Some(i) then notes[|notes| - 1].amount else 0)
  }

  function SettledOn(b: Books, i: nat): int { OnInvoice(b.allocs, i) + Credited(b.notes, i) }

  function Restated(inv: Invoice, settled: int): Option<Invoice> {
    if inv.status == InvoiceCancelled then Some(inv.(outstanding := 0))
    else if inv.net - settled < 0 then None
    else
      Some(inv.(outstanding := inv.net - settled,
                status := if inv.status == InvoiceWrittenOff then InvoiceWrittenOff
                else if inv.net - settled == 0 then Paid
                else if settled > 0 then PartPaid
                else Open))
  }

  /** `recompute_invoice`; None is the over-settled guard. */
  function Recomputed(b: Books, i: nat): Option<Books>
    requires i < |b.invoices|
  {
    match Restated(b.invoices[i], SettledOn(b, i))
    case None => None
    case Some(inv) => Some(b.(invoices := b.invoices[i := inv]))
  }

  function RefOf(b: Books, i: nat): InvoiceRef
    requires i < |b.invoices|
  {
    var inv := b.invoices[i];
    InvoiceRef(i, inv.number, inv.issueDate, inv.dueDate, inv.net, OnInvoice(b.allocs, i), Credited(b.notes, i))
  }

  predicate Payable(inv: Invoice, buyer: nat) {
    inv.buyer == buyer && inv.status != InvoiceCancelled && inv.status != InvoiceWrittenOff
  }

  /** `rows` is the buyer's payable invoices, in whatever order the database returns them. */
  ghost predicate Lists(rows: seq<nat>, b: Books, buyer: nat) {
    && (forall i, j :: 0 <= i < j < |rows| ==> rows[i] != rows[j])
    && (forall i: nat :: i in rows <==> i < |b.invoices| && Payable(b.invoices[i], buyer))
  }

  function Refs(b: Books, rows: seq<nat>): seq<InvoiceRef>
    requires forall i :: i in rows ==> i < |b.invoices|
  {
    seq(|rows|, k requires 0 <= k < |rows| => assert rows[k] in rows; RefOf(b, rows[k]))
  }

  function RowsOf(payment: nat, shares: seq<Share>): seq<AllocRow> {
    if shares == [] then []
    else RowsOf(payment, shares[..|shares| - 1]) +
         [AllocRow(payment, shares[|shares| - 1].invoice, shares[|shares| - 1].amount, shares[|shares| - 1].rule)]
  }

  function Posted(b: Books, payment: nat, plan: Plan): Books
    requires payment < |b.payments|
  {
    b.(allocs := b.allocs + RowsOf(payment, plan.shares),
       payments := b.payments[payment := b.payments[payment].(unallocated := plan.unallocated)])
  }

  /** Every touched invoice brought back into agreement, one after the other. */
  function RecomputedEach(b: Books, shares: seq<Share>): Option<Books>
    requires forall s :: s in shares ==> s.invoice < |b.invoices|
  {
    if shares == [] then Some(b)
    else
      match RecomputedEach(b, shares[..|shares| - 1])
      case None => None
      case Some(b') => if |b'.invoices| == |b.invoices| then Recomputed(b', shares[|shares| - 1].invoice) else None
  }

  // ------------------------------------------------------------------------- the object

  class LedgerTables {
    var invoices: seq<Invoice>
    var payments: seq<Payment>
    var allocs: seq<AllocRow>
    var notes: seq<Note>

    constructor ()
      ensures ToBooks() == Books([], [], [], [])
    {
      invoices, payments, allocs, notes := [], [], [], [];
    }

    ghost function ToBooks(): Books
      reads this
    {
      Books(invoices, payments, allocs, notes)
    }

    method SumAllocations(i: nat) returns (sum: int)
      ensures sum == OnInvoice(allocs, i)
    {
      sum := 0;
      for k := 0 to |allocs|
        invariant sum == OnInvoice(allocs[..k], i)
      {
        sum := sum + if allocs[k].invoice == i then allocs[k].amount else 0;
        assert allocs[..k + 1][..k] == allocs[..k];
      }
      assert allocs[..|allocs|] == allocs;
    }

    method SumCreditNotes(i: nat) returns (sum: int)
      ensures sum == Credited(notes, i)
    {
      sum := 0;
      for k := 0 to |notes|
        invariant sum == Credited(notes[..k], i)
      {
        sum := sum + if notes[k].invoice == Some(i) then notes[k].amount else 0;
        assert notes[..k + 1][..k] == notes[..k];
      }
      assert notes[..|notes|] == notes;
    }

    method RecomputeInvoice(i: nat) returns (ok: bool)
      requires i < |invoices|
      modifies this`invoices
      ensures ok <==> Recomputed(old(ToBooks()), i).Some?
      ensures ToBooks() == if ok then Recomputed(old(ToBooks()), i).value else old(ToBooks())
    {
      var inv := invoices[i];
      if inv.status == InvoiceCancelled {
        invoices := invoices[i := inv.(outstanding := 0)];
        return true;
      }
      var paid := SumAllocations(i);
      var credited := SumCreditNotes(i);
      var outstanding := inv.net - (paid + credited);
      if outstanding < 0 {
        return false;
      }
      inv := inv.(outstanding := outstanding);
      if inv.status != InvoiceWrittenOff {
        inv := inv.(status := if outstanding == 0 then Paid else if paid + credited > 0 then PartPaid else Open);
      }
      invoices := invoices[i := inv];
      return true;
    }

    method InvoiceRefs(ghost buyer: nat, rows: seq<nat>) returns (refs: seq<InvoiceRef>)
      requires Lists(rows, ToBooks(), buyer)
      ensures refs == Refs(ToBooks(), rows)
    {
      refs := [];
      for k := 0 to |rows|
        invariant |refs| == k && forall j :: 0 <= j < k ==> refs[j] == Refs(ToBooks(), rows)[j]
      {
        assert rows[k] in rows;
        var inv := invoices[rows[k]];
        var paid := SumAllocations(rows[k]);
        var credited := SumCreditNotes(rows[k]);
        refs := refs + [InvoiceRef(rows[k], inv.number, inv.issueDate, inv.dueDate, inv.net, paid, credited)];
      }
    }

    method RecomputeEach(shares: seq<Share>) returns (ok: bool)
      requires forall s :: s in shares ==> s.invoice < |invoices|
      modifies this`invoices
      ensures ok <==> RecomputedEach(old(ToBooks()), shares).Some?
      ensures ok ==> ToBooks() == RecomputedEach(old(ToBooks()), shares).value
    {
      ghost var start := ToBooks();
      for k := 0 to |shares|
        invariant RecomputedEach(start, shares[..k]) == Some(ToBooks()) && |invoices| == |start.invoices|
      {
        assert shares[..k + 1][..k] == shares[..k];
        assert shares[k] in shares;
        ok := RecomputeInvoice(shares[k].invoice);
        if !ok {
          RecomputedPrefix(start, shares, k + 1);
          return false;
        }
      }
      assert shares[..|shares|] == shares;
      return true;
    }

    /** `apply_payment`. `rows` is the locked read of the buyer's payable invoices. */
    method ApplyPayment(payment: nat, instructions: seq<(nat, int)>, rows: seq<nat>)
      returns (r: Result<Plan, LedgerError>)
      requires payment < |payments| && Lists(rows, ToBooks(), payments[payment].buyer) && DistinctKeys(instructions)
      modifies this
      ensures r == PaymentOutcome(old(ToBooks()), payment, instructions, rows)
      ensures ToBooks() == PaymentApplied(old(ToBooks()), payment, instructions, rows)
    {
      var refs := InvoiceRefs(payments[payment].buyer, rows);
      r := PlanAllocation(payments[payment].amount, refs, instructions);
      if r.Err? {
        return;
      }
      PlannedInRange(ToBooks(), payments[payment].buyer, rows, payments[payment].amount, instructions);
      var savedInvoices, savedPayments, savedAllocs := invoices, payments, allocs;
      for k := 0 to |r.value.shares|
        invariant allocs == savedAllocs + RowsOf(payment, r.value.shares[..k])
        invariant invoices == savedInvoices && payments == savedPayments && notes == old(notes)
      {
        var s := r.value.shares[k];
        allocs := allocs + [AllocRow(payment, s.invoice, s.amount, s.rule)];
        assert r.value.shares[..k + 1][..k] == r.value.shares[..k];
      }
      assert r.value.shares[..|r.value.shares|] == r.value.shares;
      payments := payments[payment := payments[payment].(unallocated := r.value.unallocated)];
      var ok := RecomputeEach(r.value.shares);
      if !ok {
        invoices, payments, allocs := savedInvoices, savedPayments, savedAllocs;
        r := Err(OverSettled);
      }
    }

    /** `apply_credit_note` on a note just added; a refusal takes the note away with it. */
    method ApplyCreditNote(note: Note) returns (r: Result<(), LedgerError>)
      modifies this
      ensures r == CreditOutcome(old(ToBooks()), note)
      ensures ToBooks() == CreditApplied(old(ToBooks()), note)
    {
      var saved := notes;
      notes := notes + [note];
      if note.invoice.None? {
        return Ok(());
      }
      var i := note.invoice.value;
      if i >= |invoices| {
        notes := saved;
        return Err(MissingInvoice);
      }
      var paid := SumAllocations(i);
      var credited := SumCreditNotes(i);
      if paid + credited > invoices[i].net {
        notes := saved;
        return Err(OverSettled);
      }
      var ok := RecomputeInvoice(i);
      return Ok(());
    }
  }

  // ----------------------------------------------------------- the operations, on values

  function PaymentPlan(b: Books, payment: nat, instructions: seq<(nat, int)>, rows: seq<nat>): Result<Plan, LedgerError>
    requires payment < |b.payments| && forall i :: i in rows ==> i < |b.invoices|
  {
    Planned(b.payments[payment].amount, Refs(b, rows), instructions)
  }

  function PaymentOutcome(b: Books, payment: nat, instructions: seq<(nat, int)>, rows: seq<nat>):
      Result<Plan, LedgerError>
    requires payment < |b.payments| && Lists(rows, b, b.payments[payment].buyer) && DistinctKeys(instructions)
  {
    var r := PaymentPlan(b, payment, instructions, rows);
    if r.Err? then r
    else
      PlannedInRange(b, b.payments[payment].buyer, rows, b.payments[payment].amount, instructions);
      if RecomputedEach(Posted(b, payment, r.value), r.value.shares).None? then Err(OverSettled) else r
  }

  function PaymentApplied(b: Books, payment: nat, instructions: seq<(nat, int)>, rows: seq<nat>): Books
    requires payment < |b.payments| && Lists(rows, b, b.payments[payment].buyer) && DistinctKeys(instructions)
  {
    var r := PaymentPlan(b, payment, instructions, rows);
    if r.Err? then b
    else
      PlannedInRange(b, b.payments[payment].buyer, rows, b.payments[payment].amount, instructions);
      match RecomputedEach(Posted(b, payment, r.value), r.value.shares)
      case None => b
      case Some(b') => b'
  }

  function CreditOutcome(b: Books, note: Note): Result<(), LedgerError> {
    var b' := b.(notes := b.notes + [note]);
    if note.invoice.None? then Ok(())
    else if note.invoice.value >= |b.invoices| then Err(MissingInvoice)
    else if SettledOn(b', note.invoice.value) > b.invoices[note.invoice.value].net then Err(OverSettled)
    else Ok(())
  }

  function CreditApplied(b: Books, note: Note): Books {
    var b' := b.(notes := b.notes + [note]);
    if CreditOutcome(b, note).Err? then b
    else if note.invoice.None? then b'
    else
      match Recomputed(b', note.invoice.value)
      case None => b'
      case Some(b'') => b''
  }

  lemma PlannedInRange(b: Books, buyer: nat, rows: seq<nat>, amount: int, instructions: seq<(nat, int)>)
    requires Lists(rows, b, buyer) && DistinctKeys(instructions) && Planned(amount, Refs(b, rows), instructions).Ok?
    ensures forall s :: s in Planned(amount, Refs(b, rows), instructions).value.shares ==> s.invoice < |b.invoices|
  {
    PlansAreSound(amount, Refs(b, rows), instructions);
    forall s | s in Planned(amount, Refs(b, rows), instructions).value.shares ensures s.invoice < |b.invoices| {
      var r :| r in Refs(b, rows) && r.id == s.invoice;
      var k :| 0 <= k < |rows| && Refs(b, rows)[k] == r;
      assert rows[k] in rows;
    }
  }

  lemma {:induction false} RecomputedPrefix(b: Books, shares: seq<Share>, k: nat)
    requires (forall s :: s in shares ==> s.invoice < |b.invoices|) && k <= |shares|
    requires RecomputedEach(b, shares[..k]).None?
    ensures RecomputedEach(b, shares).None?
    decreases |shares| - k
  {
    if k == |shares| {
      assert shares[..k] == shares;
    } else {
      assert shares[..k + 1][..k] == shares[..k];
      RecomputedPrefix(b, shares, k + 1);
    }
  }

  // ----------------------------------------------------------------------- the invariant

  ghost predicate InvoiceBalanced(b: Books, i: nat)
    requires i < |b.invoices|
  {
    var inv, settled := b.invoices[i], SettledOn(b, i);
    if inv.status == InvoiceCancelled then inv.outstanding == 0
    else
      && inv.outstanding == inv.net - settled
      && 0 <= inv.outstanding <= inv.net
      && (inv.status == Paid ==> inv.outstanding == 0)
      && (inv.status == PartPaid ==> 0 < inv.outstanding < inv.net)
      && (inv.status == Open ==> settled == 0)
  }

  ghost predicate PaymentBalanced(b: Books, p: nat)
    requires p < |b.payments|
  {
    b.payments[p].amount == OfPayment(b.allocs, p) + b.payments[p].unallocated && b.payments[p].unallocated >= 0
  }

  ghost predicate RowSound(b: Books, a: AllocRow) {
    && a.payment < |b.payments| && a.invoice < |b.invoices| && a.amount > 0
    && b.payments[a.payment].buyer == b.invoices[a.invoice].buyer
  }

  ghost predicate NoteSound(b: Books, n: Note) {
    n.amount > 0 && (n.invoice.Some? ==> n.invoice.value < |b.invoices| && b.invoices[n.invoice.value].buyer == n.buyer)
  }

  /** Everything but the invoices' own columns. */
  ghost predicate TablesSound(b: Books) {
    && (forall p :: 0 <= p < |b.payments| ==> PaymentBalanced(b, p))
    && (forall a :: a in b.allocs ==> RowSound(b, a))
    && (forall n :: n in b.notes ==> NoteSound(b, n))
  }

  ghost predicate Balanced(b: Books) {
    (forall i :: 0 <= i < |b.invoices| ==> InvoiceBalanced(b, i)) && TablesSound(b)
  }

  function ShareOn(shares: seq<Share>, i: nat): int {
    if shares == [] then 0
    else
      ShareOn(shares[..|shares| - 1], i) +
      (if shares[|shares| - 1].invoice == i then shares[|shares| - 1].amount else 0)
  }

  lemma {:induction false} PostedSums(allocs: seq<AllocRow>, payment: nat, shares: seq<Share>, i: nat, p: nat)
    ensures OnInvoice(allocs + RowsOf(payment, shares), i) == OnInvoice(allocs, i) + ShareOn(shares, i)
    ensures OfPayment(allocs + RowsOf(payment, shares), p) ==
            OfPayment(allocs, p) + if p == payment then Total(shares) else 0
  {
    if shares == [] {
      assert allocs + RowsOf(payment, shares) == allocs;
    } else {
      var front := shares[..|shares| - 1];
      PostedSums(allocs, payment, front, i, p);
      var rows := allocs + RowsOf(payment, shares);
      assert rows[..|rows| - 1] == allocs + RowsOf(payment, front);
    }
  }

  lemma {:induction false} PostedRows(payment: nat, shares: seq<Share>)
    ensures forall a :: a in RowsOf(payment, shares) ==>
              a.payment == payment && exists s :: s in shares && a.invoice == s.invoice && a.amount == s.amount
  {
    if shares != [] {
      PostedRows(payment, shares[..|shares| - 1]);
      assert shares == shares[..|shares| - 1] + [shares[|shares| - 1]];
    }
  }

  lemma {:induction false} ShareOnDistinct(shares: seq<Share>, i: nat)
    requires DistinctShares(shares)
    ensures (forall s :: s in shares ==> s.invoice != i) ==> ShareOn(shares, i) == 0
    ensures forall s :: s in shares && s.invoice == i ==> ShareOn(shares, i) == s.amount
  {
    if shares != [] {
      var front, last := shares[..|shares| - 1], shares[|shares| - 1];
      ShareOnDistinct(front, i);
      assert shares == front + [last];
      assert forall s :: s in front ==> s.invoice != last.invoice;
    }
  }

  /** Recomputing some invoices, none of them over-settled, writes exactly those. */
  lemma {:induction false} RecomputedEachMeans(b: Books, shares: seq<Share>)
    requires forall s :: s in shares ==>
            s.invoice < |b.invoices| && Restated(b.invoices[s.invoice], SettledOn(b, s.invoice)).Some?
    requires DistinctShares(shares)
    ensures var r := RecomputedEach(b, shares);
            && r.Some?
            && r.value == b.(invoices := r.value.invoices)
            && |r.value.invoices| == |b.invoices|
            && (forall s :: s in shares ==>
                Some(r.value.invoices[s.invoice]) == Restated(b.invoices[s.invoice], SettledOn(b, s.invoice)))
            && (forall i :: 0 <= i < |b.invoices| && (forall s :: s in shares ==> s.invoice != i) ==>
                r.value.invoices[i] == b.invoices[i])
  {
    if shares != [] {
      var front, last := shares[..|shares| - 1], shares[|shares| - 1];
      assert shares == front + [last];
      RecomputedEachMeans(b, front);
      assert forall s :: s in front ==> s.invoice != last.invoice;
      var b' := RecomputedEach(b, front).value;
      assert SettledOn(b', last.invoice) == SettledOn(b, last.invoice);
    }
  }

  /** What a plan must satisfy to be posted for one buyer on the current books. */
  ghost predicate Postable(b: Books, buyer: nat, plan: Plan, amount: int) {
    && Total(plan.shares) + plan.unallocated == amount && plan.unallocated >= 0
    && DistinctShares(plan.shares)
    && forall s :: s in plan.shares ==>
         && s.invoice < |b.invoices| && Payable(b.invoices[s.invoice], buyer)
         && 0 < s.amount <= b.invoices[s.invoice].net - SettledOn(b, s.invoice)
  }

  lemma SoundIsPostable(b: Books, buyer: nat, rows: seq<nat>, amount: int, instructions: seq<(nat, int)>)
    requires Lists(rows, b, buyer) && DistinctKeys(instructions) && Planned(amount, Refs(b, rows), instructions).Ok?
    ensures Postable(b, buyer, Planned(amount, Refs(b, rows), instructions).value, amount)
    ensures forall s :: s in Planned(amount, Refs(b, rows), instructions).value.shares ==> s.invoice in rows
  {
    var refs := Refs(b, rows);
    var plan := Planned(amount, refs, instructions).value;
    PlansAreSound(amount, refs, instructions);
    forall s | s in plan.shares
      ensures s.invoice in rows && s.invoice < |b.invoices| && Payable(b.invoices[s.invoice], buyer)
      ensures 0 < s.amount <= b.invoices[s.invoice].net - SettledOn(b, s.invoice)
    {
      var r :| r in refs && r.id == s.invoice && 0 < s.amount <= r.Outstanding();
      var k :| 0 <= k < |rows| && refs[k] == r;
      assert rows[k] in rows;
    }
  }

  predicate Touched(shares: seq<Share>, i: nat) { exists s :: s in shares && s.invoice == i }

  /** The tables after a sound plan is posted: all but the invoices is as inserted. */
  lemma PostedShape(b: Books, buyer: nat, payment: nat, plan: Plan)
    requires payment < |b.payments| && Postable(b, buyer, plan, b.payments[payment].amount)
    ensures var posted, r := Posted(b, payment, plan), RecomputedEach(Posted(b, payment, plan), plan.shares);
            r.Some? && r.value == posted.(invoices := r.value.invoices) && |r.value.invoices| == |b.invoices|
  {
    PostedSettled(b, buyer, payment, plan);
    RecomputedEachMeans(Posted(b, payment, plan), plan.shares);
  }

  lemma PostedSettled(b: Books, buyer: nat, payment: nat, plan: Plan)
    requires payment < |b.payments| && Postable(b, buyer, plan, b.payments[payment].amount)
    ensures forall i :: !Touched(plan.shares, i) ==> SettledOn(Posted(b, payment, plan), i) == SettledOn(b, i)
    ensures forall s :: s in plan.shares ==>
              && SettledOn(Posted(b, payment, plan), s.invoice) == SettledOn(b, s.invoice) + s.amount
              && Restated(b.invoices[s.invoice], SettledOn(Posted(b, payment, plan), s.invoice)).Some?
  {
    forall i: nat ensures SettledOn(Posted(b, payment, plan), i) == SettledOn(b, i) + ShareOn(plan.shares, i) {
      PostedSums(b.allocs, payment, plan.shares, i, payment);
    }
    forall i: nat ensures !Touched(plan.shares, i) ==> ShareOn(plan.shares, i) == 0 {
      ShareOnDistinct(plan.shares, i);
    }
    forall s | s in plan.shares ensures ShareOn(plan.shares, s.invoice) == s.amount {
      ShareOnDistinct(plan.shares, s.invoice);
    }
  }

  /** One invoice after a sound plan is posted: in balance if the plan names it, and otherwise as it was. */
  lemma PostedInvoice(b: Books, buyer: nat, payment: nat, plan: Plan, i: nat)
    requires TablesSound(b) && payment < |b.payments| && Postable(b, buyer, plan, b.payments[payment].amount)
    requires i < |b.invoices|
    ensures var r := RecomputedEach(Posted(b, payment, plan), plan.shares);
            && r.Some? && |r.value.invoices| == |b.invoices| && r.value.invoices[i].buyer == b.invoices[i].buyer
            && (Touched(plan.shares, i) ==> InvoiceBalanced(r.value, i))
            && (!Touched(plan.shares, i) ==>
                  r.value.invoices[i] == b.invoices[i] && SettledOn(r.value, i) == SettledOn(b, i))
  {
    var posted := Posted(b, payment, plan);
    PostedShape(b, buyer, payment, plan);
    PostedSettled(b, buyer, payment, plan);
    RecomputedEachMeans(posted, plan.shares);
    if Touched(plan.shares, i) {
      var s :| s in plan.shares && s.invoice == i;
      SettledIsNonNegative(b, i);
      RestatedBalanced(RecomputedEach(posted, plan.shares).value, b.invoices[i], i);
    }
  }

  lemma SettledIsNonNegative(b: Books, i: nat)
    requires TablesSound(b)
    ensures SettledOn(b, i) >= 0
  {
    forall a | a in b.allocs ensures a.amount > 0 {
      assert RowSound(b, a);
    }
    forall n | n in b.notes ensures n.amount > 0 {
      assert NoteSound(b, n);
    }
    AllocatedNonNegative(b.allocs, i);
    CreditedNonNegative(b.notes, i);
  }

  /** A recomputed invoice is in balance. */
  lemma RestatedBalanced(b: Books, before: Invoice, i: nat)
    requires i < |b.invoices| && SettledOn(b, i) >= 0 && Restated(before, SettledOn(b, i)) == Some(b.invoices[i])
    ensures InvoiceBalanced(b, i)
  {
  }

  /** Posting a sound plan for a payment with no allocations yet never trips the over-settled guard
      and leaves the books balanced. */
  lemma PostingKeepsBalance(b: Books, buyer: nat, payment: nat, plan: Plan)
    requires Balanced(b) && payment < |b.payments| && b.payments[payment].buyer == buyer
    requires OfPayment(b.allocs, payment) == 0 && Postable(b, buyer, plan, b.payments[payment].amount)
    ensures RecomputedEach(Posted(b, payment, plan), plan.shares).Some?
    ensures Balanced(RecomputedEach(Posted(b, payment, plan), plan.shares).value)
  {
    PostingKeepsTables(b, buyer, payment, plan);
    var b' := RecomputedEach(Posted(b, payment, plan), plan.shares).value;
    forall i | 0 <= i < |b'.invoices| ensures InvoiceBalanced(b', i) {
      PostedInvoice(b, buyer, payment, plan, i);
      assert InvoiceBalanced(b, i);
    }
  }

  lemma PostingKeepsTables(b: Books, buyer: nat, payment: nat, plan: Plan)
    requires TablesSound(b) && payment < |b.payments| && b.payments[payment].buyer == buyer
    requires OfPayment(b.allocs, payment) == 0 && Postable(b, buyer, plan, b.payments[payment].amount)
    ensures RecomputedEach(Posted(b, payment, plan), plan.shares).Some?
    ensures TablesSound(RecomputedEach(Posted(b, payment, plan), plan.shares).value)
    ensures |RecomputedEach(Posted(b, payment, plan), plan.shares).value.invoices| == |b.invoices|
  {
    PostedShape(b, buyer, payment, plan);
    var b' := RecomputedEach(Posted(b, payment, plan), plan.shares).value;
    forall i | 0 <= i < |b'.invoices| ensures b'.invoices[i].buyer == b.invoices[i].buyer {
      PostedInvoice(b, buyer, payment, plan, i);
    }
    forall p | 0 <= p < |b'.payments| ensures PaymentBalanced(b', p) {
      assert PaymentBalanced(b, p);
      PostedSums(b.allocs, payment, plan.shares, 0, p);
    }
    PostedRows(payment, plan.shares);
    forall a | a in b'.allocs ensures RowSound(b', a) {
      if a in b.allocs {
        assert RowSound(b, a);
      }
    }
    forall n | n in b'.notes ensures NoteSound(b', n) {
      assert NoteSound(b, n);
    }
  }

  /** `apply_payment` on balanced books and a fresh payment: refused only by the planner, never by
      the over-settled guard, and the books stay balanced either way. */
  lemma ApplyPaymentKeepsBalance(b: Books, payment: nat, instructions: seq<(nat, int)>, rows: seq<nat>)
    requires Balanced(b) && payment < |b.payments| && OfPayment(b.allocs, payment) == 0
    requires Lists(rows, b, b.payments[payment].buyer) && DistinctKeys(instructions)
    ensures PaymentOutcome(b, payment, instructions, rows) == PaymentPlan(b, payment, instructions, rows)
    ensures Balanced(PaymentApplied(b, payment, instructions, rows))
  {
    var r := PaymentPlan(b, payment, instructions, rows);
    if r.Ok? {
      var buyer := b.payments[payment].buyer;
      SoundIsPostable(b, buyer, rows, b.payments[payment].amount, instructions);
      PostingKeepsBalance(b, buyer, payment, r.value);
    }
  }

  // ------------------------------------------------------------------------------ by the columns

  /** What a recomputation writes. A voided invoice owes nothing; otherwise more settled than billed is refused, the
      balance is what is left, and the status is paid, part paid or open by it, unless the debt was written off. */
  lemma RestatedSays(inv: Invoice, settled: int)
    ensures var r := Restated(inv, settled);
            if inv.status == InvoiceCancelled then r == Some(inv.(outstanding := 0))
            else if settled > inv.net then r == None
            else
              && r.Some? && r.value == inv.(outstanding := inv.net - settled, status := r.value.status)
              && (inv.status == InvoiceWrittenOff ==> r.value.status == InvoiceWrittenOff)
              && (inv.status != InvoiceWrittenOff ==>
                    && (r.value.status == Paid <==> settled == inv.net)
                    && (r.value.status == PartPaid <==> 0 < settled < inv.net)
                    && (r.value.status == Open <==> settled <= 0 && settled < inv.net))
  {
  }

  /** A note on account is always taken; one for an invoice is refused when there is none of that id, or when it and
      what is settled already come to more than was billed. */
  lemma CreditSays(b: Books, note: Note)
    ensures var r := CreditOutcome(b, note);
            if note.invoice.None? then r == Ok(())
            else if note.invoice.value >= |b.invoices| then r == Err(MissingInvoice)
            else if SettledOn(b, note.invoice.value) + note.amount > b.invoices[note.invoice.value].net then
              r == Err(OverSettled)
            else r == Ok(())
  {
    assert (b.notes + [note])[..|b.notes|] == b.notes;
  }

  /** Due earlier; due on a day, issued earlier; and issued on a day, numbered lower. */
  ghost predicate InvoiceAhead(a: Invoice, c: Invoice) {
    || a.dueDate < c.dueDate
    || (a.dueDate == c.dueDate && a.issueDate < c.issueDate)
    || (a.dueDate == c.dueDate && a.issueDate == c.issueDate && Before(a.number, c.number))
  }

  /** The buyer's, and neither voided nor written off. */
  ghost predicate Theirs(b: Books, buyer: nat, i: nat) {
    i < |b.invoices| && b.invoices[i].buyer == buyer && b.invoices[i].status in {Open, PartPaid, Paid}
  }

  /** What is left to settle on an invoice goes to it in full. */
  ghost predicate GetsAll(b: Books, plan: Plan, q: nat) {
    exists t :: t in plan.shares && t.invoice == q < |b.invoices| && t.amount == b.invoices[q].net - SettledOn(b, q)
  }

  /** An invoice of the buyer that has something left to settle, and is ahead of another. */
  ghost predicate Waits(b: Books, buyer: nat, q: nat, i: nat)
    requires i < |b.invoices|
  {
    Theirs(b, buyer, q) && b.invoices[q].net - SettledOn(b, q) > 0 && InvoiceAhead(b.invoices[q], b.invoices[i])
  }

  lemma RefOfTheirs(b: Books, buyer: nat, rows: seq<nat>, q: nat) returns (k: nat)
    requires Lists(rows, b, buyer) && Theirs(b, buyer, q)
    ensures k < |rows| && rows[k] == q && Refs(b, rows)[k].id == q
    ensures var r, inv := Refs(b, rows)[k], b.invoices[q];
            && r in Refs(b, rows) && r.Outstanding() == inv.net - SettledOn(b, q)
            && r.dueDate == inv.dueDate && r.issueDate == inv.issueDate && r.number == inv.number
  {
    assert q in rows;
    k :| 0 <= k < |rows| && rows[k] == q;
  }

  lemma SharesAreTheirs(b: Books, buyer: nat, rows: seq<nat>, amount: int, instructions: seq<(nat, int)>)
    requires Lists(rows, b, buyer) && DistinctKeys(instructions) && Planned(amount, Refs(b, rows), instructions).Ok?
    ensures forall s :: s in Planned(amount, Refs(b, rows), instructions).value.shares ==> Theirs(b, buyer, s.invoice)
  {
    SoundIsPostable(b, buyer, rows, amount, instructions);
    forall s | s in Planned(amount, Refs(b, rows), instructions).value.shares ensures Theirs(b, buyer, s.invoice) {
      assert s.invoice in rows;
    }
  }

  lemma ExactPaysIt(b: Books, buyer: nat, rows: seq<nat>, amount: int, r: InvoiceRef)
    requires Lists(rows, b, buyer) && amount > 0 && OnlyMatch(Refs(b, rows), amount, r)
    ensures var plan := Planned(amount, Refs(b, rows), []);
            && plan == Ok(Plan([Share(r.id, amount, ExactMatch)], 0)) && r.id < |b.invoices|
            && b.invoices[r.id].net - SettledOn(b, r.id) == amount
  {
    UninstructedPlan(amount, Refs(b, rows));
    var k :| 0 <= k < |rows| && Refs(b, rows)[k] == r;
    assert rows[k] in rows;
  }

  /**
   * Where an uninstructed payment goes, by the columns of the ledger: to invoices of the buyer that are neither voided
   * nor written off; all of it to the one that owes just that much, when there is one; otherwise to no invoice ahead of
   * one that has had its share, and to the full to every one ahead of one that gets anything.
   */
  lemma OldestDebtsFirst(b: Books, buyer: nat, rows: seq<nat>, amount: int)
    requires Lists(rows, b, buyer) && amount > 0
    ensures Planned(amount, Refs(b, rows), []).Ok?
    ensures var plan := Planned(amount, Refs(b, rows), []).value;
            && (forall s :: s in plan.shares ==> Theirs(b, buyer, s.invoice))
            && ((exists i: nat :: i < |b.invoices| && b.invoices[i].net - SettledOn(b, i) == amount &&
                   plan == Plan([Share(i, amount, ExactMatch)], 0))
                || ((forall i, j :: 0 <= i < j < |plan.shares| ==>
                       !InvoiceAhead(b.invoices[plan.shares[j].invoice], b.invoices[plan.shares[i].invoice]))
                    && (forall s, q: nat :: s in plan.shares && Waits(b, buyer, q, s.invoice) ==> GetsAll(b, plan, q))))
  {
    var refs := Refs(b, rows);
    UninstructedPlan(amount, refs);
    SharesAreTheirs(b, buyer, rows, amount, []);
    if r :| OnlyMatch(refs, amount, r) {
      ExactPaysIt(b, buyer, rows, amount, r);
    } else {
      var plan := Planned(amount, refs, []).value;
      forall i, j | 0 <= i < j < |plan.shares|
        ensures !InvoiceAhead(b.invoices[plan.shares[j].invoice], b.invoices[plan.shares[i].invoice])
      {
        InShareOrder(b, buyer, rows, plan, i, j);
      }
      forall s, q: nat | s in plan.shares && Waits(b, buyer, q, s.invoice) ensures GetsAll(b, plan, q) {
        PaidToTheFull(b, buyer, rows, plan, s, q);
      }
    }
  }

  lemma InShareOrder(b: Books, buyer: nat, rows: seq<nat>, plan: Plan, i: int, j: int)
    requires Lists(rows, b, buyer) && OldestFirstPaid(plan, Refs(b, rows)) && 0 <= i < j < |plan.shares|
    requires forall s :: s in plan.shares ==> Theirs(b, buyer, s.invoice)
    ensures plan.shares[i].invoice < |b.invoices| && plan.shares[j].invoice < |b.invoices|
    ensures !InvoiceAhead(b.invoices[plan.shares[j].invoice], b.invoices[plan.shares[i].invoice])
  {
    var k := RefOfTheirs(b, buyer, rows, plan.shares[i].invoice);
    var m := RefOfTheirs(b, buyer, rows, plan.shares[j].invoice);
    assert Pays(plan, i, Refs(b, rows)[k]) && Pays(plan, j, Refs(b, rows)[m]);
    assert !Ahead(Refs(b, rows)[m], Refs(b, rows)[k]);
  }

  lemma PaidToTheFull(b: Books, buyer: nat, rows: seq<nat>, plan: Plan, s: Share, q: nat)
    requires Lists(rows, b, buyer) && OldestFirstPaid(plan, Refs(b, rows)) && s in plan.shares
    requires Theirs(b, buyer, s.invoice) && Waits(b, buyer, q, s.invoice)
    ensures GetsAll(b, plan, q)
  {
    var i :| 0 <= i < |plan.shares| && plan.shares[i] == s;
    var k := RefOfTheirs(b, buyer, rows, s.invoice);
    var m := RefOfTheirs(b, buyer, rows, q);
    assert Pays(plan, i, Refs(b, rows)[k]) && Ahead(Refs(b, rows)[m], Refs(b, rows)[k]);
    assert PaidInFull(plan, Refs(b, rows)[m]);
  }

  lemma {:induction false} CreditedNonNegative(notes: seq<Note>, i: nat)
    requires forall n :: n in notes ==> n.amount > 0
    ensures Credited(notes, i) >= 0
  {
    if notes != [] {
      CreditedNonNegative(notes[..|notes| - 1], i);
      assert notes[|notes| - 1] in notes;
    }
  }

  lemma {:induction false} AllocatedNonNegative(allocs: seq<AllocRow>, i: nat)
    requires forall a :: a in allocs ==> a.amount > 0
    ensures OnInvoice(allocs, i) >= 0
  {
    if allocs != [] {
      AllocatedNonNegative(allocs[..|allocs| - 1], i);
      assert allocs[|allocs| - 1] in allocs;
    }
  }

  lemma CreditedInvoice(b: Books, note: Note, i: nat)
    requires Balanced(b) && note.amount > 0 && CreditOutcome(b, note).Ok? && i < |b.invoices|
    ensures |CreditApplied(b, note).invoices| == |b.invoices|
    ensures InvoiceBalanced(CreditApplied(b, note), i)
    ensures CreditApplied(b, note).invoices[i].buyer == b.invoices[i].buyer
  {
    var notes' := b.notes + [note];
    assert notes'[..|notes'| - 1] == b.notes;
    assert InvoiceBalanced(b, i);
    SettledIsNonNegative(b, i);
  }

  /** A credit note for the note's own buyer is applied exactly when it fits what the invoice still
      owes, and the books stay balanced either way. */
  lemma CreditNoteKeepsBalance(b: Books, note: Note)
    requires Balanced(b) && note.amount > 0
    requires note.invoice.Some? && note.invoice.value < |b.invoices| ==>
            b.invoices[note.invoice.value].buyer == note.buyer
    ensures Balanced(CreditApplied(b, note))
    ensures note.invoice.Some? && note.invoice.value < |b.invoices|
            && b.invoices[note.invoice.value].status != InvoiceCancelled ==>
              (CreditOutcome(b, note).Ok? <==> note.amount <= b.invoices[note.invoice.value].outstanding)
  {
    var notes' := b.notes + [note];
    assert notes'[..|notes'| - 1] == b.notes;
    var b' := CreditApplied(b, note);
    if note.invoice.Some? && note.invoice.value < |b.invoices| {
      assert InvoiceBalanced(b, note.invoice.value);
    }
    if CreditOutcome(b, note).Ok? {
      forall i | 0 <= i < |b'.invoices| ensures InvoiceBalanced(b', i) && b'.invoices[i].buyer == b.invoices[i].buyer {
        CreditedInvoice(b, note, i);
      }
      forall p | 0 <= p < |b'.payments| ensures PaymentBalanced(b', p) {
        assert PaymentBalanced(b, p);
      }
      forall a | a in b'.allocs ensures RowSound(b', a) {
        assert RowSound(b, a);
      }
      forall n | n in b'.notes ensures NoteSound(b', n) {
        if n in b.notes {
          assert NoteSound(b, n);
        }
      }
    }
  }
}
