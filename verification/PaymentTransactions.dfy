/**
 * Overlapping transactions on the ledger (backend/app/trade/allocation.py). A payment reads and plans under row locks
 * that it holds to its commit (`invoice_refs(lock=True)`). A credit note takes no such lock, but its row refers to its
 * invoice by a foreign key (backend/app/models/trade.py), so that inserting it shares a lock on the invoice: that keeps
 * payments and notes apart, and two notes on one invoice not.
 */
module PaymentTransactions {
  import opened Common
  import opened Allocation
  import opened Ledger

  /** A payment between its locked read and its commit: nothing of it is visible yet. */
  datatype Pending = Pending(payment: Payment, rows: seq<nat>, plan: Plan)

  /** A credit note between its insertion and its commit: what was settled on its invoice when it read, itself left
      out, and the invoice's row as it then was. */
  datatype Reading = Reading(note: Note, i: nat, seen: int, loaded: Invoice)

  datatype World = World(books: Books, open: map<nat, Pending>, readings: map<nat, Reading>)

  datatype Step =
    | NewInvoice(invoice: Invoice)
    | Begin(tx: nat, payment: Payment, instructions: seq<(nat, int)>, rows: seq<nat>)
    | Commit(tx: nat)
    | Rollback(tx: nat)
    | OnAccount(credit: Note)
    | ReadNote(tx: nat, note: Note)
    | CommitNote(tx: nat)
    | DropNote(tx: nat)

  /** `FOR UPDATE` waits while another transaction holds one of the rows, and for the notes on them. */
  ghost predicate Unlocked(w: World, rows: seq<nat>) {
    && (forall t, i :: t in w.open && i in rows ==> i !in w.open[t].rows)
    && (forall t :: t in w.readings ==> w.readings[t].i !in rows)
  }

  /** When a step can happen. Inserting a note waits for the payments that hold its invoice, not for other notes. */
  ghost predicate Enabled(w: World, step: Step) {
    match step
    case NewInvoice(inv) => inv.net >= 0 && inv.outstanding == inv.net && inv.status == Open
    case Begin(tx, payment, instructions, rows) =>
      tx !in w.open && payment.unallocated == payment.amount
      && Lists(rows, w.books, payment.buyer) && Unlocked(w, rows) && DistinctKeys(instructions)
    case Commit(tx) => tx in w.open
    case Rollback(tx) => tx in w.open
    case OnAccount(n) => n.amount > 0 && n.invoice.None?
    case ReadNote(tx, n) =>
      && tx !in w.readings && n.amount > 0
      && n.invoice.Some? && n.invoice.value < |w.books.invoices| && w.books.invoices[n.invoice.value].buyer == n.buyer
      && forall t :: t in w.open ==> n.invoice.value !in w.open[t].rows
    case CommitNote(tx) => tx in w.readings
    case DropNote(tx) => tx in w.readings
  }

  function Inserted(b: Books, payment: Payment): Books { b.(payments := b.payments + [payment]) }

  /** The commit publishes payment, allocations and recomputed invoices; None is the over-settled guard. */
  function Published(b: Books, p: Pending): Option<Books> {
    if exists s :: s in p.plan.shares && s.invoice >= |b.invoices| then None
    else RecomputedEach(Posted(Inserted(b, p.payment), |b.payments|, p.plan), p.plan.shares)
  }

  /** The row a note writes, column by column where its own recomputation changed what it had loaded. */
  function Written(current: Invoice, r: Reading): Invoice {
    match Restated(r.loaded, r.seen + r.note.amount)
    case None => current
    case Some(inv) =>
      current.(outstanding := if inv.outstanding != r.loaded.outstanding then inv.outstanding else current.outstanding,
               status := if inv.status != r.loaded.status then inv.status else current.status)
  }

  function NotePublished(b: Books, r: Reading): Books {
    if r.i >= |b.invoices| then b
    else b.(notes := b.notes + [r.note], invoices := b.invoices[r.i := Written(b.invoices[r.i], r)])
  }

  ghost function Next(w: World, step: Step): World
    requires Enabled(w, step)
  {
    match step
    case NewInvoice(inv) => w.(books := w.books.(invoices := w.books.invoices + [inv]))
    case Begin(tx, payment, instructions, rows) =>
      (match Planned(payment.amount, Refs(w.books, rows), instructions)
       case Err(_) => w
       case Ok(plan) => w.(open := w.open[tx := Pending(payment, rows, plan)]))
    case Commit(tx) =>
      (match Published(w.books, w.open[tx])
       case None => w.(open := w.open - {tx})
       case Some(b) => w.(books := b, open := w.open - {tx}))
    case Rollback(tx) => w.(open := w.open - {tx})
    case OnAccount(n) => w.(books := w.books.(notes := w.books.notes + [n]))
    case ReadNote(tx, n) =>
      var i := n.invoice.value;
      if SettledOn(w.books, i) + n.amount > w.books.invoices[i].net then w
      else w.(readings := w.readings[tx := Reading(n, i, SettledOn(w.books, i), w.books.invoices[i])])
    case CommitNote(tx) => w.(books := NotePublished(w.books, w.readings[tx]), readings := w.readings - {tx})
    case DropNote(tx) => w.(readings := w.readings - {tx})
  }

  // ------------------------------------------------------------------------------- the invariant

  /** What an invoice has left to settle. */
  function Owed(b: Books, i: nat): int
    requires i < |b.invoices|
  {
    b.invoices[i].net - SettledOn(b, i)
  }

  /** An invoice's row never shows less than it has left, and is in balance when it shows no more. */
  ghost predicate Shown(b: Books, i: nat)
    requires i < |b.invoices|
  {
    var inv := b.invoices[i];
    if inv.status == InvoiceCancelled then inv.outstanding == 0
    else inv.outstanding >= Owed(b, i) && (inv.outstanding == Owed(b, i) ==> InvoiceBalanced(b, i))
  }

  /** What the locks protect of a plan between its read and its commit. */
  ghost predicate PlanHeld(b: Books, p: Pending) {
    && Total(p.plan.shares) + p.plan.unallocated == p.payment.amount && p.plan.unallocated >= 0
    && p.payment.unallocated == p.payment.amount
    && DistinctShares(p.plan.shares)
    && (forall i :: i in p.rows ==> i < |b.invoices| && Payable(b.invoices[i], p.payment.buyer))
    && (forall s :: s in p.plan.shares ==> s.invoice in p.rows && 0 < s.amount)
  }

  ghost predicate Fits(b: Books, p: Pending) {
    forall s :: s in p.plan.shares ==> s.invoice < |b.invoices| && s.amount <= Owed(b, s.invoice)
  }

  ghost predicate PlanStands(b: Books, p: Pending) { PlanHeld(b, p) && Fits(b, p) }

  /** What is still true of a reading: nothing was taken off what is settled, and while nothing was added the row is
      as it was. */
  ghost predicate ReadingStands(b: Books, r: Reading) {
    && r.note.amount > 0 && r.note.invoice == Some(r.i) && r.i < |b.invoices|
    && b.invoices[r.i].buyer == r.note.buyer && b.invoices[r.i].net == r.loaded.net
    && (b.invoices[r.i].status == InvoiceCancelled <==> r.loaded.status == InvoiceCancelled)
    && (r.loaded.status == InvoiceCancelled ==> r.loaded.outstanding == 0)
    && (r.loaded.status != InvoiceCancelled ==> r.loaded.outstanding >= r.loaded.net - r.seen)
    && 0 <= r.seen && r.seen + r.note.amount <= r.loaded.net
    && r.seen <= SettledOn(b, r.i)
    && (r.seen == SettledOn(b, r.i) ==> b.invoices[r.i] == r.loaded)
  }

  ghost predicate BooksShown(b: Books) {
    TablesSound(b) && forall i :: 0 <= i < |b.invoices| ==> Shown(b, i)
  }

  ghost predicate Apart(w: World) {
    && (forall t, u, i :: t in w.open && u in w.open && t != u && i in w.open[t].rows ==> i !in w.open[u].rows)
    && (forall t, u :: t in w.open && u in w.readings ==> w.readings[u].i !in w.open[t].rows)
  }

  ghost predicate Inv(w: World) {
    && BooksShown(w.books) && Apart(w)
    && (forall t :: t in w.open ==> PlanStands(w.books, w.open[t]))
    && (forall t :: t in w.readings ==> ReadingStands(w.books, w.readings[t]))
  }

  // -------------------------------------------------------------------------- publishing a payment

  lemma {:induction false} NoRowsBeyond(allocs: seq<AllocRow>, p: nat)
    requires forall a :: a in allocs ==> a.payment < p
    ensures OfPayment(allocs, p) == 0
  {
    if allocs != [] {
      NoRowsBeyond(allocs[..|allocs| - 1], p);
      assert allocs[|allocs| - 1] in allocs;
    }
  }

  lemma {:induction false} NothingOn(allocs: seq<AllocRow>, notes: seq<Note>, i: nat)
    requires forall a :: a in allocs ==> a.invoice < i
    requires forall n :: n in notes ==> n.invoice != Some(i)
    ensures OnInvoice(allocs, i) == 0 && Credited(notes, i) == 0
    decreases |allocs| + |notes|
  {
    if allocs != [] {
      NothingOn(allocs[..|allocs| - 1], notes, i);
      assert allocs[|allocs| - 1] in allocs;
    } else if notes != [] {
      NothingOn(allocs, notes[..|notes| - 1], i);
      assert notes[|notes| - 1] in notes;
    }
  }

  lemma InsertedSound(b: Books, payment: Payment)
    requires TablesSound(b) && payment.unallocated == payment.amount && payment.amount >= 0
    ensures TablesSound(Inserted(b, payment)) && OfPayment(b.allocs, |b.payments|) == 0
  {
    var b' := Inserted(b, payment);
    forall a | a in b.allocs ensures a.payment < |b.payments| && RowSound(b', a) {
      assert RowSound(b, a);
    }
    NoRowsBeyond(b.allocs, |b.payments|);
    forall p | 0 <= p < |b'.payments| ensures PaymentBalanced(b', p) {
      assert p < |b.payments| ==> PaymentBalanced(b, p);
    }
    forall n | n in b'.notes ensures NoteSound(b', n) {
      assert NoteSound(b, n);
    }
  }

  /** A plan that stands can be posted once its payment is inserted. */
  lemma StandsIsPostable(b: Books, p: Pending)
    requires TablesSound(b) && PlanStands(b, p)
    ensures var b' := Inserted(b, p.payment);
            && TablesSound(b') && OfPayment(b'.allocs, |b.payments|) == 0
            && Postable(b', p.payment.buyer, p.plan, p.payment.amount)
  {
    TotalNonNegative(p.plan.shares);
    InsertedSound(b, p.payment);
    var b' := Inserted(b, p.payment);
    assert forall i :: 0 <= i < |b.invoices| ==> SettledOn(b', i) == SettledOn(b, i);
  }

  /** The over-settled guard does not fire on a plan that stands, and the tables stay sound. */
  lemma PublishedSound(b: Books, p: Pending)
    requires TablesSound(b) && PlanStands(b, p)
    ensures Published(b, p).Some? && TablesSound(Published(b, p).value)
    ensures |Published(b, p).value.invoices| == |b.invoices|
  {
    StandsIsPostable(b, p);
    PostingKeepsTables(Inserted(b, p.payment), p.payment.buyer, |b.payments|, p.plan);
  }

  /** Publishing brings the invoices a plan names into balance and leaves every other exactly as it was. */
  lemma PublishedInvoice(b: Books, p: Pending, i: nat)
    requires TablesSound(b) && PlanStands(b, p) && i < |b.invoices|
    ensures Published(b, p).Some? && |Published(b, p).value.invoices| == |b.invoices|
    ensures Touched(p.plan.shares, i) ==> InvoiceBalanced(Published(b, p).value, i)
    ensures !Touched(p.plan.shares, i) ==>
              && Published(b, p).value.invoices[i] == b.invoices[i]
              && SettledOn(Published(b, p).value, i) == SettledOn(b, i)
  {
    StandsIsPostable(b, p);
    PostedInvoice(Inserted(b, p.payment), p.payment.buyer, |b.payments|, p.plan, i);
  }

  lemma PublishingIsSafe(b: Books, p: Pending)
    requires Balanced(b) && PlanStands(b, p)
    ensures Published(b, p).Some? && Balanced(Published(b, p).value)
    ensures |Published(b, p).value.invoices| == |b.invoices|
  {
    PublishedSound(b, p);
    forall i | 0 <= i < |b.invoices| ensures InvoiceBalanced(Published(b, p).value, i) {
      PublishedInvoice(b, p, i);
      assert InvoiceBalanced(b, i);
    }
  }

  /** One over-settled invoice is enough to refuse the whole posting. */
  lemma {:induction false} OneOverSettledRefuses(b: Books, shares: seq<Share>, i: nat)
    requires forall s :: s in shares ==> s.invoice < |b.invoices|
    requires DistinctShares(shares) && Touched(shares, i) && i < |b.invoices|
    requires Restated(b.invoices[i], SettledOn(b, i)).None?
    ensures RecomputedEach(b, shares).None?
  {
    var front, last := shares[..|shares| - 1], shares[|shares| - 1];
    assert shares == front + [last];
    if Touched(front, i) {
      OneOverSettledRefuses(b, front, i);
    } else {
      if RecomputedEach(b, front).Some? { OthersAsTheyWere(b, front, i); }
    }
  }

  lemma {:induction false} OthersAsTheyWere(b: Books, shares: seq<Share>, i: nat)
    requires (forall s :: s in shares ==> s.invoice < |b.invoices|) && RecomputedEach(b, shares).Some?
    requires i < |b.invoices| && !Touched(shares, i)
    ensures var b' := RecomputedEach(b, shares).value;
            |b'.invoices| == |b.invoices| && b'.invoices[i] == b.invoices[i] && SettledOn(b', i) == SettledOn(b, i)
  {
    if shares != [] {
      var front, last := shares[..|shares| - 1], shares[|shares| - 1];
      assert shares == front + [last];
      assert last in shares;
      OthersAsTheyWere(b, front, i);
    }
  }

  /** The over-settled guard fires exactly when some share does not fit what its invoice has left. */
  lemma GuardFiresExactly(b: Books, p: Pending)
    requires TablesSound(b) && PlanHeld(b, p)
    ensures Published(b, p).Some? <==> Fits(b, p)
    ensures Balanced(b) && Published(b, p).Some? ==> Balanced(Published(b, p).value)
  {
    if Fits(b, p) {
      PublishedSound(b, p);
      if Balanced(b) { PublishingIsSafe(b, p); }
    } else {
      var s :| s in p.plan.shares && s.amount > Owed(b, s.invoice);
      var posted := Posted(Inserted(b, p.payment), |b.payments|, p.plan);
      PostedSums(b.allocs, |b.payments|, p.plan.shares, s.invoice, 0);
      ShareOnDistinct(p.plan.shares, s.invoice);
      OneOverSettledRefuses(posted, p.plan.shares, s.invoice);
    }
  }

  lemma {:induction false} TotalNonNegative(shares: seq<Share>)
    requires forall s :: s in shares ==> s.amount > 0
    ensures Total(shares) >= 0
  {
    if shares != [] {
      TotalNonNegative(shares[..|shares| - 1]);
      assert shares[|shares| - 1] in shares;
    }
  }

  /** Publishing one plan leaves every invoice it does not name exactly as it was. */
  lemma PublishingLeavesOthers(b: Books, p: Pending, i: nat)
    requires TablesSound(b) && PlanStands(b, p) && Published(b, p).Some? && i < |b.invoices|
    requires forall s :: s in p.plan.shares ==> s.invoice != i
    ensures var b' := Published(b, p).value;
            |b'.invoices| == |b.invoices| && b'.invoices[i] == b.invoices[i] && SettledOn(b', i) == SettledOn(b, i)
  {
    PublishedInvoice(b, p, i);
  }

  // ------------------------------------------------------------------------------- committing a note

  lemma NoteAdds(b: Books, n: Note, i: nat)
    ensures Credited(b.notes + [n], i) == Credited(b.notes, i) + if n.invoice == Some(i) then n.amount else 0
  {
    assert (b.notes + [n])[..|b.notes|] == b.notes;
  }

  lemma NoteKeepsTables(b: Books, b': Books, n: Note)
    requires TablesSound(b) && |b'.invoices| == |b.invoices| && b'.payments == b.payments && b'.allocs == b.allocs
    requires (forall i :: 0 <= i < |b.invoices| ==> b'.invoices[i].buyer == b.invoices[i].buyer)
    requires b'.notes == b.notes + [n] && NoteSound(b', n)
    ensures TablesSound(b')
  {
    forall p | 0 <= p < |b'.payments| ensures PaymentBalanced(b', p) {
      assert PaymentBalanced(b, p);
    }
    forall a | a in b'.allocs ensures RowSound(b', a) {
      assert RowSound(b, a);
    }
    forall m | m in b'.notes ensures NoteSound(b', m) {
      assert m in b.notes ==> NoteSound(b, m);
    }
  }

  /** What the row of a live invoice shows after a note: what the note read, less the note; in balance if nothing was
      settled since. */
  lemma WrittenShows(b: Books, r: Reading)
    requires TablesSound(b) && ReadingStands(b, r)
    ensures var b' := NotePublished(b, r);
            && |b'.invoices| == |b.invoices| && SettledOn(b', r.i) == SettledOn(b, r.i) + r.note.amount
            && b'.invoices[r.i].net == b.invoices[r.i].net && b'.invoices[r.i].buyer == b.invoices[r.i].buyer
            && (b'.invoices[r.i].status == InvoiceCancelled <==> b.invoices[r.i].status == InvoiceCancelled)
            && (b.invoices[r.i].status != InvoiceCancelled ==>
                  b'.invoices[r.i].outstanding == Owed(b', r.i) + (SettledOn(b, r.i) - r.seen))
  {
    NoteAdds(b, r.note, r.i);
    WrittenRow(b.invoices[r.i], r);
  }

  /** The row alone: the recomputed balance is below the loaded one, so it is always written. */
  lemma WrittenRow(current: Invoice, r: Reading)
    requires current.net == r.loaded.net && r.note.amount > 0 && r.seen + r.note.amount <= r.loaded.net
    requires current.status == InvoiceCancelled <==> r.loaded.status == InvoiceCancelled
    requires r.loaded.status != InvoiceCancelled ==> r.loaded.outstanding >= r.loaded.net - r.seen
    ensures var row := Written(current, r);
            && row.net == current.net && row.buyer == current.buyer
            && (row.status == InvoiceCancelled <==> current.status == InvoiceCancelled)
            && (current.status != InvoiceCancelled ==> row.outstanding == row.net - r.seen - r.note.amount)
  {
  }

  lemma WrittenBalanced(b: Books, r: Reading)
    requires TablesSound(b) && ReadingStands(b, r) && r.seen == SettledOn(b, r.i)
    ensures r.i < |NotePublished(b, r).invoices| && InvoiceBalanced(NotePublished(b, r), r.i)
  {
    NoteAdds(b, r.note, r.i);
    SettledIsNonNegative(b, r.i);
    RowIsBalanced(NotePublished(b, r), r);
  }

  lemma RowIsBalanced(b: Books, r: Reading)
    requires r.i < |b.invoices| && b.invoices[r.i] == Written(r.loaded, r)
    requires SettledOn(b, r.i) == r.seen + r.note.amount >= 0
    requires r.loaded.status == InvoiceCancelled || r.seen + r.note.amount <= r.loaded.net
    ensures InvoiceBalanced(b, r.i)
  {
    WrittenIsRestated(r.loaded, r);
    RestatedBalanced(b, r.loaded, r.i);
  }

  /** On the row it loaded a note writes its whole recomputation. */
  lemma WrittenIsRestated(current: Invoice, r: Reading)
    requires current == r.loaded && (current.status == InvoiceCancelled || r.seen + r.note.amount <= current.net)
    ensures Restated(current, r.seen + r.note.amount) == Some(Written(current, r))
  {
  }

  lemma NoteLeavesOthers(b: Books, r: Reading, i: nat)
    requires ReadingStands(b, r) && i < |b.invoices| && i != r.i
    ensures NotePublished(b, r).invoices[i] == b.invoices[i] && SettledOn(NotePublished(b, r), i) == SettledOn(b, i)
  {
    NoteAdds(b, r.note, i);
  }

  lemma NoteShown(b: Books, r: Reading)
    requires BooksShown(b) && ReadingStands(b, r)
    ensures BooksShown(NotePublished(b, r))
  {
    var b' := NotePublished(b, r);
    WrittenShows(b, r);
    NoteKeepsTables(b, b', r.note);
    forall i | 0 <= i < |b'.invoices| ensures Shown(b', i) {
      if i == r.i { NoteShownAt(b, r); } else { NoteShownElsewhere(b, r, i); }
    }
  }

  lemma NoteShownElsewhere(b: Books, r: Reading, i: nat)
    requires BooksShown(b) && ReadingStands(b, r) && i < |b.invoices| && i != r.i
    ensures i < |NotePublished(b, r).invoices| && Shown(NotePublished(b, r), i)
  {
    assert Shown(b, i);
    NoteLeavesOthers(b, r, i);
  }

  lemma NoteShownAt(b: Books, r: Reading)
    requires BooksShown(b) && ReadingStands(b, r)
    ensures r.i < |NotePublished(b, r).invoices| && Shown(NotePublished(b, r), r.i)
  {
    WrittenShows(b, r);
    if b.invoices[r.i].status == InvoiceCancelled {
      assert Shown(b, r.i);
      CancelledStaysNil(b.invoices[r.i], r);
    } else if r.seen == SettledOn(b, r.i) {
      WrittenBalanced(b, r);
    }
  }

  lemma CancelledStaysNil(current: Invoice, r: Reading)
    requires current.outstanding == 0 && r.loaded.status == InvoiceCancelled && r.loaded.outstanding == 0
    ensures Written(current, r).outstanding == 0
  {
  }

  // ------------------------------------------------------------------------------- every step

  /** Plans and readings stand while their own rows stay as they were. */
  lemma PlanStays(b: Books, b': Books, p: Pending)
    requires PlanStands(b, p) && |b'.invoices| >= |b.invoices|
    requires forall i :: i in p.rows ==> b'.invoices[i] == b.invoices[i] && SettledOn(b', i) == SettledOn(b, i)
    ensures PlanStands(b', p)
  {
  }

  lemma ReadingStays(b: Books, b': Books, r: Reading)
    requires ReadingStands(b, r) && |b'.invoices| >= |b.invoices|
    requires b'.invoices[r.i] == b.invoices[r.i] && SettledOn(b', r.i) == SettledOn(b, r.i)
    ensures ReadingStands(b', r)
  {
  }

  lemma CommitKeeps(w: World, tx: nat)
    requires Inv(w) && tx in w.open
    ensures Inv(Next(w, Commit(tx))) && Published(w.books, w.open[tx]).Some?
  {
    var p := w.open[tx];
    PublishedSound(w.books, p);
    var b' := Published(w.books, p).value;
    forall i | 0 <= i < |b'.invoices| ensures Shown(b', i) {
      PublishedInvoice(w.books, p, i);
      assert Shown(w.books, i);
    }
    forall t | t in w.open && t != tx ensures PlanStands(b', w.open[t]) {
      forall i | i in w.open[t].rows
          ensures b'.invoices[i] == w.books.invoices[i] && SettledOn(b', i) == SettledOn(w.books, i) {
        PublishedInvoice(w.books, p, i);
      }
      PlanStays(w.books, b', w.open[t]);
    }
    forall t | t in w.readings ensures ReadingStands(b', w.readings[t]) {
      PublishedInvoice(w.books, p, w.readings[t].i);
      ReadingStays(w.books, b', w.readings[t]);
    }
  }

  lemma CommitNoteKeeps(w: World, tx: nat)
    requires Inv(w) && tx in w.readings
    ensures Inv(Next(w, CommitNote(tx)))
  {
    NoteShown(w.books, w.readings[tx]);
    StandsUnderNote(w, w.readings[tx]);
  }

  lemma StandsUnderNote(w: World, r: Reading)
    requires Inv(w) && ReadingStands(w.books, r) && forall t :: t in w.open ==> r.i !in w.open[t].rows
    ensures forall t :: t in w.open ==> PlanStands(NotePublished(w.books, r), w.open[t])
    ensures forall t :: t in w.readings ==> ReadingStands(NotePublished(w.books, r), w.readings[t])
  {
    forall t | t in w.open ensures PlanStands(NotePublished(w.books, r), w.open[t]) {
      PlanUnderNote(w.books, r, w.open[t]);
    }
    forall t | t in w.readings ensures ReadingStands(NotePublished(w.books, r), w.readings[t]) {
      ReadingUnderNote(w.books, r, w.readings[t]);
    }
  }

  lemma PlanUnderNote(b: Books, r: Reading, p: Pending)
    requires ReadingStands(b, r) && PlanStands(b, p) && r.i !in p.rows
    ensures PlanStands(NotePublished(b, r), p)
  {
    var b' := NotePublished(b, r);
    forall i | i in p.rows ensures b'.invoices[i] == b.invoices[i] && SettledOn(b', i) == SettledOn(b, i) {
      NoteLeavesOthers(b, r, i);
    }
    PlanStays(b, b', p);
  }

  lemma ReadingUnderNote(b: Books, r: Reading, other: Reading)
    requires TablesSound(b) && ReadingStands(b, r) && ReadingStands(b, other)
    ensures ReadingStands(NotePublished(b, r), other)
  {
    WrittenShows(b, r);
    if other.i != r.i {
      NoteLeavesOthers(b, r, other.i);
      ReadingStays(b, NotePublished(b, r), other);
    }
  }

  lemma OnAccountKeeps(w: World, n: Note)
    requires Inv(w) && Enabled(w, OnAccount(n))
    ensures Inv(Next(w, OnAccount(n)))
  {
    OnAccountShown(w.books, n);
    SettledStays(w, w.books.(notes := w.books.notes + [n]));
  }

  lemma OnAccountShown(b: Books, n: Note)
    requires BooksShown(b) && n.amount > 0 && n.invoice.None?
    ensures var b' := b.(notes := b.notes + [n]);
            BooksShown(b') && forall i: nat :: SettledOn(b', i) == SettledOn(b, i)
  {
    var b' := b.(notes := b.notes + [n]);
    forall i: nat ensures SettledOn(b', i) == SettledOn(b, i) {
      NoteAdds(b, n, i);
    }
    NoteKeepsTables(b, b', n);
    forall i | 0 <= i < |b'.invoices| ensures Shown(b', i) {
      assert Shown(b, i);
    }
  }

  /** What is open stands on books with the same invoices and the same sums. */
  lemma SettledStays(w: World, b': Books)
    requires Inv(w) && b'.invoices == w.books.invoices
    requires forall i: nat :: SettledOn(b', i) == SettledOn(w.books, i)
    ensures forall t :: t in w.open ==> PlanStands(b', w.open[t])
    ensures forall t :: t in w.readings ==> ReadingStands(b', w.readings[t])
  {
    forall t | t in w.open ensures PlanStands(b', w.open[t]) {
      PlanStays(w.books, b', w.open[t]);
    }
    forall t | t in w.readings ensures ReadingStands(b', w.readings[t]) {
      ReadingStays(w.books, b', w.readings[t]);
    }
  }

  /** A new invoice has nothing on it yet, and puts nothing out of balance. */
  lemma NewInvoiceIsSound(b: Books, inv: Invoice)
    requires TablesSound(b) && inv.net >= 0 && inv.outstanding == inv.net && inv.status == Open
    ensures var b' := b.(invoices := b.invoices + [inv]);
            TablesSound(b') && SettledOn(b, |b.invoices|) == 0 && InvoiceBalanced(b', |b.invoices|)
  {
    var b' := b.(invoices := b.invoices + [inv]);
    forall a | a in b.allocs ensures a.invoice < |b.invoices| && RowSound(b', a) {
      assert RowSound(b, a);
    }
    forall n | n in b.notes ensures n.invoice != Some(|b.invoices|) && NoteSound(b', n) {
      assert NoteSound(b, n);
    }
    NothingOn(b.allocs, b.notes, |b.invoices|);
    forall p | 0 <= p < |b'.payments| ensures PaymentBalanced(b', p) {
      assert PaymentBalanced(b, p);
    }
  }

  lemma NewInvoiceKeeps(w: World, inv: Invoice)
    requires Inv(w) && Enabled(w, NewInvoice(inv))
    ensures Inv(Next(w, NewInvoice(inv)))
  {
    var b, b' := w.books, Next(w, NewInvoice(inv)).books;
    NewInvoiceIsSound(b, inv);
    forall i | 0 <= i < |b'.invoices| ensures Shown(b', i) {
      assert i < |b.invoices| ==> Shown(b, i);
    }
    forall t | t in w.open ensures PlanStands(b', w.open[t]) {
      PlanStays(b, b', w.open[t]);
    }
    forall t | t in w.readings ensures ReadingStands(b', w.readings[t]) {
      ReadingStays(b, b', w.readings[t]);
    }
  }

  lemma BeginKeeps(w: World, step: Step)
    requires Inv(w) && step.Begin? && Enabled(w, step)
    ensures Inv(Next(w, step))
  {
    var r := Planned(step.payment.amount, Refs(w.books, step.rows), step.instructions);
    if r.Ok? {
      SoundIsPostable(w.books, step.payment.buyer, step.rows, step.payment.amount, step.instructions);
      assert PlanStands(w.books, Pending(step.payment, step.rows, r.value));
    }
  }

  lemma ReadNoteKeeps(w: World, step: Step)
    requires Inv(w) && step.ReadNote? && Enabled(w, step)
    ensures Inv(Next(w, step))
  {
    assert Shown(w.books, step.note.invoice.value);
    SettledIsNonNegative(w.books, step.note.invoice.value);
  }

  /** Every step keeps the tables sound, every row at or above what its invoice has left, every planned payment
      fitting, and every reading true of what it read. */
  lemma StepKeeps(w: World, step: Step)
    requires Inv(w) && Enabled(w, step)
    ensures Inv(Next(w, step))
  {
    match step
    case NewInvoice(inv) => NewInvoiceKeeps(w, inv);
    case Begin(_, _, _, _) => BeginKeeps(w, step);
    case Commit(tx) => CommitKeeps(w, tx);
    case Rollback(_) =>
    case OnAccount(n) => OnAccountKeeps(w, n);
    case ReadNote(_, _) => ReadNoteKeeps(w, step);
    case CommitNote(tx) => CommitNoteKeeps(w, tx);
    case DropNote(_) =>
  }

  /** A run: the worlds passed through, each enabled step leading to the next. */
  ghost predicate IsRun(ws: seq<World>, steps: seq<Step>) {
    && |ws| == |steps| + 1
    && ws[0] == World(Books([], [], [], []), map[], map[])
    && forall k {:trigger steps[k]} :: 0 <= k < |steps| ==>
        Enabled(ws[k], steps[k]) && ws[k + 1] == Next(ws[k], steps[k])
  }

  lemma {:induction false} EveryRunKeeps(ws: seq<World>, steps: seq<Step>, k: nat)
    requires IsRun(ws, steps) && k < |ws|
    ensures Inv(ws[k])
  {
    if k > 0 {
      EveryRunKeeps(ws, steps, k - 1);
      assert Enabled(ws[k - 1], steps[k - 1]);
      StepKeeps(ws[k - 1], steps[k - 1]);
    }
  }

  /** Over every run of invoices, payments and credit notes, whatever overlaps: at every moment each payment is its
      allocations plus what is on account, no invoice shows less than it has left, an invoice is in balance exactly
      when it shows no more, and no payment can trip the over-settled guard at its commit. */
  lemma EveryRunBalances(ws: seq<World>, steps: seq<Step>, k: nat)
    requires IsRun(ws, steps) && k < |ws|
    ensures TablesSound(ws[k].books)
    ensures forall i :: 0 <= i < |ws[k].books.invoices| && ws[k].books.invoices[i].status != InvoiceCancelled ==>
              && ws[k].books.invoices[i].outstanding >= Owed(ws[k].books, i)
              && (InvoiceBalanced(ws[k].books, i) <==> ws[k].books.invoices[i].outstanding == Owed(ws[k].books, i))
    ensures forall t :: t in ws[k].open ==> Published(ws[k].books, ws[k].open[t]).Some?
  {
    EveryRunKeeps(ws, steps, k);
    forall i | 0 <= i < |ws[k].books.invoices| && ws[k].books.invoices[i].status != InvoiceCancelled
      ensures ws[k].books.invoices[i].outstanding >= Owed(ws[k].books, i)
      ensures InvoiceBalanced(ws[k].books, i) <==> ws[k].books.invoices[i].outstanding == Owed(ws[k].books, i)
    {
      assert Shown(ws[k].books, i);
    }
    forall t | t in ws[k].open ensures Published(ws[k].books, ws[k].open[t]).Some? {
      PublishedSound(ws[k].books, ws[k].open[t]);
    }
  }

  // ------------------------------------------------------------------- notes that overlook each other

  /** What one step adds to the notes on an invoice. */
  function Noted(w: World, step: Step, i: nat): int {
    if step.CommitNote? && step.tx in w.readings && w.readings[step.tx].i == i then
      w.readings[step.tx].note.amount
    else 0
  }

  /** The credit notes committed on an invoice between two moments. */
  function NotedSince(ws: seq<World>, steps: seq<Step>, begun: nat, now: nat, i: nat): int
    requires begun <= now <= |steps| <= |ws|
  {
    if begun == now then 0 else NotedSince(ws, steps, begun, now - 1, i) + Noted(ws[now - 1], steps[now - 1], i)
  }

  /** Until it ends, a note keeps its reading, and only other notes add to what is settled on its invoice. */
  lemma ReadingStep(w: World, step: Step, tx: nat)
    requires Inv(w) && Enabled(w, step) && tx in w.readings && step != CommitNote(tx) && step != DropNote(tx)
    ensures var w', i := Next(w, step), w.readings[tx].i;
            && tx in w'.readings && w'.readings[tx] == w.readings[tx]
            && SettledOn(w'.books, i) == SettledOn(w.books, i) + Noted(w, step, i)
  {
    SettledStep(w, step, w.readings[tx].i);
  }

  lemma SettledStep(w: World, step: Step, i: nat)
    requires Inv(w) && Enabled(w, step) && i < |w.books.invoices|
    requires forall t :: t in w.open ==> i !in w.open[t].rows
    ensures SettledOn(Next(w, step).books, i) == SettledOn(w.books, i) + Noted(w, step, i)
  {
    match step
    case Commit(t) => PublishedInvoice(w.books, w.open[t], i);
    case OnAccount(n) => NoteAdds(w.books, n, i);
    case CommitNote(t) => NoteAdds(w.books, w.readings[t].note, i);
    case _ =>
  }

  /** The note `tx`, read by step `read`, has not ended before moment `now`. */
  ghost predicate StillReading(ws: seq<World>, steps: seq<Step>, tx: nat, read: nat, now: nat)
    requires IsRun(ws, steps)
  {
    && read < now <= |steps| && steps[read].ReadNote? && steps[read].tx == tx && tx in ws[read + 1].readings
    && forall k :: read < k < now ==> steps[k] != CommitNote(tx) && steps[k] != DropNote(tx)
  }

  /** One step of a run, on a note that it does not end. */
  lemma ReadingOnce(ws: seq<World>, steps: seq<Step>, tx: nat, k: nat)
    requires IsRun(ws, steps) && k < |steps| && tx in ws[k].readings && steps[k] != CommitNote(tx)
    requires steps[k] != DropNote(tx)
    ensures tx in ws[k + 1].readings && ws[k + 1].readings[tx] == ws[k].readings[tx]
    ensures SettledOn(ws[k + 1].books, ws[k].readings[tx].i) ==
            SettledOn(ws[k].books, ws[k].readings[tx].i) + Noted(ws[k], steps[k], ws[k].readings[tx].i)
  {
    EveryRunKeeps(ws, steps, k);
    ReadingStep(ws[k], steps[k], tx);
  }

  lemma ReadingStarts(ws: seq<World>, steps: seq<Step>, tx: nat, read: nat)
    requires IsRun(ws, steps) && read < |steps| && steps[read].ReadNote? && steps[read].tx == tx
    requires tx in ws[read + 1].readings
    ensures var r := ws[read + 1].readings[tx];
            && r.note == steps[read].note && ws[read + 1].books == ws[read].books
            && r.i < |ws[read].books.invoices| && r.seen == SettledOn(ws[read].books, r.i)
            && r.loaded == ws[read].books.invoices[r.i]
  {
    assert Enabled(ws[read], steps[read]) && ws[read + 1] == Next(ws[read], steps[read]);
  }

  lemma ReadingRun(ws: seq<World>, steps: seq<Step>, tx: nat, read: nat, now: nat, i: nat)
    requires IsRun(ws, steps) && StillReading(ws, steps, tx, read, now) && ws[read + 1].readings[tx].i == i
    ensures SettledOn(ws[now].books, i) == ws[read + 1].readings[tx].seen + NotedSince(ws, steps, read + 1, now, i)
  {
    ReadingStarts(ws, steps, tx, read);
    forall k | read < k < now ensures AddsNoted(ws, steps, k, i) {
      ReadingIsKept(ws, steps, tx, read, k);
      ReadingOnce(ws, steps, tx, k);
    }
    NotedSum(ws, steps, read + 1, now, i);
  }

  /** Over one step, what is settled on the invoice grows by the note committed on it, if any. */
  ghost predicate AddsNoted(ws: seq<World>, steps: seq<Step>, k: nat, i: nat)
    requires k < |steps| < |ws|
  {
    SettledOn(ws[k + 1].books, i) == SettledOn(ws[k].books, i) + Noted(ws[k], steps[k], i)
  }

  lemma {:induction false} NotedSum(ws: seq<World>, steps: seq<Step>, begun: nat, now: nat, i: nat)
    requires begun <= now <= |steps| < |ws| && forall k :: begun <= k < now ==> AddsNoted(ws, steps, k, i)
    ensures SettledOn(ws[now].books, i) == SettledOn(ws[begun].books, i) + NotedSince(ws, steps, begun, now, i)
    decreases now
  {
    if begun < now {
      NotedSum(ws, steps, begun, now - 1, i);
      assert AddsNoted(ws, steps, now - 1, i);
    }
  }

  lemma {:induction false} ReadingIsKept(ws: seq<World>, steps: seq<Step>, tx: nat, read: nat, now: nat)
    requires IsRun(ws, steps) && StillReading(ws, steps, tx, read, now)
    ensures tx in ws[now].readings && ws[now].readings[tx] == ws[read + 1].readings[tx]
    decreases now
  {
    if now > read + 1 {
      StillReadingBefore(ws, steps, tx, read, now);
      ReadingIsKept(ws, steps, tx, read, now - 1);
      ReadingOnce(ws, steps, tx, now - 1);
    }
  }

  lemma StillReadingBefore(ws: seq<World>, steps: seq<Step>, tx: nat, read: nat, now: nat)
    requires IsRun(ws, steps) && StillReading(ws, steps, tx, read, now) && read + 1 < now
    ensures StillReading(ws, steps, tx, read, now - 1) && steps[now - 1] != CommitNote(tx)
    ensures steps[now - 1] != DropNote(tx)
  {
  }

  /**
   * What a note overlooks. However notes and payments overlap, when a note is committed its live invoice shows more
   * than it has left by exactly the notes committed on it since this one read, so it is in balance exactly when there
   * were none; and the invoice is over-credited, which the note's own check was to refuse, exactly when the note and
   * those since it read come to more than was left then.
   */
  lemma NoteOverlooksExactly(ws: seq<World>, steps: seq<Step>, tx: nat, read: nat, now: nat)
    requires IsRun(ws, steps) && StillReading(ws, steps, tx, read, now) && now < |steps| && steps[now] == CommitNote(tx)
    ensures
      var r, since := ws[read + 1].readings[tx], NotedSince(ws, steps, read + 1, now, ws[read + 1].readings[tx].i);
      && r.i < |ws[read].books.invoices| && r.i < |ws[now + 1].books.invoices|
      && var b := ws[now + 1].books;
         && (Owed(b, r.i) < 0 <==> r.note.amount + since > Owed(ws[read].books, r.i))
         && (b.invoices[r.i].status != InvoiceCancelled ==>
               && b.invoices[r.i].outstanding == Owed(b, r.i) + since
               && (InvoiceBalanced(b, r.i) <==> since == 0))
  {
    var i := ws[read + 1].readings[tx].i;
    ReadingStarts(ws, steps, tx, read);
    ReadingRun(ws, steps, tx, read, now, i);
    ReadingIsKept(ws, steps, tx, read, now);
    EveryRunKeeps(ws, steps, now);
    CommittedNote(ws[now], tx);
    assert ws[now + 1] == Next(ws[now], steps[now]);
  }

  /** The commit itself, against what the note saw. */
  lemma CommittedNote(w: World, tx: nat)
    requires Inv(w) && tx in w.readings
    ensures
      var r, b := w.readings[tx], Next(w, CommitNote(tx)).books;
      && r.i < |b.invoices| && Owed(b, r.i) == r.loaded.net - SettledOn(w.books, r.i) - r.note.amount
      && (b.invoices[r.i].status != InvoiceCancelled ==>
            && b.invoices[r.i].outstanding == Owed(b, r.i) + (SettledOn(w.books, r.i) - r.seen)
            && (InvoiceBalanced(b, r.i) <==> SettledOn(w.books, r.i) == r.seen))
  {
    WrittenShows(w.books, w.readings[tx]);
    if SettledOn(w.books, w.readings[tx].i) == w.readings[tx].seen { WrittenBalanced(w.books, w.readings[tx]); }
  }

  /** Notes that never overlap on an invoice. */
  ghost predicate Serial(ws: seq<World>, steps: seq<Step>)
    requires |steps| <= |ws|
  {
    forall k, t :: 0 <= k < |steps| && steps[k].ReadNote? && t in ws[k].readings ==>
                     steps[k].note.invoice != Some(ws[k].readings[t].i)
  }

  /** Every invoice is in balance, and no two notes are on one. */
  ghost predicate InStep(w: World) {
    && Balanced(w.books)
    && (forall t, u :: t in w.readings && u in w.readings && t != u ==> w.readings[t].i != w.readings[u].i)
    && (forall t :: t in w.readings ==> SettledOn(w.books, w.readings[t].i) == w.readings[t].seen)
  }

  lemma SerialStep(w: World, step: Step)
    requires Inv(w) && Enabled(w, step) && InStep(w)
    requires step.ReadNote? ==> forall t :: t in w.readings ==> step.note.invoice != Some(w.readings[t].i)
    ensures InStep(Next(w, step))
  {
    StepKeeps(w, step);
    SerialReadings(w, step);
    var w' := Next(w, step);
    forall i | 0 <= i < |w'.books.invoices| ensures InvoiceBalanced(w'.books, i) {
      SerialInvoice(w, step, i);
    }
  }

  lemma SerialReadings(w: World, step: Step)
    requires Inv(w) && Enabled(w, step) && InStep(w)
    requires step.ReadNote? ==> forall t :: t in w.readings ==> step.note.invoice != Some(w.readings[t].i)
    ensures var w' := Next(w, step);
            && (forall t :: t in w'.readings ==> SettledOn(w'.books, w'.readings[t].i) == w'.readings[t].seen)
            && (forall t, u :: t in w'.readings && u in w'.readings && t != u ==> w'.readings[t].i != w'.readings[u].i)
  {
    var w' := Next(w, step);
    forall t | t in w'.readings ensures SettledOn(w'.books, w'.readings[t].i) == w'.readings[t].seen {
      SerialReading(w, step, t);
    }
  }

  lemma SerialReading(w: World, step: Step, t: nat)
    requires Inv(w) && Enabled(w, step) && InStep(w) && t in Next(w, step).readings
    ensures SettledOn(Next(w, step).books, Next(w, step).readings[t].i) == Next(w, step).readings[t].seen
  {
    if t in w.readings && step != CommitNote(t) && step != DropNote(t) {
      ReadingStep(w, step, t);
    }
  }

  lemma SerialInvoice(w: World, step: Step, i: nat)
    requires Inv(w) && Enabled(w, step) && InStep(w) && i < |Next(w, step).books.invoices|
    ensures InvoiceBalanced(Next(w, step).books, i)
  {
    assert i < |w.books.invoices| ==> InvoiceBalanced(w.books, i);
    match step
    case NewInvoice(inv) => SerialNew(w.books, inv, i);
    case Commit(t) => SerialPayment(w.books, w.open[t], i);
    case OnAccount(n) => NoteAdds(w.books, n, i);
    case CommitNote(t) => SerialNote(w.books, w.readings[t], i);
    case _ =>
  }

  lemma SerialNew(b: Books, inv: Invoice, i: nat)
    requires TablesSound(b) && inv.net >= 0 && inv.outstanding == inv.net && inv.status == Open
    requires i <= |b.invoices| && (i < |b.invoices| ==> InvoiceBalanced(b, i))
    ensures InvoiceBalanced(b.(invoices := b.invoices + [inv]), i)
  {
    if i == |b.invoices| { NewInvoiceIsSound(b, inv); }
  }

  lemma SerialPayment(b: Books, p: Pending, i: nat)
    requires TablesSound(b) && PlanStands(b, p) && i < |b.invoices| && InvoiceBalanced(b, i)
    ensures Published(b, p).Some? && i < |Published(b, p).value.invoices|
    ensures InvoiceBalanced(Published(b, p).value, i)
  {
    PublishedInvoice(b, p, i);
  }

  lemma SerialNote(b: Books, r: Reading, i: nat)
    requires TablesSound(b) && ReadingStands(b, r) && r.seen == SettledOn(b, r.i)
    requires i < |b.invoices| && InvoiceBalanced(b, i)
    ensures i < |NotePublished(b, r).invoices| && InvoiceBalanced(NotePublished(b, r), i)
  {
    if i == r.i { WrittenBalanced(b, r); } else { NoteLeavesOthers(b, r, i); }
  }

  /** As long as no two notes overlap on one invoice, the books are in balance at every moment of every run. */
  lemma {:induction false} SerialNotesBalance(ws: seq<World>, steps: seq<Step>, k: nat)
    requires IsRun(ws, steps) && Serial(ws, steps) && k < |ws|
    ensures InStep(ws[k])
  {
    if k > 0 {
      SerialNotesBalance(ws, steps, k - 1);
      EveryRunKeeps(ws, steps, k - 1);
      assert Enabled(ws[k - 1], steps[k - 1]);
      SerialStep(ws[k - 1], steps[k - 1]);
    }
  }

  // ------------------------------------------------------------------------------- two at a time

  /** Two notes on one invoice, each read before the other commits. */
  ghost predicate Overlapping(w: World, s: nat, m: Note, t: nat, n: Note, i: nat) {
    && s != t && s !in w.readings && t !in w.readings && i < |w.books.invoices|
    && m.amount > 0 && n.amount > 0 && m.invoice == Some(i) && n.invoice == Some(i)
    && w.books.invoices[i].buyer == m.buyer == n.buyer && w.books.invoices[i].status != InvoiceCancelled
    && (forall p :: p in w.open ==> i !in w.open[p].rows)
    && m.amount <= Owed(w.books, i) && n.amount <= Owed(w.books, i)
  }

  function OverlappingSteps(s: nat, m: Note, t: nat, n: Note): seq<Step> {
    [ReadNote(s, m), ReadNote(t, n), CommitNote(s), CommitNote(t)]
  }

  /**
   * Two notes that each fit the balance and overlap are both accepted, and the books are never in balance afterwards:
   * the invoice shows the first note's amount too much. It is over-credited exactly when the two together do not fit,
   * and exactly then no later recomputation goes through; when they fit, the next one puts it right.
   */
  lemma OverlappingNotesExactly(w: World, s: nat, m: Note, t: nat, n: Note, i: nat) returns (end: World)
    requires Inv(w) && Overlapping(w, s, m, t, n, i)
    ensures Enabled(w, ReadNote(s, m)) && Enabled(Next(w, ReadNote(s, m)), ReadNote(t, n))
    ensures
      var w2 := Next(Next(w, ReadNote(s, m)), ReadNote(t, n));
      && Enabled(w2, CommitNote(s)) && Enabled(Next(w2, CommitNote(s)), CommitNote(t))
      && end == Next(Next(w2, CommitNote(s)), CommitNote(t))
    ensures i < |end.books.invoices| && end.books.notes == w.books.notes + [m] + [n]
    ensures end.books.invoices[i].outstanding == Owed(end.books, i) + m.amount && !InvoiceBalanced(end.books, i)
    ensures Owed(end.books, i) < 0 <==> m.amount + n.amount > Owed(w.books, i)
    ensures Recomputed(end.books, i).Some? <==> m.amount + n.amount <= Owed(w.books, i)
    ensures Recomputed(end.books, i).Some? ==> InvoiceBalanced(Recomputed(end.books, i).value, i)
  {
    var w2 := BothRead(w, s, m, t, n, i);
    var w3 := Next(w2, CommitNote(s));
    FirstCommits(w2, s, t);
    end := Next(w3, CommitNote(t));
    StepKeeps(w3, CommitNote(t));
    WrittenShows(w3.books, w3.readings[t]);
    CommittedNote(w3, t);
    RecomputedExactly(end.books, i);
  }

  lemma BothRead(w: World, s: nat, m: Note, t: nat, n: Note, i: nat) returns (w2: World)
    requires Inv(w) && Overlapping(w, s, m, t, n, i)
    ensures Enabled(w, ReadNote(s, m)) && Enabled(Next(w, ReadNote(s, m)), ReadNote(t, n))
    ensures w2 == Next(Next(w, ReadNote(s, m)), ReadNote(t, n)) && Inv(w2) && w2.books == w.books
    ensures s in w2.readings && w2.readings[s] == Reading(m, i, SettledOn(w.books, i), w.books.invoices[i])
    ensures t in w2.readings && w2.readings[t] == Reading(n, i, SettledOn(w.books, i), w.books.invoices[i])
  {
    var w1 := Next(w, ReadNote(s, m));
    StepKeeps(w, ReadNote(s, m));
    StepKeeps(w1, ReadNote(t, n));
    w2 := Next(w1, ReadNote(t, n));
  }

  /** Of two notes on one invoice, the other still stands when one is committed, and has overlooked it. */
  lemma FirstCommits(w: World, s: nat, t: nat)
    requires Inv(w) && s in w.readings && t in w.readings && s != t && w.readings[s].i == w.readings[t].i
    ensures var w' := Next(w, CommitNote(s));
            && Inv(w') && t in w'.readings && w'.readings[t] == w.readings[t]
            && w'.books.notes == w.books.notes + [w.readings[s].note]
            && w.readings[t].i < |w'.books.invoices|
            && SettledOn(w'.books, w.readings[t].i) == SettledOn(w.books, w.readings[t].i) + w.readings[s].note.amount
            && (w'.books.invoices[w.readings[t].i].status == InvoiceCancelled <==>
                  w.books.invoices[w.readings[t].i].status == InvoiceCancelled)
  {
    StepKeeps(w, CommitNote(s));
    WrittenShows(w.books, w.readings[s]);
  }

  /** Recomputing an invoice goes through exactly when it is not over-settled, and puts it in balance. */
  lemma RecomputedExactly(b: Books, i: nat)
    requires TablesSound(b) && i < |b.invoices| && b.invoices[i].status != InvoiceCancelled
    ensures Recomputed(b, i).Some? <==> Owed(b, i) >= 0
    ensures Recomputed(b, i).Some? ==> InvoiceBalanced(Recomputed(b, i).value, i)
  {
    SettledIsNonNegative(b, i);
    if Recomputed(b, i).Some? { RestatedBalanced(Recomputed(b, i).value, b.invoices[i], i); }
  }

  /** Publishing a one-share plan, whether or not it was sound. */
  lemma SinglePublish(b: Books, p: Pending, s: Share)
    requires p.plan.shares == [s] && s.invoice < |b.invoices| && b.invoices[s.invoice].status != InvoiceCancelled
    ensures Published(b, p).Some? <==> SettledOn(b, s.invoice) + s.amount <= b.invoices[s.invoice].net
    ensures Published(b, p).Some? ==>
              var b' := Published(b, p).value;
              && |b'.invoices| == |b.invoices| && SettledOn(b', s.invoice) == SettledOn(b, s.invoice) + s.amount
              && b'.invoices[s.invoice].net == b.invoices[s.invoice].net
              && b'.invoices[s.invoice].status != InvoiceCancelled
  {
    var posted := Posted(Inserted(b, p.payment), |b.payments|, p.plan);
    PostedSums(b.allocs, |b.payments|, [s], s.invoice, 0);
    assert [s][..0] == [] && ShareOn([s], s.invoice) == s.amount;
    assert RecomputedEach(posted, []) == Some(posted);
    assert RecomputedEach(posted, [s]) == Recomputed(posted, s.invoice);
  }

  /** Why the payments' lock: two transactions that each planned a share on the same invoice. After the first
      commit the second can commit exactly when both shares together fit the balance. */
  lemma TogetherOnlyIfBothFit(b: Books, p: Pending, q: Pending, i: nat, x: int, y: int)
    requires Balanced(b) && PlanStands(b, p) && PlanStands(b, q) && i < |b.invoices|
    requires p.plan.shares == [Share(i, x, OldestFirst)] && q.plan.shares == [Share(i, y, OldestFirst)]
    ensures Published(b, p).Some?
    ensures Published(Published(b, p).value, q).Some? <==> x + y <= b.invoices[i].outstanding
  {
    assert InvoiceBalanced(b, i);
    PublishingIsSafe(b, p);
    assert p.plan.shares[0] in p.plan.shares;
    SinglePublish(b, p, Share(i, x, OldestFirst));
    SinglePublish(Published(b, p).value, q, Share(i, y, OldestFirst));
  }

  /** Why a note waits for it: were one accepted in between, a share planned before it could commit exactly when note
      and share together fit the balance. */
  lemma NoteLeavesRoomExactly(b: Books, p: Pending, n: Note, i: nat, x: int)
    requires Balanced(b) && PlanStands(b, p) && i < |b.invoices| && p.plan.shares == [Share(i, x, OldestFirst)]
    requires n.amount > 0 && n.invoice == Some(i) && b.invoices[i].buyer == n.buyer && CreditOutcome(b, n).Ok?
    ensures Published(CreditApplied(b, n), p).Some? <==> x + n.amount <= b.invoices[i].outstanding
  {
    var b' := CreditApplied(b, n);
    assert InvoiceBalanced(b, i);
    assert p.plan.shares[0] in p.plan.shares;
    NoteAdds(b, n, i);
    SinglePublish(b', p, Share(i, x, OldestFirst));
  }
}
