/** Buyer statements: the balance computed a second way (backend/app/trade/statements.py). */
module Statements {
  import opened Common
  import opened Sorting
  import opened Ledger

  datatype Line = Line(on: int, kind: string, reference: string, debit: int, credit: int)

  predicate LineLe(a: Line, b: Line) {
    || a.on < b.on
    || (a.on == b.on && a.kind != b.kind && LexLe(a.kind, b.kind))
    || (a.on == b.on && a.kind == b.kind && LexLe(a.reference, b.reference))
  }

  predicate InPeriod(on: int, start: Option<int>, end: int) {
    on <= end && (start.Some? ==> on >= start.value)
  }

  function InvoiceLines(rows: seq<Invoice>, buyer: nat, start: Option<int>, end: int): seq<Line> {
    if rows == [] then []
    else
      var r := rows[|rows| - 1];
      InvoiceLines(rows[..|rows| - 1], buyer, start, end) +
      (if r.buyer == buyer && InPeriod(r.issueDate, start, end) && r.status != InvoiceCancelled
       then [Line(r.issueDate, "invoice", r.number, r.net, 0)] else [])
  }

  function PaymentLines(rows: seq<Payment>, buyer: nat, start: Option<int>, end: int): seq<Line> {
    if rows == [] then []
    else
      var r := rows[|rows| - 1];
      PaymentLines(rows[..|rows| - 1], buyer, start, end) +
      (if r.buyer == buyer && InPeriod(r.receivedDate, start, end)
       then [Line(r.receivedDate, "payment", r.reference, 0, r.amount)] else [])
  }

  function NoteLines(rows: seq<Note>, buyer: nat, start: Option<int>, end: int): seq<Line> {
    if rows == [] then []
    else
      var r := rows[|rows| - 1];
      NoteLines(rows[..|rows| - 1], buyer, start, end) +
      (if r.buyer == buyer && InPeriod(r.issueDate, start, end)
       then [Line(r.issueDate, "credit_note", r.number, 0, r.amount)] else [])
  }

  function Unsorted(b: Books, buyer: nat, start: Option<int>, end: int): seq<Line> {
    InvoiceLines(b.invoices, buyer, start, end) + PaymentLines(b.payments, buyer, start, end) +
    NoteLines(b.notes, buyer, start, end)
  }

  /** Debits less credits. */
  function Net(lines: seq<Line>): int {
    if lines == [] then 0 else Net(lines[..|lines| - 1]) + lines[|lines| - 1].debit - lines[|lines| - 1].credit
  }

  /** `balance_as_of`. */
  function Balance(b: Books, buyer: nat, asOf: int): int {
    Net(Sort(Unsorted(b, buyer, None, asOf), LineLe))
  }

  datatype Statement = Statement(opening: int, closing: int, lines: seq<Line>)

  datatype StatementError = PeriodReversed | Imbalance

  method Movements(t: LedgerTables, buyer: nat, start: Option<int>, end: int) returns (lines: seq<Line>)
    ensures lines == Sort(Unsorted(t.ToBooks(), buyer, start, end), LineLe)
  {
    lines := [];
    for k := 0 to |t.invoices|
      invariant lines == InvoiceLines(t.invoices[..k], buyer, start, end)
    {
      var r := t.invoices[k];
      if r.buyer == buyer && InPeriod(r.issueDate, start, end) && r.status != InvoiceCancelled {
        lines := lines + [Line(r.issueDate, "invoice", r.number, r.net, 0)];
      }
      assert t.invoices[..k + 1][..k] == t.invoices[..k];
    }
    assert t.invoices[..|t.invoices|] == t.invoices;
    ghost var invoiceLines := lines;
    for k := 0 to |t.payments|
      invariant lines == invoiceLines + PaymentLines(t.payments[..k], buyer, start, end)
    {
      var r := t.payments[k];
      if r.buyer == buyer && InPeriod(r.receivedDate, start, end) {
        lines := lines + [Line(r.receivedDate, "payment", r.reference, 0, r.amount)];
      }
      assert t.payments[..k + 1][..k] == t.payments[..k];
    }
    assert t.payments[..|t.payments|] == t.payments;
    ghost var paymentLines := lines;
    for k := 0 to |t.notes|
      invariant lines == paymentLines + NoteLines(t.notes[..k], buyer, start, end)
    {
      var r := t.notes[k];
      if r.buyer == buyer && InPeriod(r.issueDate, start, end) {
        lines := lines + [Line(r.issueDate, "credit_note", r.number, 0, r.amount)];
      }
      assert t.notes[..k + 1][..k] == t.notes[..k];
    }
    assert t.notes[..|t.notes|] == t.notes;
    lines := Sort(lines, LineLe);
  }

  method BalanceAsOf(t: LedgerTables, buyer: nat, asOf: int) returns (balance: int)
    ensures balance == Balance(t.ToBooks(), buyer, asOf)
  {
    var lines := Movements(t, buyer, None, asOf);
    balance := Net(lines);
  }

  /** `generate`: refused only for a reversed period. The imbalance check is there, and never fires. */
  method Generate(t: LedgerTables, buyer: nat, start: int, end: int) returns (r: Result<Statement, StatementError>)
    ensures r.Err? <==> end < start
    ensures r.Err? ==> r.error == PeriodReversed
    ensures r.Ok? ==> r.value.opening == Balance(t.ToBooks(), buyer, start - 1)
    ensures r.Ok? ==> r.value.closing == Balance(t.ToBooks(), buyer, end)
    ensures r.Ok? ==> r.value.opening + Net(r.value.lines) == r.value.closing
    ensures r.Ok? ==> r.value.lines == Sort(Unsorted(t.ToBooks(), buyer, Some(start), end), LineLe)
  {
    if end < start {
      return Err(PeriodReversed);
    }
    var opening := BalanceAsOf(t, buyer, start - 1);
    var lines := Movements(t, buyer, Some(start), end);
    var closing := BalanceAsOf(t, buyer, end);
    StatementReconciles(t.ToBooks(), buyer, start, end);
    if opening + Net(lines) != closing {
      return Err(Imbalance);
    }
    return Ok(Statement(opening, closing, lines));
  }

  // --------------------------------------------------------------------- what it lists

  ghost predicate Dated(on: int, start: Option<int>, end: int) { (start.Some? ==> start.value <= on) && on <= end }

  /** Rows of the buyer dated in the period; voided invoices are not listed. */
  ghost predicate InvoiceAt(b: Books, buyer: nat, start: Option<int>, end: int, k: int) {
    && 0 <= k < |b.invoices| && b.invoices[k].buyer == buyer && b.invoices[k].status != InvoiceCancelled
    && Dated(b.invoices[k].issueDate, start, end)
  }

  ghost predicate PaymentAt(b: Books, buyer: nat, start: Option<int>, end: int, k: int) {
    0 <= k < |b.payments| && b.payments[k].buyer == buyer && Dated(b.payments[k].receivedDate, start, end)
  }

  ghost predicate NoteAt(b: Books, buyer: nat, start: Option<int>, end: int, k: int) {
    0 <= k < |b.notes| && b.notes[k].buyer == buyer && Dated(b.notes[k].issueDate, start, end)
  }

  /** An invoice is a debit; a payment and a note are credits. */
  function InvoiceLine(r: Invoice): Line { Line(r.issueDate, "invoice", r.number, r.net, 0) }
  function PaymentLine(r: Payment): Line { Line(r.receivedDate, "payment", r.reference, 0, r.amount) }
  function NoteLine(r: Note): Line { Line(r.issueDate, "credit_note", r.number, 0, r.amount) }

  ghost predicate InvoiceListed(b: Books, buyer: nat, start: Option<int>, end: int, n: int, l: Line) {
    exists k :: InvoiceAt(b, buyer, start, end, k) && k < n && l == InvoiceLine(b.invoices[k])
  }

  ghost predicate PaymentListed(b: Books, buyer: nat, start: Option<int>, end: int, n: int, l: Line) {
    exists k :: PaymentAt(b, buyer, start, end, k) && k < n && l == PaymentLine(b.payments[k])
  }

  ghost predicate NoteListed(b: Books, buyer: nat, start: Option<int>, end: int, n: int, l: Line) {
    exists k :: NoteAt(b, buyer, start, end, k) && k < n && l == NoteLine(b.notes[k])
  }

  ghost function InvoiceRows(b: Books, buyer: nat, start: Option<int>, end: int, n: nat): set<int> {
    set k | 0 <= k < n && InvoiceAt(b, buyer, start, end, k)
  }

  ghost function PaymentRows(b: Books, buyer: nat, start: Option<int>, end: int, n: nat): set<int> {
    set k | 0 <= k < n && PaymentAt(b, buyer, start, end, k)
  }

  ghost function NoteRows(b: Books, buyer: nat, start: Option<int>, end: int, n: nat): set<int> {
    set k | 0 <= k < n && NoteAt(b, buyer, start, end, k)
  }

  /** How many rows there are to list. */
  ghost function RowsAt(b: Books, buyer: nat, start: Option<int>, end: int): nat {
    |InvoiceRows(b, buyer, start, end, |b.invoices|)| + |PaymentRows(b, buyer, start, end, |b.payments|)| +
    |NoteRows(b, buyer, start, end, |b.notes|)|
  }

  /** Dated earlier; on a day, of a kind that comes first; and of a kind, with a reference that does. */
  ghost predicate LineAhead(a: Line, b: Line) {
    || a.on < b.on
    || (a.on == b.on && Before(a.kind, b.kind))
    || (a.on == b.on && a.kind == b.kind && Before(a.reference, b.reference))
  }

  lemma LineAheadMeans(a: Line, b: Line)
    ensures LineAhead(a, b) <==> !LineLe(b, a)
  {
    LexMeans(b.kind, a.kind);
    LexTotal(a.kind, b.kind);
    LexMeans(b.reference, a.reference);
  }

  lemma LineLeIsPreorder()
    ensures TotalPreorder(LineLe)
  {
    forall a, b ensures LineLe(a, b) || LineLe(b, a) {
      LexTotal(a.kind, b.kind);
      LexTotal(a.reference, b.reference);
    }
    forall a, b, c | LineLe(a, b) && LineLe(b, c) ensures LineLe(a, c) {
      if LexLe(a.kind, b.kind) && LexLe(b.kind, c.kind) {
        LexTransitive(a.kind, b.kind, c.kind);
        LexTotal(a.kind, b.kind);
        LexTotal(b.kind, c.kind);
      }
      if LexLe(a.reference, b.reference) && LexLe(b.reference, c.reference) {
        LexTransitive(a.reference, b.reference, c.reference);
      }
    }
  }

  lemma {:induction false} InvoicesListed(b: Books, buyer: nat, start: Option<int>, end: int, n: nat, l: Line)
    requires n <= |b.invoices|
    ensures l in InvoiceLines(b.invoices[..n], buyer, start, end) <==> InvoiceListed(b, buyer, start, end, n, l)
  {
    if n > 0 {
      InvoicesListed(b, buyer, start, end, n - 1, l);
      assert b.invoices[..n][..n - 1] == b.invoices[..n - 1];
      if InvoiceAt(b, buyer, start, end, n - 1) && l == InvoiceLine(b.invoices[n - 1]) {
        assert InvoiceListed(b, buyer, start, end, n, l);
      }
    }
  }

  lemma OneMoreRow(front: set<int>, every: set<int>, last: int)
    requires last !in front
    requires (forall k :: k in front ==> k in every) && forall k :: k in every ==> k in front + {last}
    ensures |every| == |front| + if last in every then 1 else 0
  {
    if last in every {
      assert forall k :: k in every <==> k in front + {last};
      assert every == front + {last};
    } else {
      assert forall k :: k in every <==> k in front;
      assert every == front;
    }
  }

  lemma {:induction false} InvoicesCounted(b: Books, buyer: nat, start: Option<int>, end: int, n: nat)
    requires n <= |b.invoices|
    ensures |InvoiceLines(b.invoices[..n], buyer, start, end)| == |InvoiceRows(b, buyer, start, end, n)|
  {
    if n > 0 {
      InvoicesCounted(b, buyer, start, end, n - 1);
      assert b.invoices[..n][..n - 1] == b.invoices[..n - 1];
      var before := InvoiceLines(b.invoices[..n - 1], buyer, start, end);
      assert |InvoiceLines(b.invoices[..n], buyer, start, end)| ==
             |before| + if InvoiceAt(b, buyer, start, end, n - 1) then 1 else 0;
      OneMoreRow(InvoiceRows(b, buyer, start, end, n - 1), InvoiceRows(b, buyer, start, end, n), n - 1);
    }
  }

  lemma {:induction false} PaymentsListed(b: Books, buyer: nat, start: Option<int>, end: int, n: nat, l: Line)
    requires n <= |b.payments|
    ensures l in PaymentLines(b.payments[..n], buyer, start, end) <==> PaymentListed(b, buyer, start, end, n, l)
  {
    if n > 0 {
      PaymentsListed(b, buyer, start, end, n - 1, l);
      assert b.payments[..n][..n - 1] == b.payments[..n - 1];
      if PaymentAt(b, buyer, start, end, n - 1) && l == PaymentLine(b.payments[n - 1]) {
        assert PaymentListed(b, buyer, start, end, n, l);
      }
    }
  }

  lemma {:induction false} PaymentsCounted(b: Books, buyer: nat, start: Option<int>, end: int, n: nat)
    requires n <= |b.payments|
    ensures |PaymentLines(b.payments[..n], buyer, start, end)| == |PaymentRows(b, buyer, start, end, n)|
  {
    if n > 0 {
      PaymentsCounted(b, buyer, start, end, n - 1);
      assert b.payments[..n][..n - 1] == b.payments[..n - 1];
      var before := PaymentLines(b.payments[..n - 1], buyer, start, end);
      assert |PaymentLines(b.payments[..n], buyer, start, end)| ==
             |before| + if PaymentAt(b, buyer, start, end, n - 1) then 1 else 0;
      OneMoreRow(PaymentRows(b, buyer, start, end, n - 1), PaymentRows(b, buyer, start, end, n), n - 1);
    }
  }

  lemma {:induction false} NotesListed(b: Books, buyer: nat, start: Option<int>, end: int, n: nat, l: Line)
    requires n <= |b.notes|
    ensures l in NoteLines(b.notes[..n], buyer, start, end) <==> NoteListed(b, buyer, start, end, n, l)
  {
    if n > 0 {
      NotesListed(b, buyer, start, end, n - 1, l);
      assert b.notes[..n][..n - 1] == b.notes[..n - 1];
      if NoteAt(b, buyer, start, end, n - 1) && l == NoteLine(b.notes[n - 1]) {
        assert NoteListed(b, buyer, start, end, n, l);
      }
    }
  }

  lemma {:induction false} NotesCounted(b: Books, buyer: nat, start: Option<int>, end: int, n: nat)
    requires n <= |b.notes|
    ensures |NoteLines(b.notes[..n], buyer, start, end)| == |NoteRows(b, buyer, start, end, n)|
  {
    if n > 0 {
      NotesCounted(b, buyer, start, end, n - 1);
      assert b.notes[..n][..n - 1] == b.notes[..n - 1];
      var before := NoteLines(b.notes[..n - 1], buyer, start, end);
      assert |NoteLines(b.notes[..n], buyer, start, end)| ==
             |before| + if NoteAt(b, buyer, start, end, n - 1) then 1 else 0;
      OneMoreRow(NoteRows(b, buyer, start, end, n - 1), NoteRows(b, buyer, start, end, n), n - 1);
    }
  }

  lemma UnsortedListed(b: Books, buyer: nat, start: Option<int>, end: int, l: Line)
    ensures l in Unsorted(b, buyer, start, end) <==>
            || InvoiceListed(b, buyer, start, end, |b.invoices|, l)
            || PaymentListed(b, buyer, start, end, |b.payments|, l)
            || NoteListed(b, buyer, start, end, |b.notes|, l)
  {
    assert b.invoices[..|b.invoices|] == b.invoices && b.payments[..|b.payments|] == b.payments;
    assert b.notes[..|b.notes|] == b.notes;
    InvoicesListed(b, buyer, start, end, |b.invoices|, l);
    PaymentsListed(b, buyer, start, end, |b.payments|, l);
    NotesListed(b, buyer, start, end, |b.notes|, l);
  }

  lemma UnsortedCounted(b: Books, buyer: nat, start: Option<int>, end: int)
    ensures |Unsorted(b, buyer, start, end)| == RowsAt(b, buyer, start, end)
  {
    assert b.invoices[..|b.invoices|] == b.invoices && b.payments[..|b.payments|] == b.payments;
    assert b.notes[..|b.notes|] == b.notes;
    InvoicesCounted(b, buyer, start, end, |b.invoices|);
    PaymentsCounted(b, buyer, start, end, |b.payments|);
    NotesCounted(b, buyer, start, end, |b.notes|);
  }

  lemma InOrder(unsorted: seq<Line>, i: nat, j: nat)
    requires i < j < |Sort(unsorted, LineLe)|
    ensures !LineAhead(Sort(unsorted, LineLe)[j], Sort(unsorted, LineLe)[i])
  {
    LineLeIsPreorder();
    SortSorts(unsorted, LineLe);
    LineAheadMeans(Sort(unsorted, LineLe)[j], Sort(unsorted, LineLe)[i]);
  }

  /** The movements of a period, by the columns of the tables: as many lines as rows, each line a row's and each row's
      line there, in the order of day, kind and reference. */
  lemma MovementsExactly(b: Books, buyer: nat, start: Option<int>, end: int)
    ensures var lines := Sort(Unsorted(b, buyer, start, end), LineLe);
            && |lines| == RowsAt(b, buyer, start, end)
            && (forall i, j :: 0 <= i < j < |lines| ==> !LineAhead(lines[j], lines[i]))
            && forall l :: l in lines <==> || InvoiceListed(b, buyer, start, end, |b.invoices|, l)
                                           || PaymentListed(b, buyer, start, end, |b.payments|, l)
                                           || NoteListed(b, buyer, start, end, |b.notes|, l)
  {
    var unsorted := Unsorted(b, buyer, start, end);
    SortPermutes(unsorted, LineLe);
    UnsortedCounted(b, buyer, start, end);
    forall l ensures l in unsorted <==> || InvoiceListed(b, buyer, start, end, |b.invoices|, l)
                                        || PaymentListed(b, buyer, start, end, |b.payments|, l)
                                        || NoteListed(b, buyer, start, end, |b.notes|, l)
    {
      UnsortedListed(b, buyer, start, end, l);
    }
    forall i, j | 0 <= i < j < |Sort(unsorted, LineLe)|
      ensures !LineAhead(Sort(unsorted, LineLe)[j], Sort(unsorted, LineLe)[i])
    {
      InOrder(unsorted, i, j);
    }
  }

  // ------------------------------------------------------------------ it always reconciles

  lemma {:induction false} NetConcat(a: seq<Line>, b: seq<Line>)
    ensures Net(a + b) == Net(a) + Net(b)
  {
    if b == [] {
      assert a + b == a;
    } else {
      NetConcat(a, b[..|b| - 1]);
      assert (a + b)[..|a + b| - 1] == a + b[..|b| - 1];
    }
  }

  lemma NetOne(l: Line)
    ensures Net([l]) == l.debit - l.credit
  {
    assert [l][..0] == [];
  }

  lemma {:induction false} NetInsert(l: Line, lines: seq<Line>)
    ensures Net(Insert(l, lines, LineLe)) == Net(lines) + l.debit - l.credit
  {
    NetOne(l);
    if lines != [] {
      if LineLe(l, lines[0]) {
        NetConcat([l], lines);
      } else {
        NetInsert(l, lines[1..]);
        NetConcat([lines[0]], lines[1..]);
        NetConcat([lines[0]], Insert(l, lines[1..], LineLe));
        assert lines == [lines[0]] + lines[1..];
      }
    }
  }

  lemma {:induction false} NetSort(lines: seq<Line>)
    ensures Net(Sort(lines, LineLe)) == Net(lines)
  {
    if lines != [] {
      NetSort(lines[1..]);
      NetInsert(lines[0], Sort(lines[1..], LineLe));
      NetConcat([lines[0]], lines[1..]);
      NetOne(lines[0]);
      assert lines == [lines[0]] + lines[1..];
    }
  }

  function Tally<T>(rows: seq<T>, f: T -> int): int {
    if rows == [] then 0 else Tally(rows[..|rows| - 1], f) + f(rows[|rows| - 1])
  }

  lemma {:induction false} TallyAdds<T>(rows: seq<T>, f: T -> int, g: T -> int, h: T -> int)
    requires forall r :: r in rows ==> f(r) == g(r) + h(r)
    ensures Tally(rows, f) == Tally(rows, g) + Tally(rows, h)
  {
    if rows != [] {
      TallyAdds(rows[..|rows| - 1], f, g, h);
      assert rows[|rows| - 1] in rows;
    }
  }

  lemma {:induction false} TallySame<T>(rows: seq<T>, f: T -> int, g: T -> int)
    requires forall r :: r in rows ==> f(r) == g(r)
    ensures Tally(rows, f) == Tally(rows, g)
  {
    if rows != [] {
      TallySame(rows[..|rows| - 1], f, g);
      assert rows[|rows| - 1] in rows;
    }
  }

  function BilledIn(buyer: nat, start: Option<int>, end: int): Invoice -> int {
    (r: Invoice) =>
      if r.buyer == buyer && InPeriod(r.issueDate, start, end) && r.status != InvoiceCancelled then r.net else 0
  }
  function PaidIn(buyer: nat, start: Option<int>, end: int): Payment -> int {
    (r: Payment) => if r.buyer == buyer && InPeriod(r.receivedDate, start, end) then -r.amount else 0
  }
  function NotedIn(buyer: nat, start: Option<int>, end: int): Note -> int {
    (r: Note) => if r.buyer == buyer && InPeriod(r.issueDate, start, end) then -r.amount else 0
  }

  lemma NetLast(front: seq<Line>, last: seq<Line>)
    requires |last| <= 1
    ensures Net(front + last) == Net(front) + if last == [] then 0 else last[0].debit - last[0].credit
  {
    if last == [] {
      assert front + last == front;
    } else {
      assert (front + last)[..|front|] == front;
    }
  }

  lemma {:induction false} InvoiceLinesNet(rows: seq<Invoice>, buyer: nat, start: Option<int>, end: int)
    ensures Net(InvoiceLines(rows, buyer, start, end)) == Tally(rows, BilledIn(buyer, start, end))
  {
    if rows != [] {
      var r, front := rows[|rows| - 1], rows[..|rows| - 1];
      InvoiceLinesNet(front, buyer, start, end);
      var listed := r.buyer == buyer && InPeriod(r.issueDate, start, end) && r.status != InvoiceCancelled;
      NetLast(InvoiceLines(front, buyer, start, end),
              if listed then [Line(r.issueDate, "invoice", r.number, r.net, 0)] else []);
    }
  }

  lemma {:induction false} PaymentLinesNet(rows: seq<Payment>, buyer: nat, start: Option<int>, end: int)
    ensures Net(PaymentLines(rows, buyer, start, end)) == Tally(rows, PaidIn(buyer, start, end))
  {
    if rows != [] {
      var r, front := rows[|rows| - 1], rows[..|rows| - 1];
      PaymentLinesNet(front, buyer, start, end);
      var listed := r.buyer == buyer && InPeriod(r.receivedDate, start, end);
      NetLast(PaymentLines(front, buyer, start, end),
              if listed then [Line(r.receivedDate, "payment", r.reference, 0, r.amount)] else []);
    }
  }

  lemma {:induction false} NoteLinesNet(rows: seq<Note>, buyer: nat, start: Option<int>, end: int)
    ensures Net(NoteLines(rows, buyer, start, end)) == Tally(rows, NotedIn(buyer, start, end))
  {
    if rows != [] {
      var r, front := rows[|rows| - 1], rows[..|rows| - 1];
      NoteLinesNet(front, buyer, start, end);
      var listed := r.buyer == buyer && InPeriod(r.issueDate, start, end);
      NetLast(NoteLines(front, buyer, start, end),
              if listed then [Line(r.issueDate, "credit_note", r.number, 0, r.amount)] else []);
    }
  }

  lemma BalanceIsTally(b: Books, buyer: nat, start: Option<int>, end: int)
    ensures Net(Sort(Unsorted(b, buyer, start, end), LineLe)) ==
            Tally(b.invoices, BilledIn(buyer, start, end)) + Tally(b.payments, PaidIn(buyer, start, end)) +
            Tally(b.notes, NotedIn(buyer, start, end))
  {
    NetSort(Unsorted(b, buyer, start, end));
    NetConcat(InvoiceLines(b.invoices, buyer, start, end), PaymentLines(b.payments, buyer, start, end));
    NetConcat(InvoiceLines(b.invoices, buyer, start, end) + PaymentLines(b.payments, buyer, start, end),
              NoteLines(b.notes, buyer, start, end));
    InvoiceLinesNet(b.invoices, buyer, start, end);
    PaymentLinesNet(b.payments, buyer, start, end);
    NoteLinesNet(b.notes, buyer, start, end);
  }

  /** Opening plus movements is closing, on any books at all. */
  lemma StatementReconciles(b: Books, buyer: nat, start: int, end: int)
    requires start <= end
    ensures Balance(b, buyer, start - 1) + Net(Sort(Unsorted(b, buyer, Some(start), end), LineLe)) ==
            Balance(b, buyer, end)
  {
    BalanceIsTally(b, buyer, None, start - 1);
    BalanceIsTally(b, buyer, Some(start), end);
    BalanceIsTally(b, buyer, None, end);
    TallyAdds(b.invoices, BilledIn(buyer, None, end), BilledIn(buyer, None, start - 1),
              BilledIn(buyer, Some(start), end));
    TallyAdds(b.payments, PaidIn(buyer, None, end), PaidIn(buyer, None, start - 1), PaidIn(buyer, Some(start), end));
    TallyAdds(b.notes, NotedIn(buyer, None, end), NotedIn(buyer, None, start - 1), NotedIn(buyer, Some(start), end));
  }

  // ------------------------------------------------ and agrees with the invoices' balances

  function NetBilled(buyer: nat): Invoice -> int {
    (r: Invoice) => if r.buyer == buyer && r.status != InvoiceCancelled then r.net else 0
  }
  function Owed(buyer: nat): Invoice -> int {
    (r: Invoice) => if r.buyer == buyer && r.status != InvoiceCancelled then r.outstanding else 0
  }
  function Received(buyer: nat): Payment -> int {
    (r: Payment) => if r.buyer == buyer then -r.amount else 0
  }
  function OnAccount(buyer: nat): Payment -> int {
    (r: Payment) => if r.buyer == buyer then r.unallocated else 0
  }
  function Noted(buyer: nat): Note -> int {
    (r: Note) => if r.buyer == buyer then -r.amount else 0
  }
  function LooseNotes(buyer: nat): Note -> int {
    (r: Note) => if r.buyer == buyer && r.invoice.None? then r.amount else 0
  }

  /** What the invoices, payments and notes themselves say the buyer owes. */
  function Position(b: Books, buyer: nat): int {
    Tally(b.invoices, Owed(buyer)) - Tally(b.payments, OnAccount(buyer)) - Tally(b.notes, LooseNotes(buyer))
  }

  /** Payments and credits resting on the buyer's first `n` invoices, voided ones or the others. */
  function Resting(b: Books, buyer: nat, voided: bool, n: nat): int
    requires n <= |b.invoices|
  {
    if n == 0 then 0
    else
      var inv := b.invoices[n - 1];
      Resting(b, buyer, voided, n - 1) +
      (if inv.buyer == buyer && (inv.status == InvoiceCancelled) == voided then SettledOn(b, n - 1) else 0)
  }

  /** No movement of the buyer is dated later. */
  ghost predicate Covers(b: Books, buyer: nat, asOf: int) {
    && (forall r :: r in b.invoices && r.buyer == buyer ==> r.issueDate <= asOf)
    && (forall r :: r in b.payments && r.buyer == buyer ==> r.receivedDate <= asOf)
    && (forall r :: r in b.notes && r.buyer == buyer ==> r.issueDate <= asOf)
  }

  /** Balanced invoices: what is owed is what was billed less what rests on live invoices. */
  lemma {:induction false} OwedIsBilledLessResting(b: Books, buyer: nat, n: nat)
    requires Balanced(b) && n <= |b.invoices|
    ensures Tally(b.invoices[..n], Owed(buyer)) ==
            Tally(b.invoices[..n], NetBilled(buyer)) - Resting(b, buyer, false, n)
  {
    if n > 0 {
      OwedIsBilledLessResting(b, buyer, n - 1);
      assert InvoiceBalanced(b, n - 1);
      assert b.invoices[..n][..n - 1] == b.invoices[..n - 1];
    }
  }

  /** Σ over the buyer's first `n` invoices of what is allocated to each. */
  function AllocatedTo(invoices: seq<Invoice>, allocs: seq<AllocRow>, buyer: nat, n: nat): int
    requires n <= |invoices|
  {
    if n == 0 then 0
    else
      AllocatedTo(invoices, allocs, buyer, n - 1) +
      (if invoices[n - 1].buyer == buyer then OnInvoice(allocs, n - 1) else 0)
  }

  function CreditedTo(invoices: seq<Invoice>, notes: seq<Note>, buyer: nat, n: nat): int
    requires n <= |invoices|
  {
    if n == 0 then 0
    else
      CreditedTo(invoices, notes, buyer, n - 1) +
      (if invoices[n - 1].buyer == buyer then Credited(notes, n - 1) else 0)
  }

  /** Σ over the buyer's first `m` payments of what each allocated. */
  function AllocatedFrom(payments: seq<Payment>, allocs: seq<AllocRow>, buyer: nat, m: nat): int
    requires m <= |payments|
  {
    if m == 0 then 0
    else
      AllocatedFrom(payments, allocs, buyer, m - 1) +
      (if payments[m - 1].buyer == buyer then OfPayment(allocs, m - 1) else 0)
  }

  lemma {:induction false} RestingSplits(b: Books, buyer: nat, n: nat)
    requires n <= |b.invoices|
    ensures Resting(b, buyer, false, n) + Resting(b, buyer, true, n) ==
            AllocatedTo(b.invoices, b.allocs, buyer, n) + CreditedTo(b.invoices, b.notes, buyer, n)
  {
    if n > 0 {
      RestingSplits(b, buyer, n - 1);
    }
  }

  lemma {:induction false} NewestAllocTo(invoices: seq<Invoice>, allocs: seq<AllocRow>, buyer: nat, n: nat)
    requires n <= |invoices| && allocs != []
    ensures var a := allocs[|allocs| - 1];
            AllocatedTo(invoices, allocs, buyer, n) == AllocatedTo(invoices, allocs[..|allocs| - 1], buyer, n) +
            (if a.invoice < n && invoices[a.invoice].buyer == buyer then a.amount else 0)
  {
    if n > 0 {
      NewestAllocTo(invoices, allocs, buyer, n - 1);
    }
  }

  lemma {:induction false} NewestAllocFrom(payments: seq<Payment>, allocs: seq<AllocRow>, buyer: nat, m: nat)
    requires m <= |payments| && allocs != []
    ensures var a := allocs[|allocs| - 1];
            AllocatedFrom(payments, allocs, buyer, m) == AllocatedFrom(payments, allocs[..|allocs| - 1], buyer, m) +
            (if a.payment < m && payments[a.payment].buyer == buyer then a.amount else 0)
  {
    if m > 0 {
      NewestAllocFrom(payments, allocs, buyer, m - 1);
    }
  }

  lemma {:induction false} NoAllocs(invoices: seq<Invoice>, payments: seq<Payment>, buyer: nat, n: nat, m: nat)
    requires n <= |invoices| && m <= |payments|
    ensures AllocatedTo(invoices, [], buyer, n) == 0 && AllocatedFrom(payments, [], buyer, m) == 0
    decreases n + m
  {
    if n > 0 {
      NoAllocs(invoices, payments, buyer, n - 1, m);
    } else if m > 0 {
      NoAllocs(invoices, payments, buyer, n, m - 1);
    }
  }

  /** The double sum over the allocation table, by invoice and by payment. */
  lemma {:induction false} AllocationsCountOnce(invoices: seq<Invoice>, payments: seq<Payment>, allocs: seq<AllocRow>,
                                                buyer: nat)
    requires forall a :: a in allocs ==>
               a.payment < |payments| && a.invoice < |invoices|
                   && payments[a.payment].buyer == invoices[a.invoice].buyer
    ensures AllocatedTo(invoices, allocs, buyer, |invoices|) == AllocatedFrom(payments, allocs, buyer, |payments|)
  {
    if allocs == [] {
      NoAllocs(invoices, payments, buyer, |invoices|, |payments|);
    } else {
      assert allocs[|allocs| - 1] in allocs;
      AllocationsCountOnce(invoices, payments, allocs[..|allocs| - 1], buyer);
      NewestAllocTo(invoices, allocs, buyer, |invoices|);
      NewestAllocFrom(payments, allocs, buyer, |payments|);
    }
  }

  lemma {:induction false} ReceivedIsAllocatedPlusLoose(b: Books, buyer: nat, m: nat)
    requires Balanced(b) && m <= |b.payments|
    ensures -Tally(b.payments[..m], Received(buyer)) ==
            AllocatedFrom(b.payments, b.allocs, buyer, m) + Tally(b.payments[..m], OnAccount(buyer))
  {
    if m > 0 {
      ReceivedIsAllocatedPlusLoose(b, buyer, m - 1);
      assert PaymentBalanced(b, m - 1);
      assert b.payments[..m][..m - 1] == b.payments[..m - 1];
    }
  }

  lemma {:induction false} NewestCredit(invoices: seq<Invoice>, notes: seq<Note>, buyer: nat, n: nat)
    requires n <= |invoices| && notes != []
    ensures var c := notes[|notes| - 1];
            CreditedTo(invoices, notes, buyer, n) == CreditedTo(invoices, notes[..|notes| - 1], buyer, n) +
            (if c.invoice.Some? && c.invoice.value < n && invoices[c.invoice.value].buyer == buyer then c.amount else 0)
  {
    if n > 0 {
      NewestCredit(invoices, notes, buyer, n - 1);
    }
  }

  lemma {:induction false} NotedIsCreditedPlusLoose(invoices: seq<Invoice>, notes: seq<Note>, buyer: nat)
    requires forall n :: n in notes && n.invoice.Some? ==>
            n.invoice.value < |invoices| && invoices[n.invoice.value].buyer == n.buyer
    ensures -Tally(notes, Noted(buyer)) == CreditedTo(invoices, notes, buyer, |invoices|) +
            Tally(notes, LooseNotes(buyer))
  {
    if notes == [] {
      NoCredits(invoices, buyer, |invoices|);
    } else {
      assert notes[|notes| - 1] in notes;
      NotedIsCreditedPlusLoose(invoices, notes[..|notes| - 1], buyer);
      NewestCredit(invoices, notes, buyer, |invoices|);
    }
  }

  lemma {:induction false} NoCredits(invoices: seq<Invoice>, buyer: nat, n: nat)
    requires n <= |invoices|
    ensures CreditedTo(invoices, [], buyer, n) == 0
  {
    if n > 0 {
      NoCredits(invoices, buyer, n - 1);
    }
  }

  /** The two balances. On balanced books, as of a date no movement is after, the statement differs
      from the position only by the money resting on voided invoices; so the two agree exactly when
      no voided invoice of the buyer carries a payment or a credit. */
  lemma StatementAgreesWithPosition(b: Books, buyer: nat, asOf: int)
    requires Balanced(b) && Covers(b, buyer, asOf)
    ensures Balance(b, buyer, asOf) == Position(b, buyer) - Resting(b, buyer, true, |b.invoices|)
    ensures Balance(b, buyer, asOf) == Position(b, buyer) <==> Resting(b, buyer, true, |b.invoices|) == 0
  {
    BalanceIsTally(b, buyer, None, asOf);
    TallySame(b.invoices, BilledIn(buyer, None, asOf), NetBilled(buyer));
    TallySame(b.payments, PaidIn(buyer, None, asOf), Received(buyer));
    TallySame(b.notes, NotedIn(buyer, None, asOf), Noted(buyer));
    OwedIsBilledLessResting(b, buyer, |b.invoices|);
    RestingSplits(b, buyer, |b.invoices|);
    ReceivedIsAllocatedPlusLoose(b, buyer, |b.payments|);
    assert b.invoices[..|b.invoices|] == b.invoices && b.payments[..|b.payments|] == b.payments;
    forall a | a in b.allocs ensures RowSound(b, a) {}
    AllocationsCountOnce(b.invoices, b.payments, b.allocs, buyer);
    forall n | n in b.notes ensures NoteSound(b, n) {}
    NotedIsCreditedPlusLoose(b.invoices, b.notes, buyer);
  }

  /** Consecutive statements chain: one period's closing is the next one's opening, and the two
      periods together move the balance as one statement over both would. */
  lemma StatementsChain(b: Books, buyer: nat, start: int, mid: int, end: int)
    requires start <= mid < end
    ensures Balance(b, buyer, start - 1)
            + Net(Sort(Unsorted(b, buyer, Some(start), mid), LineLe))
            + Net(Sort(Unsorted(b, buyer, Some(mid + 1), end), LineLe)) == Balance(b, buyer, end)
    ensures Net(Sort(Unsorted(b, buyer, Some(start), mid), LineLe)) +
            Net(Sort(Unsorted(b, buyer, Some(mid + 1), end), LineLe))
            == Net(Sort(Unsorted(b, buyer, Some(start), end), LineLe))
  {
    StatementReconciles(b, buyer, start, mid);
    StatementReconciles(b, buyer, mid + 1, end);
    StatementReconciles(b, buyer, start, end);
  }
}
