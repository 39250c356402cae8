/** Deciding how a payment lands (the pure planning half of backend/app/trade/allocation.py). */
module Allocation {
  import opened Common
  import opened Sorting

  datatype InvoiceRef = InvoiceRef(id: nat, number: string, issueDate: int, dueDate: int,
                                   net: int, settled: int, credited: int)
  {
    function Outstanding(): int { net - settled - credited }
  }

  datatype Rule = Manual | OldestFirst | ExactMatch

  datatype Share = Share(invoice: nat, amount: int, rule: Rule)

  datatype Plan = Plan(shares: seq<Share>, unallocated: int)

  datatype LedgerError = NotPositive | NotTheirs | TooMuch | Overspent | OverSettled | MissingInvoice

  /** Due date, then issue date, then number. */
  predicate Older(a: InvoiceRef, b: InvoiceRef) {
    || a.dueDate < b.dueDate
    || (a.dueDate == b.dueDate && a.issueDate < b.issueDate)
    || (a.dueDate == b.dueDate && a.issueDate == b.issueDate && LexLe(a.number, b.number))
  }

  function Where(refs: seq<InvoiceRef>, p: InvoiceRef -> bool): seq<InvoiceRef> {
    if refs == [] then []
    else (if p(refs[0]) then [refs[0]] else []) + Where(refs[1..], p)
  }

  predicate IsOpen(r: InvoiceRef) { r.Outstanding() > 0 }

  function Owing(amount: int): InvoiceRef -> bool { (r: InvoiceRef) => r.Outstanding() == amount }

  function OpenOnes(refs: seq<InvoiceRef>): seq<InvoiceRef> {
    Where(refs, IsOpen)
  }

  function Exact(refs: seq<InvoiceRef>, amount: int): seq<InvoiceRef> {
    Where(OpenOnes(refs), Owing(amount))
  }

  /** The dictionary keyed by id: a later entry replaces an earlier one. */
  function ById(refs: seq<InvoiceRef>, id: nat): Option<InvoiceRef> {
    if refs == [] then None
    else if refs[|refs| - 1].id == id then Some(refs[|refs| - 1])
    else ById(refs[..|refs| - 1], id)
  }

  /** The first fault in an instruction, in the order the code looks for them. */
  function Fault(refs: seq<InvoiceRef>, i: (nat, int)): Option<LedgerError> {
    if i.1 <= 0 then Some(NotPositive)
    else if ById(refs, i.0).None? then Some(NotTheirs)
    else if i.1 > ById(refs, i.0).value.Outstanding() then Some(TooMuch)
    else None
  }

  function Instructed(amount: int, refs: seq<InvoiceRef>, instructions: seq<(nat, int)>, done: seq<Share>, total: int):
    Result<Plan, LedgerError>
  {
    if instructions == [] then
      if total > amount then Err(Overspent) else Ok(Plan(done, amount - total))
    else
      match Fault(refs, instructions[0])
      case Some(e) => Err(e)
      case None =>
        var (id, requested) := instructions[0];
        Instructed(amount, refs, instructions[1..], done + [Share(id, requested, Manual)], total + requested)
  }

  function Greedy(remaining: int, queue: seq<InvoiceRef>): Plan
    decreases |queue|
  {
    if queue == [] || remaining <= 0 then Plan([], remaining)
    else
      var take := Min(remaining, queue[0].Outstanding());
      var rest := Greedy(remaining - take, queue[1..]);
      Plan([Share(queue[0].id, take, OldestFirst)] + rest.shares, rest.unallocated)
  }

  /** `plan_allocation`; instructions are a dictionary in insertion order, empty when there are none. */
  function Planned(amount: int, refs: seq<InvoiceRef>, instructions: seq<(nat, int)>): Result<Plan, LedgerError> {
    if amount <= 0 then Err(NotPositive)
    else if instructions != [] then Instructed(amount, refs, instructions, [], 0)
    else if |Exact(refs, amount)| == 1 then Ok(Plan([Share(Exact(refs, amount)[0].id, amount, ExactMatch)], 0))
    else Ok(Greedy(amount, Sort(OpenOnes(refs), Older)))
  }

  lemma InstructedStep(amount: int, refs: seq<InvoiceRef>, instructions: seq<(nat, int)>, i: nat, done: seq<Share>,
                       total: int)
    requires i < |instructions|
    ensures Instructed(amount, refs, instructions[i..], done, total) ==
            match Fault(refs, instructions[i])
            case Some(e) => Err(e)
            case None =>
              Instructed(amount, refs, instructions[i + 1..],
                         done + [Share(instructions[i].0, instructions[i].1, Manual)], total + instructions[i].1)
  {
    assert instructions[i..][1..] == instructions[i + 1..];
  }

  /** With these shares made and this much left, the queue from `i` on completes the plan. */
  predicate Completes(plan: Plan, shares: seq<Share>, remaining: int, queue: seq<InvoiceRef>, i: nat)
    requires i <= |queue|
  {
    var rest := Greedy(remaining, queue[i..]);
    plan == Plan(shares + rest.shares, rest.unallocated)
  }

  lemma OneMoreShare(plan: Plan, shares: seq<Share>, remaining: int, queue: seq<InvoiceRef>, i: nat)
    requires i < |queue| && remaining > 0 && Completes(plan, shares, remaining, queue, i)
    ensures var take := Min(remaining, queue[i].Outstanding());
            Completes(plan, shares + [Share(queue[i].id, take, OldestFirst)], remaining - take, queue, i + 1)
  {
    assert queue[i..][1..] == queue[i + 1..];
    var share := Share(queue[i].id, Min(remaining, queue[i].Outstanding()), OldestFirst);
    var rest := Greedy(remaining - share.amount, queue[i + 1..]);
    assert shares + ([share] + rest.shares) == (shares + [share]) + rest.shares;
  }

  lemma NothingLeft(plan: Plan, shares: seq<Share>, remaining: int, queue: seq<InvoiceRef>, i: nat)
    requires i <= |queue| && (i == |queue| || remaining <= 0) && Completes(plan, shares, remaining, queue, i)
    ensures plan == Plan(shares, remaining)
  {
    assert shares + [] == shares;
  }

  /** The loop over the user's instructions. */
  method PayInstructed(amount: int, refs: seq<InvoiceRef>, instructions: seq<(nat, int)>)
    returns (r: Result<Plan, LedgerError>)
    ensures r == Instructed(amount, refs, instructions, [], 0)
  {
    var shares: seq<Share> := [];
    var total := 0;
    for i := 0 to |instructions|
      invariant Instructed(amount, refs, instructions, [], 0) ==
                Instructed(amount, refs, instructions[i..], shares, total)
    {
      InstructedStep(amount, refs, instructions, i, shares, total);
      var fault := Fault(refs, instructions[i]);
      if fault.Some? {
        return Err(fault.value);
      }
      total := total + instructions[i].1;
      shares := shares + [Share(instructions[i].0, instructions[i].1, Manual)];
    }
    if total > amount {
      return Err(Overspent);
    }
    return Ok(Plan(shares, amount - total));
  }

  /** The loop over the open invoices, oldest first. */
  method PayOldest(amount: int, queue: seq<InvoiceRef>) returns (plan: Plan)
    ensures plan == Greedy(amount, queue)
  {
    var shares: seq<Share> := [];
    var remaining := amount;
    var i := 0;
    ghost var whole := Greedy(amount, queue);
    assert queue[0..] == queue;
    while i < |queue| && remaining > 0
      invariant 0 <= i <= |queue| && Completes(whole, shares, remaining, queue, i)
    {
      OneMoreShare(whole, shares, remaining, queue, i);
      var take := Min(remaining, queue[i].Outstanding());
      shares := shares + [Share(queue[i].id, take, OldestFirst)];
      remaining := remaining - take;
      i := i + 1;
    }
    NothingLeft(whole, shares, remaining, queue, i);
    return Plan(shares, remaining);
  }

  method PlanAllocation(amount: int, refs: seq<InvoiceRef>, instructions: seq<(nat, int)>)
    returns (r: Result<Plan, LedgerError>)
    ensures r == Planned(amount, refs, instructions)
  {
    if amount <= 0 {
      return Err(NotPositive);
    }
    if instructions != [] {
      r := PayInstructed(amount, refs, instructions);
      return;
    }
    var exact := Exact(refs, amount);
    if |exact| == 1 {
      return Ok(Plan([Share(exact[0].id, amount, ExactMatch)], 0));
    }
    var plan := PayOldest(amount, Sort(OpenOnes(refs), Older));
    return Ok(plan);
  }

  // -------------------------------------------------------------------- what a plan is

  function Total(shares: seq<Share>): int {
    if shares == [] then 0 else Total(shares[..|shares| - 1]) + shares[|shares| - 1].amount
  }

  lemma {:induction false} TotalConcat(a: seq<Share>, b: seq<Share>)
    ensures Total(a + b) == Total(a) + Total(b)
  {
    if b == [] {
      assert a + b == a;
    } else {
      TotalConcat(a, b[..|b| - 1]);
      assert (a + b)[..|a + b| - 1] == a + b[..|b| - 1];
    }
  }

  ghost predicate DistinctRefs(refs: seq<InvoiceRef>) {
    forall i, j :: 0 <= i < j < |refs| ==> refs[i].id != refs[j].id
  }

  ghost predicate DistinctShares(shares: seq<Share>) {
    forall i, j :: 0 <= i < j < |shares| ==> shares[i].invoice != shares[j].invoice
  }

  /** A share is positive and within what its invoice owes. */
  ghost predicate Within(s: Share, refs: seq<InvoiceRef>) {
    exists r :: r in refs && r.id == s.invoice && 0 < s.amount <= r.Outstanding()
  }

  /** Every paisa of the payment is either on exactly one listed invoice, within its balance, or on
      account; no invoice is named twice. */
  ghost predicate SoundPlan(plan: Plan, amount: int, refs: seq<InvoiceRef>) {
    && Total(plan.shares) + plan.unallocated == amount
    && plan.unallocated >= 0
    && DistinctShares(plan.shares)
    && forall s :: s in plan.shares ==> Within(s, refs)
  }

  ghost predicate DistinctKeys(instructions: seq<(nat, int)>) {
    forall i, j :: 0 <= i < j < |instructions| ==> instructions[i].0 != instructions[j].0
  }

  lemma {:induction false} WhereMembers(refs: seq<InvoiceRef>, p: InvoiceRef -> bool)
    ensures forall r :: r in Where(refs, p) <==> r in refs && p(r)
    ensures DistinctRefs(refs) ==> DistinctRefs(Where(refs, p))
  {
    if refs != [] {
      WhereMembers(refs[1..], p);
      assert refs == [refs[0]] + refs[1..];
      if DistinctRefs(refs) {
        assert forall r :: r in refs[1..] ==> r.id != refs[0].id;
      }
    }
  }

  lemma {:induction false} ByIdFinds(refs: seq<InvoiceRef>, id: nat)
    ensures ById(refs, id).Some? <==> exists r :: r in refs && r.id == id
    ensures ById(refs, id).Some? ==> ById(refs, id).value in refs && ById(refs, id).value.id == id
  {
    if refs != [] {
      ByIdFinds(refs[..|refs| - 1], id);
      assert refs == refs[..|refs| - 1] + [refs[|refs| - 1]];
    }
  }

  function Requested(instructions: seq<(nat, int)>): int {
    if instructions == [] then 0 else instructions[0].1 + Requested(instructions[1..])
  }

  function Named(instructions: seq<(nat, int)>): seq<Share> {
    seq(|instructions|, i requires 0 <= i < |instructions| => Share(instructions[i].0, instructions[i].1, Manual))
  }

  lemma {:induction false} InstructedMeaning(amount: int, refs: seq<InvoiceRef>, instructions: seq<(nat, int)>,
                                             done: seq<Share>, total: int)
    ensures Instructed(amount, refs, instructions, done, total).Ok? <==>
            (forall i :: i in instructions ==> Fault(refs, i).None?) && total + Requested(instructions) <= amount
    ensures Instructed(amount, refs, instructions, done, total).Ok? ==>
              Instructed(amount, refs, instructions, done, total).value ==
              Plan(done + Named(instructions), amount - total - Requested(instructions))
  {
    if instructions == [] {
      assert done + Named(instructions) == done;
    } else {
      var (id, requested) := instructions[0];
      assert instructions == [instructions[0]] + instructions[1..];
      InstructedMeaning(amount, refs, instructions[1..], done + [Share(id, requested, Manual)], total + requested);
      assert done + [Share(id, requested, Manual)] + Named(instructions[1..]) == done + Named(instructions);
    }
  }

  lemma {:induction false} NamedTotal(instructions: seq<(nat, int)>)
    ensures Total(Named(instructions)) == Requested(instructions)
  {
    if instructions != [] {
      NamedTotal(instructions[1..]);
      var first := [Share(instructions[0].0, instructions[0].1, Manual)];
      assert Named(instructions) == first + Named(instructions[1..]);
      TotalConcat(first, Named(instructions[1..]));
      assert first[..0] == [];
    }
  }

  /** What oldest-first does to a queue of open invoices: a prefix is paid, in order, all of it in
      full except possibly its last, and money is left over only when the whole queue is paid. */
  ghost predicate OldestFirstShape(plan: Plan, amount: int, queue: seq<InvoiceRef>) {
    && |plan.shares| <= |queue|
    && (forall i :: 0 <= i < |plan.shares| ==>
          plan.shares[i].invoice == queue[i].id && 0 < plan.shares[i].amount <= queue[i].Outstanding())
    && (forall i :: 0 <= i < |plan.shares| - 1 ==> plan.shares[i].amount == queue[i].Outstanding())
    && (plan.unallocated > 0 ==>
          |plan.shares| == |queue| && forall i :: 0 <= i < |queue| ==> plan.shares[i].amount == queue[i].Outstanding())
  }

  ghost predicate AllOpen(queue: seq<InvoiceRef>) {
    forall i :: 0 <= i < |queue| ==> queue[i].Outstanding() > 0
  }

  lemma {:induction false} GreedyTotals(remaining: int, queue: seq<InvoiceRef>)
    requires remaining >= 0 && AllOpen(queue)
    ensures Total(Greedy(remaining, queue).shares) + Greedy(remaining, queue).unallocated == remaining
    ensures Greedy(remaining, queue).unallocated >= 0
    decreases |queue|
  {
    if queue != [] && remaining > 0 {
      var take := Min(remaining, queue[0].Outstanding());
      var first := [Share(queue[0].id, take, OldestFirst)];
      GreedyTotals(remaining - take, queue[1..]);
      TotalConcat(first, Greedy(remaining - take, queue[1..]).shares);
      assert first[..0] == [];
    }
  }

  lemma {:induction false} GreedyShape(remaining: int, queue: seq<InvoiceRef>)
    requires remaining >= 0 && AllOpen(queue)
    ensures OldestFirstShape(Greedy(remaining, queue), remaining, queue)
    decreases |queue|
  {
    if queue != [] && remaining > 0 {
      var take := Min(remaining, queue[0].Outstanding());
      var rest := Greedy(remaining - take, queue[1..]);
      var plan := Greedy(remaining, queue);
      GreedyShape(remaining - take, queue[1..]);
      assert plan.shares == [Share(queue[0].id, take, OldestFirst)] + rest.shares;
      forall i | 1 <= i < |plan.shares| ensures plan.shares[i] == rest.shares[i - 1] && queue[i] == queue[1..][i - 1] {}
      assert rest.shares != [] ==> take == queue[0].Outstanding();
    }
  }

  lemma QueueMembers(refs: seq<InvoiceRef>)
    ensures forall r :: r in Sort(OpenOnes(refs), Older) <==> r in refs && r.Outstanding() > 0
  {
    WhereMembers(refs, IsOpen);
    SortPermutes(OpenOnes(refs), Older);
  }

  lemma {:induction false} DistinctAfterSort(refs: seq<InvoiceRef>, sorted: seq<InvoiceRef>)
    requires DistinctRefs(refs) && multiset(sorted) == multiset(refs)
    ensures DistinctRefs(sorted)
  {
    forall i, j | 0 <= i < j < |sorted| ensures sorted[i].id != sorted[j].id {
      if sorted[i].id == sorted[j].id {
        var x, y := sorted[i], sorted[j];
        assert x in multiset(refs) && y in multiset(refs);
        assert x == y;
        assert sorted == sorted[..j] + [x] + sorted[j + 1..];
        assert sorted[i] in sorted[..j];
        assert multiset(sorted)[x] >= 2;
        AtMostOnce(refs, x);
      }
    }
  }

  lemma {:induction false} AtMostOnce(refs: seq<InvoiceRef>, x: InvoiceRef)
    requires DistinctRefs(refs)
    ensures multiset(refs)[x] <= 1
  {
    if refs != [] {
      AtMostOnce(refs[1..], x);
      assert refs == [refs[0]] + refs[1..];
      if x == refs[0] {
        assert x !in refs[1..];
      }
    }
  }

  lemma QueuePlan(amount: int, refs: seq<InvoiceRef>)
    requires amount > 0 && DistinctRefs(refs)
    ensures var queue := Sort(OpenOnes(refs), Older);
            SoundPlan(Greedy(amount, queue), amount, refs) && OldestFirstShape(Greedy(amount, queue), amount, queue)
  {
    QueueMembers(refs);
    var queue := Sort(OpenOnes(refs), Older);
    assert forall i :: 0 <= i < |queue| ==> queue[i] in queue;
    GreedyTotals(amount, queue);
    GreedyShape(amount, queue);
    SortPermutes(OpenOnes(refs), Older);
    WhereMembers(refs, IsOpen);
    DistinctAfterSort(OpenOnes(refs), queue);
    var plan := Greedy(amount, queue);
    forall s | s in plan.shares ensures Within(s, refs) {
      var i :| 0 <= i < |plan.shares| && plan.shares[i] == s;
      assert queue[i] in refs;
    }
  }

  lemma ExactPlan(amount: int, refs: seq<InvoiceRef>)
    requires amount > 0 && |Exact(refs, amount)| == 1
    ensures var r := Exact(refs, amount)[0];
            r in refs && r.Outstanding() == amount
                && SoundPlan(Plan([Share(r.id, amount, ExactMatch)], 0), amount, refs)
  {
    WhereMembers(refs, IsOpen);
    WhereMembers(OpenOnes(refs), Owing(amount));
    var r := Exact(refs, amount)[0];
    assert r in Exact(refs, amount);
    assert [Share(r.id, amount, ExactMatch)][..0] == [];
  }

  // ---------------------------------------------------------------- oldest first, by the columns

  /** The only one of the invoices that owes just that. */
  ghost predicate OnlyMatch(refs: seq<InvoiceRef>, amount: int, r: InvoiceRef) {
    r in refs && r.Outstanding() == amount && forall q :: q in refs && q.Outstanding() == amount ==> q == r
  }

  /** Due earlier; due on a day, issued earlier; and issued on a day, numbered lower. */
  ghost predicate Ahead(a: InvoiceRef, b: InvoiceRef) {
    || a.dueDate < b.dueDate
    || (a.dueDate == b.dueDate && a.issueDate < b.issueDate)
    || (a.dueDate == b.dueDate && a.issueDate == b.issueDate && Before(a.number, b.number))
  }

  lemma AheadMeans(a: InvoiceRef, b: InvoiceRef)
    ensures Ahead(a, b) <==> !Older(b, a)
  {
    LexMeans(b.number, a.number);
  }

  /** Share `i` is for invoice `r`. */
  ghost predicate Pays(plan: Plan, i: int, r: InvoiceRef) {
    0 <= i < |plan.shares| && plan.shares[i].invoice == r.id && plan.shares[i].rule == OldestFirst
  }

  ghost predicate PaidInFull(plan: Plan, r: InvoiceRef) {
    exists i :: Pays(plan, i, r) && plan.shares[i].amount == r.Outstanding()
  }

  /** The order of payment: no share is for an invoice ahead of an earlier share's; every open invoice ahead of one that
      gets something is paid in full, and with money left over all are. */
  ghost predicate OldestFirstPaid(plan: Plan, refs: seq<InvoiceRef>) {
    && (forall i, j, r, q :: i < j && r in refs && q in refs && Pays(plan, i, r) && Pays(plan, j, q) ==> !Ahead(q, r))
    && (forall i, r, q :: r in refs && q in refs && q.Outstanding() > 0 && Pays(plan, i, r) && Ahead(q, r) ==>
          PaidInFull(plan, q))
    && (plan.unallocated > 0 ==> forall q :: q in refs && q.Outstanding() > 0 ==> PaidInFull(plan, q))
    && (forall s :: s in plan.shares ==> s.rule == OldestFirst)
  }

  lemma {:induction false} OneOfOne(refs: seq<InvoiceRef>, amount: int)
    requires amount > 0 && DistinctRefs(refs)
    ensures |Exact(refs, amount)| == 1 <==> exists r :: OnlyMatch(refs, amount, r)
    ensures |Exact(refs, amount)| == 1 ==> OnlyMatch(refs, amount, Exact(refs, amount)[0])
  {
    WhereMembers(refs, IsOpen);
    WhereMembers(OpenOnes(refs), Owing(amount));
    var exact := Exact(refs, amount);
    assert forall r :: r in exact <==> r in refs && r.Outstanding() == amount;
    if |exact| == 1 {
      assert exact[0] in exact;
      assert OnlyMatch(refs, amount, exact[0]);
    }
    if r :| OnlyMatch(refs, amount, r) {
      assert r in exact;
      forall i | 0 <= i < |exact| ensures exact[i] == r {
        assert exact[i] in exact;
      }
      assert |exact| > 1 ==> exact[0].id != exact[1].id;
    }
  }

  lemma {:induction false} GreedyRule(remaining: int, queue: seq<InvoiceRef>)
    ensures forall s :: s in Greedy(remaining, queue).shares ==> s.rule == OldestFirst
    decreases |queue|
  {
    if queue != [] && remaining > 0 {
      GreedyRule(remaining - Min(remaining, queue[0].Outstanding()), queue[1..]);
    }
  }

  /** The invoice of share `i` is the one queued at `i`. */
  lemma ShareOfQueued(amount: int, refs: seq<InvoiceRef>, i: int, r: InvoiceRef)
    requires amount > 0 && DistinctRefs(refs) && r in refs
    ensures var queue := Sort(OpenOnes(refs), Older);
            Pays(Greedy(amount, queue), i, r) ==> i < |queue| && queue[i] == r
  {
    QueuePlan(amount, refs);
    QueueMembers(refs);
    var queue := Sort(OpenOnes(refs), Older);
    if Pays(Greedy(amount, queue), i, r) {
      assert queue[i] in refs;
    }
  }

  lemma QueuedAhead(refs: seq<InvoiceRef>, i: int, j: int)
    requires 0 <= i < j < |Sort(OpenOnes(refs), Older)|
    ensures !Ahead(Sort(OpenOnes(refs), Older)[j], Sort(OpenOnes(refs), Older)[i])
  {
    OlderIsPreorder();
    SortSorts(OpenOnes(refs), Older);
    AheadMeans(Sort(OpenOnes(refs), Older)[j], Sort(OpenOnes(refs), Older)[i]);
  }

  lemma FullBefore(amount: int, refs: seq<InvoiceRef>, i: int, r: InvoiceRef, q: InvoiceRef)
    requires amount > 0 && DistinctRefs(refs) && r in refs && q in refs && q.Outstanding() > 0 && Ahead(q, r)
    requires Pays(Greedy(amount, Sort(OpenOnes(refs), Older)), i, r)
    ensures PaidInFull(Greedy(amount, Sort(OpenOnes(refs), Older)), q)
  {
    var queue := Sort(OpenOnes(refs), Older);
    var plan := Greedy(amount, queue);
    QueuePlan(amount, refs);
    QueueMembers(refs);
    GreedyRule(amount, queue);
    ShareOfQueued(amount, refs, i, r);
    var m :| 0 <= m < |queue| && queue[m] == q;
    AheadMeans(q, r);
    if m > i { QueuedAhead(refs, i, m); }
    if m == i { LexTotal(q.number, q.number); }
    assert Pays(plan, m, q) by { assert plan.shares[m] in plan.shares; }
  }

  lemma QueueIsOldestFirst(amount: int, refs: seq<InvoiceRef>)
    requires amount > 0 && DistinctRefs(refs)
    ensures OldestFirstPaid(Greedy(amount, Sort(OpenOnes(refs), Older)), refs)
  {
    var queue := Sort(OpenOnes(refs), Older);
    var plan := Greedy(amount, queue);
    QueuePlan(amount, refs);
    QueueMembers(refs);
    GreedyRule(amount, queue);
    forall i, j, r, q | i < j && r in refs && q in refs && Pays(plan, i, r) && Pays(plan, j, q) ensures !Ahead(q, r) {
      ShareOfQueued(amount, refs, i, r);
      ShareOfQueued(amount, refs, j, q);
      QueuedAhead(refs, i, j);
    }
    forall i, r, q | r in refs && q in refs && q.Outstanding() > 0 && Pays(plan, i, r) && Ahead(q, r)
      ensures PaidInFull(plan, q)
    {
      FullBefore(amount, refs, i, r, q);
    }
    if plan.unallocated > 0 {
      forall q | q in refs && q.Outstanding() > 0 ensures PaidInFull(plan, q) {
        var m :| 0 <= m < |queue| && queue[m] == q;
        assert Pays(plan, m, q) by { assert plan.shares[m] in plan.shares; }
      }
    }
  }

  /** Without instructions: an amount owed on exactly one invoice pays that one, whatever its age; otherwise the open
      invoices are paid in the order of their due date, issue date and number. */
  lemma UninstructedPlan(amount: int, refs: seq<InvoiceRef>)
    requires amount > 0 && DistinctRefs(refs)
    ensures Planned(amount, refs, []).Ok? && SoundPlan(Planned(amount, refs, []).value, amount, refs)
    ensures forall r :: OnlyMatch(refs, amount, r) ==>
              Planned(amount, refs, []).value == Plan([Share(r.id, amount, ExactMatch)], 0)
    ensures (forall r :: !OnlyMatch(refs, amount, r)) ==> OldestFirstPaid(Planned(amount, refs, []).value, refs)
  {
    OneOfOne(refs, amount);
    if |Exact(refs, amount)| == 1 {
      ExactPlan(amount, refs);
    } else {
      QueuePlan(amount, refs);
      QueueIsOldestFirst(amount, refs);
    }
  }

  /** With instructions: accepted exactly when every one names an invoice of this buyer, asks for
      something and for no more than it owes, and together they fit the payment; then they are
      carried out to the letter. */
  lemma InstructedPlan(amount: int, refs: seq<InvoiceRef>, instructions: seq<(nat, int)>)
    requires amount > 0 && instructions != [] && DistinctKeys(instructions)
    ensures Planned(amount, refs, instructions).Ok? <==>
            && (forall i :: i in instructions ==>
                i.1 > 0 && ById(refs, i.0).Some? && i.1 <= ById(refs, i.0).value.Outstanding())
            && Requested(instructions) <= amount
    ensures Planned(amount, refs, instructions).Ok? ==>
              && Planned(amount, refs, instructions).value.shares == Named(instructions)
              && SoundPlan(Planned(amount, refs, instructions).value, amount, refs)
  {
    InstructedMeaning(amount, refs, instructions, [], 0);
    assert [] + Named(instructions) == Named(instructions);
    if Planned(amount, refs, instructions).Ok? {
      InstructionsAreSound(amount, refs, instructions);
    }
  }

  /** Positive, and within what an invoice of that id owes. */
  ghost predicate Fine(refs: seq<InvoiceRef>, i: (nat, int)) {
    i.1 > 0 && exists r :: r in refs && r.id == i.0 && i.1 <= r.Outstanding()
  }

  /** What is wrong with the first instruction that is not fine. */
  ghost predicate FirstFault(refs: seq<InvoiceRef>, instructions: seq<(nat, int)>, k: int, e: LedgerError) {
    && 0 <= k < |instructions| && !Fine(refs, instructions[k])
    && (forall j :: 0 <= j < k ==> Fine(refs, instructions[j]))
    && e == (if instructions[k].1 <= 0 then NotPositive
             else if forall r :: r in refs ==> r.id != instructions[k].0 then NotTheirs
             else TooMuch)
  }

  lemma FaultMeans(refs: seq<InvoiceRef>, i: (nat, int))
    requires DistinctRefs(refs)
    ensures Fault(refs, i).None? <==> Fine(refs, i)
    ensures Fault(refs, i).Some? ==>
              Fault(refs, i).value == if i.1 <= 0 then NotPositive
                                      else if forall r :: r in refs ==> r.id != i.0 then NotTheirs
                                      else TooMuch
  {
    ByIdFinds(refs, i.0);
    if ById(refs, i.0).Some? {
      forall r | r in refs && r.id == i.0 ensures r == ById(refs, i.0).value {
        assert exists j, k :: 0 <= j < |refs| && 0 <= k < |refs| && refs[j] == r && refs[k] == ById(refs, i.0).value;
      }
    }
  }

  lemma {:induction false} InstructedFault(amount: int, refs: seq<InvoiceRef>, instructions: seq<(nat, int)>,
                                           done: seq<Share>, total: int)
    requires DistinctRefs(refs)
    ensures var r := Instructed(amount, refs, instructions, done, total);
            r.Err? ==> (exists k :: FirstFault(refs, instructions, k, r.error)) ||
                       (r.error == Overspent && forall i :: i in instructions ==> Fine(refs, i))
  {
    if instructions != [] {
      var i, rest := instructions[0], instructions[1..];
      FaultMeans(refs, i);
      if Fault(refs, i).Some? {
        assert FirstFault(refs, instructions, 0, Fault(refs, i).value);
      } else {
        InstructedFault(amount, refs, rest, done + [Share(i.0, i.1, Manual)], total + i.1);
        var r := Instructed(amount, refs, instructions, done, total);
        if k :| r.Err? && FirstFault(refs, rest, k, r.error) {
          assert FirstFault(refs, instructions, k + 1, r.error);
        }
      }
    }
  }

  /** A refusal of instructions names what is wrong with the first that is not fine; when all are, they come to more
      than the payment. */
  lemma RefusalNamesFirstFault(amount: int, refs: seq<InvoiceRef>, instructions: seq<(nat, int)>)
    requires DistinctRefs(refs) && instructions != [] && Planned(amount, refs, instructions).Err?
    ensures var e := Planned(amount, refs, instructions).error;
            if amount <= 0 then e == NotPositive
            else (exists k :: FirstFault(refs, instructions, k, e)) ||
                 (e == Overspent && forall i :: i in instructions ==> Fine(refs, i))
  {
    if amount > 0 { InstructedFault(amount, refs, instructions, [], 0); }
  }

  lemma InstructionsAreSound(amount: int, refs: seq<InvoiceRef>, instructions: seq<(nat, int)>)
    requires DistinctKeys(instructions) && Requested(instructions) <= amount
    requires forall i :: i in instructions ==> Fault(refs, i).None?
    ensures SoundPlan(Plan(Named(instructions), amount - Requested(instructions)), amount, refs)
  {
    NamedTotal(instructions);
    forall s | s in Named(instructions) ensures Within(s, refs) {
      var i :| 0 <= i < |instructions| && Named(instructions)[i] == s;
      assert instructions[i] in instructions && Fault(refs, instructions[i]).None?;
      ByIdFinds(refs, s.invoice);
    }
  }

  lemma PlansAreSound(amount: int, refs: seq<InvoiceRef>, instructions: seq<(nat, int)>)
    requires DistinctRefs(refs) && DistinctKeys(instructions) && Planned(amount, refs, instructions).Ok?
    ensures amount > 0 && SoundPlan(Planned(amount, refs, instructions).value, amount, refs)
  {
    if instructions == [] {
      UninstructedPlan(amount, refs);
    } else {
      InstructedPlan(amount, refs, instructions);
    }
  }

  // ------------------------------------------------------------- the order rows come back in

  lemma OlderIsPreorder()
    ensures TotalPreorder(Older)
  {
    forall a, b ensures Older(a, b) || Older(b, a) {
      LexTotal(a.number, b.number);
    }
    forall a, b, c | Older(a, b) && Older(b, c) ensures Older(a, c) {
      if LexLe(a.number, b.number) && LexLe(b.number, c.number) {
        LexTransitive(a.number, b.number, c.number);
      }
    }
  }

  lemma {:induction false} WhereMultiset(refs: seq<InvoiceRef>, p: InvoiceRef -> bool, x: InvoiceRef)
    ensures multiset(Where(refs, p))[x] == if p(x) then multiset(refs)[x] else 0
  {
    if refs != [] {
      WhereMultiset(refs[1..], p, x);
      assert refs == [refs[0]] + refs[1..];
    }
  }

  lemma WherePermutes(a: seq<InvoiceRef>, b: seq<InvoiceRef>, p: InvoiceRef -> bool)
    requires multiset(a) == multiset(b)
    ensures multiset(Where(a, p)) == multiset(Where(b, p))
  {
    forall x ensures multiset(Where(a, p))[x] == multiset(Where(b, p))[x] {
      WhereMultiset(a, p, x);
      WhereMultiset(b, p, x);
    }
  }

  lemma ExactIgnoresRowOrder(amount: int, a: seq<InvoiceRef>, b: seq<InvoiceRef>)
    requires multiset(a) == multiset(b)
    ensures |Exact(a, amount)| == |Exact(b, amount)|
    ensures |Exact(a, amount)| == 1 ==> Exact(a, amount) == Exact(b, amount)
  {
    WherePermutes(a, b, IsOpen);
    WherePermutes(OpenOnes(a), OpenOnes(b), Owing(amount));
    SameWhenSingle(Exact(a, amount), Exact(b, amount));
  }

  lemma SameWhenSingle(a: seq<InvoiceRef>, b: seq<InvoiceRef>)
    requires multiset(a) == multiset(b)
    ensures |a| == |b| && (|a| == 1 ==> a == b)
  {
    assert |multiset(a)| == |a| && |multiset(b)| == |b|;
    if |a| == 1 {
      assert a[0] in multiset(b);
    }
  }

  ghost predicate KeysTellApart(refs: seq<InvoiceRef>) {
    forall x, y ::
      x in refs && y in refs && x.dueDate == y.dueDate && x.issueDate == y.issueDate && x.number == y.number ==> x == y
  }

  lemma QueueIgnoresRowOrder(a: seq<InvoiceRef>, b: seq<InvoiceRef>)
    requires multiset(a) == multiset(b) && KeysTellApart(a)
    ensures Sort(OpenOnes(a), Older) == Sort(OpenOnes(b), Older)
  {
    WherePermutes(a, b, IsOpen);
    OlderIsPreorder();
    SortPermutes(OpenOnes(a), Older);
    SortPermutes(OpenOnes(b), Older);
    SortSorts(OpenOnes(a), Older);
    SortSorts(OpenOnes(b), Older);
    QueueMembers(a);
    var sa := Sort(OpenOnes(a), Older);
    forall x, y | x in sa && y in sa && Older(x, y) && Older(y, x) ensures x == y {
      LexTotal(x.number, y.number);
    }
    SortedIsUnique(sa, Sort(OpenOnes(b), Older), Older);
  }

  /** The plan does not depend on the order the database returned the invoices in, when no two share
      due date, issue date and number. */
  lemma PlanIgnoresRowOrder(amount: int, a: seq<InvoiceRef>, b: seq<InvoiceRef>)
    requires multiset(a) == multiset(b) && KeysTellApart(a)
    ensures Planned(amount, a, []) == Planned(amount, b, [])
  {
    ExactIgnoresRowOrder(amount, a, b);
    QueueIgnoresRowOrder(a, b);
  }
}
