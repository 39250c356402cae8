/** What the components promise together: the ledger, the ladder and the calls as the policy engine sees them. */
module Guarantees {
  import opened Common
  import A = Accounts
  import C = AriConsumer
  import D = Decisions
  import O = OptOut
  import P = Policy
  import R = Reconciler

  /** The accounts of a decision are read from the office as it stands. */
  ghost predicate DrawnFrom(c: P.Context, o: A.Office) {
    forall r :: r in c.accounts ==>
      && r.id in o.accounts
      && r.status == o.accounts[r.id].status
      && r.outstanding == o.accounts[r.id].outstanding
      && r.dueDate == o.accounts[r.id].dueDate
  }

  /**
   * When a paid debt can be chased. Whatever invoices, imports, payments, credit notes, corrections and disputes came
   * before, whenever contact is allowed the invoice behind it is a live one, unless a dispute was raised on a voided
   * one; and it has a balance exactly when the credit notes its account has not been synced for do not cover the
   * account's own balance.
   */
  lemma PaidDebtIsNeverChased(os: seq<A.Office>, steps: seq<A.Step>, k: nat, c: P.Context)
    requires A.IsRun(os, steps) && k < |os| && DrawnFrom(c, os[k])
    requires P.Evaluate(c).Allowed?
    ensures
      var i := P.Evaluate(c).account;
      && i in os[k].accounts && i < |os[k].books.invoices|
      && (A.DisputesLiveOnly(os, steps) ==> A.Live(os[k], i))
      && (A.Live(os[k], i) ==>
            (os[k].books.invoices[i].outstanding > 0 <==> A.Behind(os, steps, k, i) < os[k].accounts[i].outstanding))
      && (A.Live(os[k], i) && A.Behind(os, steps, k, i) == 0 ==> os[k].books.invoices[i].outstanding > 0)
  {
    D.AllowedKeepsToTheLadder(c);
    A.OverdueMeansOwed(os, steps, k, P.Evaluate(c).account);
  }

  /**
   * Why a debt is contacted: the account was found due at its last sync, or a dispute on it was cleared with a balance,
   * and nothing has settled its status since. So if no sync was dated after the decision, a debt that is not yet due is
   * contacted only in the second case, and not at all under a ladder that does not start before the due date.
   */
  lemma DebtIsDueExactly(os: seq<A.Office>, steps: seq<A.Step>, k: nat, c: P.Context)
    requires A.IsRun(os, steps) && k < |os| && DrawnFrom(c, os[k])
    requires P.Evaluate(c).Allowed?
    requires forall j :: 0 <= j < k && A.Syncs(os[j], steps[j], P.Evaluate(c).account) ==> A.ClockOf(steps[j]) <= c.now
    ensures
      var i := P.Evaluate(c).account;
      && i in os[k].accounts && A.MadeOverdue(os, steps, k, i)
      && (c.now < os[k].accounts[i].dueDate ==>
            forall j :: A.OverdueSince(os, steps, j, k, i) ==> steps[j] == A.Clear(i))
      && (c.policy.l1AfterDays >= 0 ==> os[k].accounts[i].dueDate <= c.now)
  {
    var n, t := D.AllowedMeans(c);
    var i := P.Evaluate(c).account;
    assert c.accounts[n] in c.accounts;
    A.OverdueExactly(os, steps, k, i);
    forall j | A.OverdueSince(os, steps, j, k, i) && steps[j] != A.Clear(i) ensures os[k].accounts[i].dueDate <= c.now {
      A.SyncedIsDue(os, steps, j, k, i);
    }
  }

  /** The amount spoken to a caller about a live invoice is what the ledger has outstanding on it, exactly when no
      credit note on it waits for a sync. */
  lemma AmountSpokenIsOwed(os: seq<A.Office>, steps: seq<A.Step>, k: nat, c: P.Context, r: P.AccountRef)
    requires A.IsRun(os, steps) && k < |os| && DrawnFrom(c, os[k]) && r in c.accounts && A.Live(os[k], r.id)
    ensures r.outstanding == os[k].books.invoices[r.id].outstanding <==> A.Behind(os, steps, k, r.id) == 0
  {
    A.AccountShowsBalanceExactly(os, steps, k, r.id);
  }

  /**
   * Pressing 9 stops contact. At any moment of any run, a decision is refused for want of consent exactly when the
   * call has an outcome and a 9 was delivered as the first event of its key, as long as nothing else has withdrawn
   * consent and the campaign is active; and once it is, no later decision allows contact.
   */
  lemma OptOutStopsContactExactly(d: C.Desk, id: R.Ident, steps: seq<R.Step>, n: nat, now: P.Context, later: P.Context)
    requires O.Inserted(d) && O.Proper(steps) && n <= |steps|
    requires now.consentWithdrawn == O.Run(d, id, steps[..n]).file.consentWithdrawn
    requires later.consentWithdrawn == O.Run(d, id, steps).file.consentWithdrawn
    ensures now.campaignActive ==>
              (P.Evaluate(now) == P.Refused(P.ConsentWithdrawn) <==>
                 PastDialling(O.Run(d, id, steps[..n]).call.row.state.status) && O.OptedOut(steps[..n]))
    ensures PastDialling(O.Run(d, id, steps[..n]).call.row.state.status) && O.OptedOut(steps[..n]) ==>
              P.Evaluate(now).Refused? && P.Evaluate(later).Refused?
  {
    O.ConsentWithdrawnExactly(d, id, steps[..n]);
    O.WithdrawnForGood(d, id, steps, n);
    if now.campaignActive { D.ConsentReasonExactly(now); }
  }
}
