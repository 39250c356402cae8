/** When a decision does not depend on the order in which the account rows are read (backend/app/policy/engine.py). */
module RowOrder {
  import opened Common
  import opened Policy
  import opened Decisions

  /** The same context with its account rows in another order. */
  predicate Reordered(c: Context, d: Context) {
    d == c.(accounts := d.accounts) && multiset(d.accounts) == multiset(c.accounts)
  }

  lemma SameAccounts(c: Context, d: Context)
    requires Reordered(c, d)
    ensures forall a :: a in d.accounts <==> a in c.accounts
    ensures d.accounts == [] <==> c.accounts == []
  {
    forall a ensures a in d.accounts <==> a in c.accounts {
      assert a in d.accounts <==> a in multiset(d.accounts);
      assert a in c.accounts <==> a in multiset(c.accounts);
    }
    assert |multiset(c.accounts)| == |c.accounts| && |multiset(d.accounts)| == |d.accounts|;
  }

  // ------------------------------------------------------- what does not read the account rows

  lemma SamePhone(c: Context, d: Context)
    requires d == c.(accounts := d.accounts)
    ensures SelectPhone(d) == SelectPhone(c)
  {
    KeepSame(c.phones, CallableIn(c), CallableIn(d));
  }

  lemma {:induction false} ClimbSame(p: Channel -> Rung, q: Channel -> Rung, rungs: seq<Channel>, o: bool, k: bool,
                                     m: bool)
    requires forall ch :: p(ch) == q(ch)
    ensures Climb(p, rungs, o, k, m) == Climb(q, rungs, o, k, m)
  {
    if rungs != [] && p(rungs[0]) != Usable {
      var r := p(rungs[0]);
      ClimbSame(p, q, rungs[1..], o || r == OptOut, k || r == Capped, m || r == NoAddress);
    }
  }

  lemma SameChannel(c: Context, d: Context, l: Level, hasPhone: bool)
    requires d == c.(accounts := d.accounts)
    ensures ChosenChannel(d, l, hasPhone) == ChosenChannel(c, l, hasPhone)
  {
    KeepSame(Preference(l), EnabledIn(c), EnabledIn(d));
    ClimbSame(ConsiderIn(c, l, hasPhone), ConsiderIn(d, l, hasPhone), Considered(c, l), false, false, false);
  }

  lemma SameWords(c: Context, d: Context, l: Level, ch: Channel)
    requires d == c.(accounts := d.accounts)
    ensures SelectTemplate(d, l, ch) == SelectTemplate(c, l, ch)
  {
  }

  lemma SameContact(c: Context, d: Context, a: AccountRef, l: Level)
    requires d == c.(accounts := d.accounts)
    ensures Contact(d, a, l) == Contact(c, a, l)
  {
    SamePhone(c, d);
    SameChannel(c, d, l, SelectPhone(c).Ok?);
    var chosen := ChosenChannel(c, l, SelectPhone(c).Ok?);
    if chosen.Ok? { SameWords(c, d, l, chosen.value); }
  }

  lemma SameCooling(c: Context, d: Context)
    requires Reordered(c, d)
    ensures CoolingDown(d) <==> CoolingDown(c)
  {
    SameAccounts(c, d);
    CoolingDownMeans(c);
    CoolingDownMeans(d);
  }

  lemma SameMoment(c: Context, d: Context)
    requires Reordered(c, d)
    ensures NotNow(d) == NotNow(c)
  {
    SameCooling(c, d);
  }

  lemma SameLevel(c: Context, d: Context, a: AccountRef)
    requires d == c.(accounts := d.accounts)
    ensures DetermineLevel(d, a) == DetermineLevel(c, a)
  {
  }

  // --------------------------------------------------------------------- the account in question

  /** The decision, were `a` the account in question. */
  function Considering(c: Context, a: AccountRef): Decision {
    if !c.campaignActive then Refused(CampaignNotActive)
    else if c.consentWithdrawn then Refused(ConsentWithdrawn)
    else if Suppressed(c) then Refused(BuyerSuppressed)
    else EvaluateFor(c, a)
  }

  lemma ConsideringIgnoresOrder(c: Context, d: Context, a: AccountRef)
    requires Reordered(c, d)
    ensures Considering(d, a) == Considering(c, a)
  {
    SameMoment(c, d);
    SameLevel(c, d, a);
    SameContact(c, d, a, DetermineLevel(c, a).0);
  }

  lemma SameSeverest(c: Context, d: Context, a: AccountRef)
    requires Reordered(c, d)
    ensures Severest(d, a) <==> Severest(c, a)
  {
    SameAccounts(c, d);
  }

  lemma SameReason(c: Context, d: Context)
    requires Reordered(c, d)
    ensures AccountReason(d) == AccountReason(c)
  {
    SameAccounts(c, d);
  }

  /** A decision is made about one of the most severe eligible accounts, or there is none. */
  lemma EvaluatedAt(c: Context)
    ensures SelectAccount(c).Ok? ==>
            Severest(c, SelectAccount(c).value) && Evaluate(c) == Considering(c, SelectAccount(c).value)
    ensures SelectAccount(c).Err? ==> SelectAccount(c).error == AccountReason(c)
    ensures SelectAccount(c).Ok? <==> exists a :: Severest(c, a)
  {
    AccountChosen(c);
    if SelectAccount(c).Ok? { var k := ChosenIsFirstSeverest(c); }
  }

  /** With its row read first, a most severe account is the one in question. */
  lemma ReadFirst(c: Context, a: AccountRef) returns (d: Context)
    requires Severest(c, a)
    ensures Reordered(c, d) && Evaluate(d) == Considering(c, a)
  {
    var i :| 0 <= i < |c.accounts| && c.accounts[i] == a;
    var rest := c.accounts[..i] + c.accounts[i + 1..];
    d := c.(accounts := [a] + rest);
    assert c.accounts == c.accounts[..i] + [a] + c.accounts[i + 1..];
    SameSeverest(c, d, a);
    AccountChosen(d);
    var k := ChosenIsFirstSeverest(d);
    assert FirstSeverest(d, 0);
    FirstSeverestOnce(d, k, 0);
    EvaluatedAt(d);
    ConsideringIgnoresOrder(c, d, a);
  }

  lemma OrderDoesNotMatter(c: Context, d: Context)
    requires Reordered(c, d)
    requires forall a, b :: Severest(c, a) && Severest(c, b) ==> Considering(c, a) == Considering(c, b)
    ensures Evaluate(d) == Evaluate(c)
  {
    EvaluatedAt(c);
    EvaluatedAt(d);
    forall a ensures Severest(d, a) <==> Severest(c, a) {
      SameSeverest(c, d, a);
    }
    if SelectAccount(d).Ok? {
      ConsideringIgnoresOrder(c, d, SelectAccount(d).value);
    } else {
      SameReason(c, d);
    }
  }

  /**
   * The decision is the same for every order of the account rows if and only if it would be the same about each of
   * the most severe eligible accounts; so it is whenever there is only one.
   */
  lemma DecisionIgnoresRowOrderExactly(c: Context)
    ensures (forall d :: Reordered(c, d) ==> Evaluate(d) == Evaluate(c)) <==>
            forall a, b :: Severest(c, a) && Severest(c, b) ==> Considering(c, a) == Considering(c, b)
  {
    if forall a, b :: Severest(c, a) && Severest(c, b) ==> Considering(c, a) == Considering(c, b) {
      forall d | Reordered(c, d) ensures Evaluate(d) == Evaluate(c) {
        OrderDoesNotMatter(c, d);
      }
    } else {
      var a, b :| Severest(c, a) && Severest(c, b) && Considering(c, a) != Considering(c, b);
      var first := ReadFirst(c, a);
      var second := ReadFirst(c, b);
    }
  }
}
