/** The calls-per-second limiter (backend/app/scheduler/throttle.py), in exact arithmetic. */
module TokenBucket {
  import opened Common

  datatype Bucket = Bucket(tokens: real, ts: real)

  function MinReal(a: real, b: real): real { if a <= b then a else b }

  function MaxReal(a: real, b: real): real { if a <= b then b else a }

  /** What flows in over a stretch of time. */
  function Flow(rate: real, t: real): real { t * rate }

  /** Tokens at `now`, before the request takes one. A missing key is a full bucket. */
  function Refilled(b: Option<Bucket>, rate: real, burst: real, now: real): real {
    match b
    case None => burst
    case Some(k) => MinReal(burst, k.tokens + Flow(rate, MaxReal(0.0, now - k.ts)))
  }

  function Grants(b: Option<Bucket>, rate: real, burst: real, now: real): bool {
    Refilled(b, rate, burst, now) >= 1.0
  }

  function Taken(b: Option<Bucket>, rate: real, burst: real, now: real): Bucket {
    Bucket(Refilled(b, rate, burst, now) - (if Grants(b, rate, burst, now) then 1.0 else 0.0), now)
  }

  /** The Redis key. */
  class Store {
    var state: Option<Bucket>

    constructor ()
      ensures state == None
    {
      state := None;
    }

    /** The script: refill, check and consume in one step. */
    method Script(rate: real, burst: real, now: real) returns (allowed: int)
      modifies this
      ensures allowed == if Grants(old(state), rate, burst, now) then 1 else 0
      ensures state == Some(Taken(old(state), rate, burst, now))
    {
      var tokens, ts;
      if state.None? {
        tokens, ts := burst, now;
      } else {
        tokens, ts := state.value.tokens, state.value.ts;
      }
      var elapsed := MaxReal(0.0, now - ts);
      assert state.None? ==> elapsed == 0.0;
      assert elapsed == 0.0 ==> Flow(rate, elapsed) == 0.0;
      tokens := MinReal(burst, tokens + Flow(rate, elapsed));
      assert tokens == Refilled(state, rate, burst, now);
      allowed := 0;
      if tokens >= 1.0 {
        tokens := tokens - 1.0;
        allowed := 1;
      }
      state := Some(Bucket(tokens, now));
    }

    /** `acquire_rate`: burst is one second's worth, and an unreachable store refuses. */
    method AcquireRate(reachable: bool, callsPerSecond: nat, now: real) returns (ok: bool)
      modifies this
      ensures !reachable ==> !ok && state == old(state)
      ensures reachable ==> ok == Grants(old(state), callsPerSecond as real, callsPerSecond as real, now)
      ensures reachable ==> state == Some(Taken(old(state), callsPerSecond as real, callsPerSecond as real, now))
    {
      if !reachable {
        return false;
      }
      var allowed := Script(callsPerSecond as real, callsPerSecond as real, now);
      return allowed == 1;
    }
  }

  // ------------------------------------------------------------------------- every history

  /** A request, and whether the key had expired when it arrived. */
  datatype Request = Request(at: real, forgotten: bool)

  function After(rate: real, burst: real, rs: seq<Request>): Option<Bucket>
    decreases |rs|, 0
  {
    if rs == [] then None
    else Some(Taken(Before(rate, burst, rs, |rs| - 1), rate, burst, rs[|rs| - 1].at))
  }

  /** What the k-th request finds. */
  function Before(rate: real, burst: real, rs: seq<Request>, k: nat): Option<Bucket>
    requires k < |rs|
    decreases k, 1
  {
    if rs[k].forgotten then None else After(rate, burst, rs[..k])
  }

  predicate Granted(rate: real, burst: real, rs: seq<Request>, k: nat)
    requires k < |rs|
  {
    Grants(Before(rate, burst, rs, k), rate, burst, rs[k].at)
  }

  function Ceil(x: real): int { -((-x).Floor) }

  /** Seconds an idle key is kept. */
  function Ttl(rate: real, burst: real): int
    requires rate > 0.0
  {
    Ceil(burst / rate) + 60
  }

  /** Times do not go back, and a key is forgotten only after a silence of at least its lifetime. */
  ghost predicate Possible(rate: real, burst: real, rs: seq<Request>)
    requires rate > 0.0
  {
    && (forall i, j :: 0 <= i < j < |rs| ==> rs[i].at <= rs[j].at)
    && (forall k :: 1 <= k < |rs| && rs[k].forgotten ==> rs[k].at - rs[k - 1].at >= Ttl(rate, burst) as real)
  }

  function Remembered(rs: seq<Request>): seq<Request> {
    seq(|rs|, i requires 0 <= i < |rs| => Request(rs[i].at, false))
  }

  /** Grants among requests i to j. */
  function Count(rate: real, burst: real, rs: seq<Request>, i: nat, j: nat): nat
    requires i <= j < |rs|
  {
    (if i < j then Count(rate, burst, rs, i, j - 1) else 0) + (if Granted(rate, burst, rs, j) then 1 else 0)
  }

  lemma {:induction false} SameCount(r: real, r': real, burst: real, a: seq<Request>, b: seq<Request>, i: nat, j: nat)
    requires |a| == |b| && i <= j < |a| && forall k :: 0 <= k < |a| ==>
            Granted(r, burst, a, k) == Granted(r', burst, b, k)
    ensures Count(r, burst, a, i, j) == Count(r', burst, b, i, j)
  {
    if i < j {
      SameCount(r, r', burst, a, b, i, j - 1);
    }
  }

  lemma AfterPrefix(rate: real, burst: real, rs: seq<Request>, j: nat)
    requires j < |rs|
    ensures After(rate, burst, rs[..j + 1]) == Some(Taken(Before(rate, burst, rs, j), rate, burst, rs[j].at))
  {
    assert rs[..j + 1][..j] == rs[..j];
  }

  // ------------------------------------- measuring time in tokens: every rate becomes rate one

  function ScaledBucket(rate: real, b: Option<Bucket>): Option<Bucket> {
    if b.None? then None else Some(Bucket(b.value.tokens, Flow(rate, b.value.ts)))
  }

  function ScaledRequest(rate: real, r: Request): Request { Request(Flow(rate, r.at), r.forgotten) }

  function Scaled(rate: real, rs: seq<Request>): (u: seq<Request>)
    ensures |u| == |rs| && forall i :: 0 <= i < |rs| ==> u[i] == ScaledRequest(rate, rs[i])
  {
    seq(|rs|, i requires 0 <= i < |rs| => ScaledRequest(rate, rs[i]))
  }

  lemma ScaledPrefix(rate: real, rs: seq<Request>, k: nat)
    requires k <= |rs|
    ensures Scaled(rate, rs)[..k] == Scaled(rate, rs[..k])
  {
  }

  lemma FlowDifference(rate: real, a: real, b: real)
    ensures Flow(rate, a - b) == Flow(rate, a) - Flow(rate, b)
  {
  }

  lemma FlowSign(rate: real, t: real)
    requires rate > 0.0
    ensures Flow(rate, t) > 0.0 <==> t > 0.0
    ensures Flow(rate, 0.0) == 0.0
  {
  }

  lemma ScaledElapsed(rate: real, now: real, ts: real)
    requires rate > 0.0
    ensures Flow(rate, MaxReal(0.0, now - ts)) == MaxReal(0.0, Flow(rate, now) - Flow(rate, ts))
  {
    FlowDifference(rate, now, ts);
    FlowSign(rate, now - ts);
  }

  lemma ScaledStep(b: Option<Bucket>, rate: real, burst: real, now: real)
    requires rate > 0.0
    ensures Refilled(ScaledBucket(rate, b), 1.0, burst, Flow(rate, now)) == Refilled(b, rate, burst, now)
  {
    if b.Some? {
      ScaledElapsed(rate, now, b.value.ts);
    }
  }

  lemma TakenScales(b: Option<Bucket>, rate: real, burst: real, now: real)
    requires rate > 0.0
    ensures Some(Taken(ScaledBucket(rate, b), 1.0, burst, Flow(rate, now))) ==
            ScaledBucket(rate, Some(Taken(b, rate, burst, now)))
    ensures Grants(ScaledBucket(rate, b), 1.0, burst, Flow(rate, now)) == Grants(b, rate, burst, now)
  {
    ScaledStep(b, rate, burst, now);
  }

  /** A history at any rate is, request by request, the same history at rate one in scaled time. */
  lemma {:induction false} ScaledHistory(rate: real, burst: real, rs: seq<Request>)
    requires rate > 0.0
    ensures After(1.0, burst, Scaled(rate, rs)) == ScaledBucket(rate, After(rate, burst, rs))
    ensures rs != [] ==> Granted(1.0, burst, Scaled(rate, rs), |rs| - 1) == Granted(rate, burst, rs, |rs| - 1)
    decreases |rs|
  {
    if rs != [] {
      var k, u := |rs| - 1, Scaled(rate, rs);
      ScaledHistory(rate, burst, rs[..k]);
      ScaledPrefix(rate, rs, k);
      var found := Before(rate, burst, rs, k);
      assert u[k] == ScaledRequest(rate, rs[k]);
      assert Before(1.0, burst, u, k) == ScaledBucket(rate, found);
      TakenScales(found, rate, burst, rs[k].at);
      LastTaken(rate, burst, rs);
      LastTaken(1.0, burst, u);
    }
  }

  lemma LastTaken(rate: real, burst: real, rs: seq<Request>)
    requires rs != []
    ensures After(rate, burst, rs) == Some(Taken(Before(rate, burst, rs, |rs| - 1), rate, burst, rs[|rs| - 1].at))
  {
  }

  lemma ScaledGrants(rate: real, burst: real, rs: seq<Request>)
    requires rate > 0.0
    ensures forall k :: 0 <= k < |rs| ==> Granted(1.0, burst, Scaled(rate, rs), k) == Granted(rate, burst, rs, k)
  {
    forall k | 0 <= k < |rs| ensures Granted(1.0, burst, Scaled(rate, rs), k) == Granted(rate, burst, rs, k) {
      ScaledHistory(rate, burst, rs[..k + 1]);
      assert rs[..k + 1][..k] == rs[..k];
      ScaledPrefix(rate, rs, k);
      ScaledPrefix(rate, rs[..k + 1], k);
    }
  }

  /** `Possible` at rate one: silences long enough to refill an empty bucket. */
  ghost predicate PossibleScaled(burst: real, rs: seq<Request>) {
    && (forall i, j :: 0 <= i < j < |rs| ==> rs[i].at <= rs[j].at)
    && (forall k :: 1 <= k < |rs| && rs[k].forgotten ==> rs[k].at - rs[k - 1].at >= burst)
  }

  lemma LifetimeRefills(rate: real, burst: real, from: real, to: real)
    requires rate > 0.0 && to - from >= Ttl(rate, burst) as real
    ensures Flow(rate, to) - Flow(rate, from) >= burst
  {
    assert (-(burst / rate)).Floor as real <= -(burst / rate);
    var d := to - from;
    assert d >= burst / rate;
    assert d * rate >= (burst / rate) * rate;
    assert (burst / rate) * rate == burst;
    assert d * rate == to * rate - from * rate;
  }

  lemma ScaledOrder(rate: real, from: real, to: real)
    requires rate > 0.0 && from <= to
    ensures Flow(rate, from) <= Flow(rate, to)
  {
    assert (to - from) * rate >= 0.0;
  }

  lemma ScaledPossible(rate: real, burst: real, rs: seq<Request>)
    requires rate > 0.0 && Possible(rate, burst, rs)
    ensures PossibleScaled(burst, Scaled(rate, rs))
  {
    var u := Scaled(rate, rs);
    forall i, j | 0 <= i < j < |u| ensures u[i].at <= u[j].at {
      ScaledOrder(rate, rs[i].at, rs[j].at);
    }
    forall k | 1 <= k < |u| && u[k].forgotten ensures u[k].at - u[k - 1].at >= burst {
      LifetimeRefills(rate, burst, rs[k - 1].at, rs[k].at);
    }
  }

  // -------------------------------------------------------------------- expiry and the bound

  lemma {:induction false} TokensInRange(burst: real, rs: seq<Request>)
    requires burst >= 0.0 && PossibleScaled(burst, rs) && rs != []
    ensures After(1.0, burst, rs).value.ts == rs[|rs| - 1].at
    ensures 0.0 <= After(1.0, burst, rs).value.tokens <= burst
    decreases |rs|
  {
    if |rs| > 1 {
      TokensInRange(burst, rs[..|rs| - 1]);
    }
  }

  lemma {:induction false} ForgettingIsInvisible(burst: real, rs: seq<Request>)
    requires burst >= 0.0 && PossibleScaled(burst, rs)
    ensures After(1.0, burst, rs) == After(1.0, burst, Remembered(rs))
    ensures rs != [] ==> Granted(1.0, burst, rs, |rs| - 1) == Granted(1.0, burst, Remembered(rs), |rs| - 1)
    decreases |rs|
  {
    if rs != [] {
      var k := |rs| - 1;
      ForgettingIsInvisible(burst, rs[..k]);
      assert Remembered(rs)[..k] == Remembered(rs[..k]);
      if k > 0 {
        TokensInRange(burst, rs[..k]);
      }
    }
  }

  lemma ScaledRemembered(rate: real, rs: seq<Request>)
    ensures Scaled(rate, Remembered(rs)) == Remembered(Scaled(rate, rs))
  {
    var u, v := Scaled(rate, Remembered(rs)), Remembered(Scaled(rate, rs));
    forall i | 0 <= i < |rs| ensures u[i] == v[i] {
      assert u[i] == ScaledRequest(rate, Remembered(rs)[i]);
    }
  }

  /** Expiry cannot be observed: request by request, the bucket that is sometimes forgotten answers as
      the one that never is. */
  lemma ExpiryIsInvisible(rate: real, burst: real, rs: seq<Request>)
    requires rate > 0.0 && burst >= 0.0 && Possible(rate, burst, rs)
    ensures forall k :: 0 <= k < |rs| ==> Granted(rate, burst, rs, k) == Granted(rate, burst, Remembered(rs), k)
  {
    ScaledGrants(rate, burst, rs);
    ScaledGrants(rate, burst, Remembered(rs));
    ScaledPossible(rate, burst, rs);
    var u := Scaled(rate, rs);
    ScaledRemembered(rate, rs);
    forall k | 0 <= k < |rs| ensures Granted(1.0, burst, u, k) == Granted(1.0, burst, Remembered(u), k) {
      ForgettingIsInvisible(burst, u[..k + 1]);
      assert u[..k + 1][..k] == u[..k];
      assert Remembered(u[..k + 1])[..k] == Remembered(u)[..k];
    }
  }

  /** One request: what it takes and what it leaves was there, or has flowed in since. */
  lemma StepLeft(b: Option<Bucket>, burst: real, now: real)
    requires b.Some? ==> now >= b.value.ts
    ensures var left := Taken(b, 1.0, burst, now).tokens + (if Grants(b, 1.0, burst, now) then 1.0 else 0.0);
            left <= burst && (b.Some? ==> left <= b.value.tokens + now - b.value.ts)
  {
  }

  lemma {:induction false} CountPlusLeft(burst: real, rs: seq<Request>, i: nat, j: nat)
    requires burst >= 0.0 && i <= j < |rs| && PossibleScaled(burst, rs)
    ensures Count(1.0, burst, rs, i, j) as real + After(1.0, burst, rs[..j + 1]).value.tokens <= burst +
            rs[j].at - rs[i].at
    ensures After(1.0, burst, rs[..j + 1]).value.tokens >= 0.0
  {
    AfterPrefix(1.0, burst, rs, j);
    TokensInRange(burst, rs[..j + 1]);
    var found := Before(1.0, burst, rs, j);
    if j > 0 {
      TokensInRange(burst, rs[..j]);
    }
    StepLeft(found, burst, rs[j].at);
    if i < j {
      CountPlusLeft(burst, rs, i, j - 1);
      assert rs[..j - 1 + 1] == rs[..j];
    }
  }

  /** In any window of length `length`, wherever it starts, at most burst + rate * length are granted. */
  lemma WindowBound(rate: real, burst: real, rs: seq<Request>, i: nat, j: nat, length: real)
    requires rate > 0.0 && burst >= 0.0 && Possible(rate, burst, rs) && i <= j < |rs| && rs[j].at - rs[i].at <= length
    ensures Count(rate, burst, rs, i, j) as real <= burst + Flow(rate, length)
  {
    ScaledWidth(rate, rs[i].at, rs[j].at, length);
    ScaledCount(rate, burst, rs, i, j, Flow(rate, length));
  }

  lemma ScaledCount(rate: real, burst: real, rs: seq<Request>, i: nat, j: nat, width: real)
    requires rate > 0.0 && burst >= 0.0 && Possible(rate, burst, rs) && i <= j < |rs|
    requires Flow(rate, rs[j].at) - Flow(rate, rs[i].at) <= width
    ensures Count(rate, burst, rs, i, j) as real <= burst + width
  {
    ScaledGrants(rate, burst, rs);
    ScaledPossible(rate, burst, rs);
    SameCount(rate, 1.0, burst, rs, Scaled(rate, rs), i, j);
    UnitCount(burst, Scaled(rate, rs), i, j, width);
  }

  lemma UnitCount(burst: real, rs: seq<Request>, i: nat, j: nat, width: real)
    requires burst >= 0.0 && PossibleScaled(burst, rs) && i <= j < |rs| && rs[j].at - rs[i].at <= width
    ensures Count(1.0, burst, rs, i, j) as real <= burst + width
  {
    CountPlusLeft(burst, rs, i, j);
  }

  lemma ScaledWidth(rate: real, from: real, to: real, length: real)
    requires rate > 0.0 && to - from <= length
    ensures Flow(rate, to) - Flow(rate, from) <= Flow(rate, length)
  {
    assert (to - from) * rate <= length * rate;
  }

  // ------------------------------------------------------------------ and the bound is exact

  /** Asking again the moment a token is there, in scaled time. */
  function EagerTime(burst: real, k: nat): real {
    MaxReal(0.0, k as real + 1.0 - burst)
  }

  function Eager(rate: real, burst: real, n: nat): seq<Request>
    requires rate > 0.0
  {
    seq(n, k requires 0 <= k < n => Request(EagerTime(burst, k) / rate, false))
  }

  /** Every eager request is granted, and the tokens left are what refilling minus taking leaves. */
  lemma {:induction false} EagerLeaves(burst: real, n: nat)
    requires burst >= 1.0 && n > 0
    ensures Granted(1.0, burst, Eager(1.0, burst, n), n - 1)
    ensures After(1.0, burst, Eager(1.0, burst, n)) ==
            Some(Bucket(burst + EagerTime(burst, n - 1) - n as real, EagerTime(burst, n - 1)))
  {
    var rs, k := Eager(1.0, burst, n), n - 1;
    assert rs[..k] == Eager(1.0, burst, k);
    if k > 0 {
      EagerLeaves(burst, k);
    }
  }

  lemma EagerScales(rate: real, burst: real, n: nat)
    requires rate > 0.0
    ensures Scaled(rate, Eager(rate, burst, n)) == Eager(1.0, burst, n)
  {
    var u, v := Scaled(rate, Eager(rate, burst, n)), Eager(1.0, burst, n);
    forall k: nat | k < n ensures u[k] == v[k] {
      assert u[k] == ScaledRequest(rate, Eager(rate, burst, n)[k]);
      assert EagerTime(burst, k) / rate * rate == EagerTime(burst, k);
    }
  }

  lemma EagerIsGranted(rate: real, burst: real, n: nat)
    requires rate > 0.0 && burst >= 1.0
    ensures forall k :: 0 <= k < n ==> Granted(rate, burst, Eager(rate, burst, n), k)
  {
    ScaledGrants(rate, burst, Eager(rate, burst, n));
    EagerScales(rate, burst, n);
    forall k | 0 <= k < n ensures Granted(1.0, burst, Eager(1.0, burst, n), k) {
      EagerLeaves(burst, k + 1);
      assert Eager(1.0, burst, n)[..k] == Eager(1.0, burst, k + 1)[..k];
    }
  }

  lemma {:induction false} AllGrantedCount(rate: real, burst: real, rs: seq<Request>, j: nat)
    requires j < |rs| && forall k :: 0 <= k < |rs| ==> Granted(rate, burst, rs, k)
    ensures Count(rate, burst, rs, 0, j) == j + 1
  {
    if j > 0 {
      AllGrantedCount(rate, burst, rs, j - 1);
    }
  }

  lemma DividedOrder(rate: real, x: real, y: real)
    requires rate > 0.0 && x <= y
    ensures x / rate <= y / rate
  {
    var p, q := x / rate, y / rate;
    assert p * rate == x && q * rate == y;
    assert (q - p) * rate >= 0.0;
  }

  lemma EagerIsPossible(rate: real, burst: real, n: nat)
    requires rate > 0.0
    ensures Possible(rate, burst, Eager(rate, burst, n))
  {
    forall i: nat, j: nat | i < j < n ensures EagerTime(burst, i) / rate <= EagerTime(burst, j) / rate {
      DividedOrder(rate, EagerTime(burst, i), EagerTime(burst, j));
    }
  }

  lemma FlowBack(rate: real, t: real)
    requires rate > 0.0
    ensures Flow(rate, t) / rate == t
  {
    var q := Flow(rate, t) / rate;
    assert q * rate == t * rate;
    assert q < t ==> (t - q) * rate > 0.0;
    assert q > t ==> (q - t) * rate > 0.0;
  }

  lemma EagerFits(rate: real, burst: real, length: real, n: nat)
    requires rate > 0.0 && burst >= 1.0 && length >= 0.0 && n > 0 && n as real <= burst + Flow(rate, length)
    ensures Eager(rate, burst, n)[n - 1].at - Eager(rate, burst, n)[0].at <= length
  {
    assert EagerTime(burst, 0) == 0.0;
    assert Flow(rate, length) >= 0.0;
    DividedOrder(rate, EagerTime(burst, n - 1), Flow(rate, length));
    FlowBack(rate, length);
    assert 0.0 / rate == 0.0;
  }

  /** No history has more than `most` grants within `length` seconds. */
  ghost predicate HoldsAtMost(rate: real, burst: real, length: real, most: int)
    requires rate > 0.0
  {
    forall rs: seq<Request>, i: nat, j: nat ::
      Possible(rate, burst, rs) && i <= j < |rs| && rs[j].at - rs[i].at <= length ==>
          Count(rate, burst, rs, i, j) <= most
  }

  /** The worst window, exactly: among `length` seconds the limiter can be made to grant
      floor(burst + rate * length) calls, and never more. So it holds a ceiling of `most` in every
      such window if and only if that many fit under it. */
  lemma WorstWindowExactly(rate: real, burst: real, length: real, most: int)
    requires rate > 0.0 && burst >= 1.0 && length >= 0.0
    ensures (burst + Flow(rate, length)).Floor <= most <==> HoldsAtMost(rate, burst, length, most)
  {
    var n := (burst + Flow(rate, length)).Floor;
    assert Flow(rate, length) >= 0.0;
    if n <= most {
      forall rs: seq<Request>, i: nat, j: nat | Possible(rate, burst, rs) && i <= j < |rs|
          && rs[j].at - rs[i].at <= length
        ensures Count(rate, burst, rs, i, j) <= most
      {
        WindowBound(rate, burst, rs, i, j, length);
      }
    } else {
      var rs := Eager(rate, burst, n);
      EagerIsGranted(rate, burst, n);
      AllGrantedCount(rate, burst, rs, n - 1);
      EagerFits(rate, burst, length, n);
      EagerIsPossible(rate, burst, n);
      assert Count(rate, burst, rs, 0, n - 1) > most;
    }
  }

  /** With burst equal to rate, as configured, one second can hold twice the configured rate and no
      more: the ceiling does not hold "across any window". */
  lemma OneSecondHoldsTwiceTheRate(callsPerSecond: nat)
    requires callsPerSecond >= 1
    ensures var r := callsPerSecond as real;
            HoldsAtMost(r, r, 1.0, 2 * callsPerSecond) && !HoldsAtMost(r, r, 1.0, 2 * callsPerSecond - 1)
  {
    var r := callsPerSecond as real;
    assert (r + Flow(r, 1.0)).Floor == 2 * callsPerSecond;
    WorstWindowExactly(r, r, 1.0, 2 * callsPerSecond);
    WorstWindowExactly(r, r, 1.0, 2 * callsPerSecond - 1);
  }
}
