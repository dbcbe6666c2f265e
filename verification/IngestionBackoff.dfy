/** The arithmetic of the reconnection delays, and the total wait of a start that gives up. */
module IngestionBackoff {
  import opened Common
  import opened IngestionModel
  import opened IngestionInvariants
  import opened IngestionRetries

  function BaseDelay(config: Config): int {
    config.reconnectDelayMs.GetOr(DEFAULT_DELAY_MS)
  }

  lemma {:induction false} ScaledMonotone(base: int, n: nat)
    ensures base >= 0 ==> base * Pow2(n) <= base * Pow2(n + 1)
    ensures base * Pow2(n + 1) == 2 * (base * Pow2(n))
  {
    var p := Pow2(n);
    assert Pow2(n + 1) == 2 * p;
    assert base * (2 * p) == 2 * (base * p);
    if base >= 0 { assert base * p >= 0; }
  }

  /** Each delay is twice the one before it, up to the cap. */
  lemma BackoffDoubles(config: Config, attempt: nat)
    requires attempt >= 1
    ensures Backoff(config, attempt) < DELAY_CAP_MS ==>
              Backoff(config, attempt + 1) ==
                (if 2 * Backoff(config, attempt) < DELAY_CAP_MS then 2 * Backoff(config, attempt) else DELAY_CAP_MS)
    ensures Backoff(config, attempt) == DELAY_CAP_MS ==> Backoff(config, attempt + 1) == DELAY_CAP_MS
  {
    ScaledMonotone(BaseDelay(config), attempt - 1);
  }

  /** The delays never shrink exactly if the base is not negative. */
  lemma BackoffMonotoneIffBase(config: Config)
    ensures (forall n: nat :: n >= 1 ==> Backoff(config, n) <= Backoff(config, n + 1)) <==> BaseDelay(config) >= 0
  {
    if BaseDelay(config) >= 0 {
      forall n: nat | n >= 1 ensures Backoff(config, n) <= Backoff(config, n + 1) {
        ScaledMonotone(BaseDelay(config), n - 1);
      }
    } else {
      ScaledMonotone(BaseDelay(config), 0);
      assert Backoff(config, 1) > Backoff(config, 1 + 1);
    }
  }

  /** The first k delays together. */
  function BackoffSum(config: Config, k: nat): int {
    if k == 0 then 0 else BackoffSum(config, k - 1) + Backoff(config, k)
  }

  lemma {:induction false} PowGrows(base: int, n: nat, m: nat)
    requires n <= m && base >= 0
    ensures base * Pow2(n) <= base * Pow2(m)
    decreases m
  {
    if n < m {
      PowGrows(base, n, m - 1);
      ScaledMonotone(base, m - 1);
    }
  }

  /** While the k-th delay is not capped, the first k of them sum to base * (2^k - 1). */
  lemma {:induction false} UnsaturatedSum(config: Config, k: nat)
    requires BaseDelay(config) >= 0
    requires k >= 1 ==> BaseDelay(config) * Pow2(k - 1) <= DELAY_CAP_MS
    ensures BackoffSum(config, k) == BaseDelay(config) * (Pow2(k) - 1)
    decreases k
  {
    var base := BaseDelay(config);
    if k >= 1 {
      if k >= 2 { PowGrows(base, k - 2, k - 1); }
      UnsaturatedSum(config, k - 1);
      var p := Pow2(k - 1);
      assert Pow2(k) == 2 * p && Backoff(config, k) == base * p;
      assert base * (p - 1) + base * p == base * (2 * p - 1);
    }
  }

  /** A failure that is retried waits for the delay of its attempt and the jitter drawn, no more and no less. */
  lemma WaitIsDelayPlusJitter(w: World, p: nat, code: Option<int>, jitter: Jitter)
    requires Inv(w) && p in w.open
    ensures var w', gen := OnClose(w, p, code, jitter), w.gens[w.spawned[p]];
            && |w.armed| <= |w'.armed| <= |w.armed| + 1
            && (|w'.armed| == |w.armed| + 1 ==>
                  && |w.armed| in w'.pending
                  && w'.armed[|w.armed|] == Timer(w.spawned[p], Backoff(gen.config, gen.attempts + 1) as real + jitter))
  {
  }

  ghost function Sum(waits: seq<real>): real {
    if waits == [] then 0.0 else Sum(waits[..|waits| - 1]) + waits[|waits| - 1]
  }

  /** Jitter adds less than a second per wait. */
  lemma {:induction false} TotalWait(config: Config, waits: seq<real>)
    requires WaitsBackOff(config, waits)
    ensures var k := |waits|;
            && BackoffSum(config, k) as real <= Sum(waits)
            && (k > 0 ==> Sum(waits) < BackoffSum(config, k) as real + 1000.0 * k as real)
            && (k > 0 ==> Sum(waits) < 61000.0 * k as real)
    decreases |waits|
  {
    if waits != [] {
      var k := |waits| - 1;
      assert waits[k] < Backoff(config, k + 1) as real + 1000.0;
      TotalWait(config, waits[..k]);
    }
  }

  /** With the default base and maximum the ten delays before giving up sum to 393 seconds. */
  lemma DefaultSum(config: Config)
    requires BaseDelay(config) == 3000
    ensures BackoffSum(config, 10) == 393000
  {
    assert Pow2(2) == 4 && Pow2(4) == 16 && Pow2(5) == 32;
    UnsaturatedSum(config, 5);
    assert Backoff(config, 6) == DELAY_CAP_MS;
    forall n: nat | 6 <= n < 10 ensures Backoff(config, n) == DELAY_CAP_MS ==> Backoff(config, n + 1) == DELAY_CAP_MS {
      BackoffDoubles(config, n);
    }
    assert Backoff(config, 7) == Backoff(config, 8) == Backoff(config, 9) == Backoff(config, 10) == DELAY_CAP_MS;
    assert BackoffSum(config, 7) == BackoffSum(config, 5) + 120000;
    assert BackoffSum(config, 9) == BackoffSum(config, 7) + 120000;
  }

  /**
   In every run, the waits of a generation that gave up were the backoff delays of attempts
   1 to m, each with its jitter; with the defaults they took between 393 and 403 seconds.
   */
  lemma WaitsBeforeGivingUp(es: seq<Event>, g: nat)
    requires g < |Run(INIT, es).gens| && Run(INIT, es).gens[g].status == MaxRetries
    ensures var w := Run(INIT, es);
            var config, waits := w.gens[g].config, Waits(w.armed, g);
            && MaximumIs(config, |waits|)
            && WaitsBackOff(config, waits)
            && Sum(waits) < 61000.0 * |waits| as real
            && (config.maxReconnectAttempts == None && config.reconnectDelayMs == None ==>
                  393000.0 <= Sum(waits) < 403000.0)
  {
    var w := Run(INIT, es);
    InvRun(INIT, es);
    LedgerRun(INIT, es);
    assert Bounded(w, g) && Ledger(w, g);
    TotalWait(w.gens[g].config, Waits(w.armed, g));
    if w.gens[g].config.reconnectDelayMs == None { DefaultSum(w.gens[g].config); }
  }
}
