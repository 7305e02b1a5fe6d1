/** `run_loop`: how long the client waits between connections. Times in seconds. */
module Backoff {
  const INITIAL_BACKOFF := 1
  const MAX_BACKOFF := 60
  const RESET_AFTER_STABLE := 30

  /** One `connect_and_serve` call: how long it took, whether it got a connection, and whether the
      outbound clip channel was closed when it returned. */
  datatype Attempt = Attempt(elapsed: nat, connected: bool, closed: bool)

  datatype Action = Connecting | Connected | Disconnected(willRetryIn: nat) | Sleep(seconds: nat)

  function Pow2(k: nat): nat {
    if k == 0 then 1 else 2 * Pow2(k - 1)
  }

  predicate Stable(a: Attempt) {
    a.elapsed >= RESET_AFTER_STABLE
  }

  /** Attempts since the last stable one, or since the first attempt. */
  function Since(attempts: seq<Attempt>, i: nat): nat
    requires i < |attempts|
  {
    if i == 0 || Stable(attempts[i]) then 0 else Since(attempts, i - 1) + 1
  }

  /** The closed form of the wait after attempt `i`. */
  function Delay(attempts: seq<Attempt>, i: nat): nat
    requires i < |attempts|
  {
    var p := Pow2(Since(attempts, i));
    if p < MAX_BACKOFF then p else MAX_BACKOFF
  }

  predicate Stops(oneShot: bool, a: Attempt) {
    oneShot || a.closed
  }

  /** What the first `n` attempts make the loop do. */
  function Actions(oneShot: bool, attempts: seq<Attempt>, n: nat): seq<Action>
    requires n <= |attempts|
  {
    if n == 0 then []
    else
      var a := attempts[n - 1];
      Actions(oneShot, attempts, n - 1) + [Connecting] + (if a.connected then [Connected] else [])
      + (if Stops(oneShot, a) then [] else [Disconnected(Delay(attempts, n - 1)), Sleep(Delay(attempts, n - 1))])
  }

  /** How many of the attempts are made before the loop stops. */
  function Made(oneShot: bool, attempts: seq<Attempt>): nat {
    if |attempts| == 0 then 0
    else if Stops(oneShot, attempts[0]) then 1
    else 1 + Made(oneShot, attempts[1..])
  }

  /** The loop, over the attempts it may come to make. Its doubling and capping follow the closed
      form: after `k` further unstable attempts the wait is two to the `k`, at most a minute. */
  method RunLoop(oneShot: bool, attempts: seq<Attempt>) returns (actions: seq<Action>)
    ensures Made(oneShot, attempts) <= |attempts|
    ensures actions == Actions(oneShot, attempts, Made(oneShot, attempts))
  {
    hide Delay, Since, Actions, Made, Stops;
    actions := [];
    var backoff := INITIAL_BACKOFF;
    var i := 0;
    MadeBound(oneShot, attempts);
    LoopEnds(oneShot, attempts);
    while i < |attempts|
      invariant 0 <= i <= |attempts|
      invariant Made(oneShot, attempts) == i + Made(oneShot, attempts[i..]) <= |attempts|
      invariant actions == Actions(oneShot, attempts, i)
      invariant i == 0 ==> backoff == INITIAL_BACKOFF
      invariant i > 0 ==> backoff == Doubled(Delay(attempts, i - 1))
    {
      var attempt := attempts[i];
      LoopStep(oneShot, attempts, i);
      actions := actions + [Connecting];
      if attempt.connected {
        actions := actions + [Connected];
      }
      if oneShot {
        return;
      }
      if attempt.closed {
        return;
      }
      if attempt.elapsed >= RESET_AFTER_STABLE {
        backoff := INITIAL_BACKOFF;
      }
      DelayStep(attempts, i);
      assert backoff == Delay(attempts, i);
      actions := actions + [Disconnected(backoff)];
      actions := actions + [Sleep(backoff)];
      backoff := Doubled(backoff);
      i := i + 1;
    }
  }

  lemma LoopEnds(oneShot: bool, attempts: seq<Attempt>)
    ensures Actions(oneShot, attempts, 0) == [] && attempts[0..] == attempts
    ensures Made(oneShot, attempts[|attempts|..]) == 0
  {}

  /** One more attempt: it is the last if the loop stops at it, and what it adds to the actions. */
  lemma LoopStep(oneShot: bool, attempts: seq<Attempt>, i: nat)
    requires i < |attempts|
    ensures var a := attempts[i];
            && Made(oneShot, attempts[i..]) == (if oneShot || a.closed then 1 else 1 + Made(oneShot, attempts[i + 1..]))
            && Actions(oneShot, attempts, i + 1) ==
                 Actions(oneShot, attempts, i) + [Connecting] + (if a.connected then [Connected] else [])
                 + (if oneShot || a.closed then []
                    else [Disconnected(Delay(attempts, i)), Sleep(Delay(attempts, i))])
  {
    hide Delay;
    assert attempts[i..][0] == attempts[i] && attempts[i..][1..] == attempts[i + 1..];
  }

  /** The next wait, unless a stable attempt comes between. */
  function Doubled(backoff: nat): nat {
    if backoff * 2 < MAX_BACKOFF then backoff * 2 else MAX_BACKOFF
  }

  lemma DelayStep(attempts: seq<Attempt>, i: nat)
    requires i < |attempts|
    ensures Delay(attempts, i) == if i == 0 || Stable(attempts[i]) then INITIAL_BACKOFF else Doubled(Delay(attempts, i - 1))
  {}

  lemma {:induction false} MadeBound(oneShot: bool, attempts: seq<Attempt>)
    ensures Made(oneShot, attempts) <= |attempts|
  {
    if |attempts| > 0 {
      MadeBound(oneShot, attempts[1..]);
    }
  }

  /** Every wait is between one second and a minute, and follows a report that announces it
      exactly; no other report announces one. */
  lemma {:induction false} BackoffLaw(oneShot: bool, attempts: seq<Attempt>, n: nat, k: nat)
    requires n <= |attempts| && k < |Actions(oneShot, attempts, n)|
    ensures var actions := Actions(oneShot, attempts, n);
            && (actions[k].Disconnected? ==>
                  1 <= actions[k].willRetryIn <= MAX_BACKOFF
                  && k + 1 < |actions| && actions[k + 1] == Sleep(actions[k].willRetryIn))
            && (actions[k].Sleep? ==> k > 0 && actions[k - 1] == Disconnected(actions[k].seconds))
  {
    var a := attempts[n - 1];
    var before := Actions(oneShot, attempts, n - 1);
    Pow2Positive(Since(attempts, n - 1));
    if k < |before| {
      BackoffLaw(oneShot, attempts, n - 1, k);
    }
  }

  /** The waits: one second, doubled with every attempt since the last stable one, up to a minute. */
  lemma WaitsAre(attempts: seq<Attempt>, i: nat)
    requires i < |attempts|
    ensures var k := Since(attempts, i);
            && Delay(attempts, i) == (if k < 6 then [1, 2, 4, 8, 16, 32][k] else 60)
            && k <= i && (k < i ==> attempts[i - k].elapsed >= RESET_AFTER_STABLE)
            && forall j :: i - k < j <= i ==> attempts[j].elapsed < RESET_AFTER_STABLE
  {
    SinceIs(attempts, i);
    var k := Since(attempts, i);
    hide Since;
    assert Pow2(2) == 4 && Pow2(4) == 16 && Pow2(6) == 64;
    if k > 6 {
      Pow2Grows(6, k);
    }
  }

  lemma {:induction false} SinceIs(attempts: seq<Attempt>, i: nat)
    requires i < |attempts|
    ensures var k := Since(attempts, i);
            && k <= i && (k < i ==> attempts[i - k].elapsed >= RESET_AFTER_STABLE)
            && forall j :: i - k < j <= i ==> attempts[j].elapsed < RESET_AFTER_STABLE
  {
    if i > 0 && !Stable(attempts[i]) {
      SinceIs(attempts, i - 1);
    }
  }

  lemma {:induction false} Pow2Grows(j: nat, k: nat)
    requires j <= k
    ensures Pow2(j) <= Pow2(k)
  {
    if j < k {
      Pow2Grows(j, k - 1);
    }
  }

  /** The loop stops at the first attempt that is the only one wanted or finds the clip channel closed. */
  lemma {:induction false} MadeIs(oneShot: bool, attempts: seq<Attempt>)
    ensures var made := Made(oneShot, attempts);
            && made <= |attempts|
            && (forall i :: 0 <= i < made - 1 ==> !oneShot && !attempts[i].closed)
            && (made < |attempts| ==> made > 0 && (oneShot || attempts[made - 1].closed))
  {
    if |attempts| > 0 && !Stops(oneShot, attempts[0]) {
      var rest := attempts[1..];
      MadeIs(oneShot, rest);
      forall i | 0 <= i < Made(oneShot, attempts) - 1 ensures !oneShot && !attempts[i].closed {
        assert i > 0 ==> rest[i - 1] == attempts[i];
      }
    }
  }

  /** The wait is back at one second exactly after the first attempt and after one that took half a
      minute, whether or not it ever got a connection. */
  lemma ResetIff(attempts: seq<Attempt>, i: nat)
    requires i < |attempts|
    ensures Delay(attempts, i) == INITIAL_BACKOFF <==> i == 0 || attempts[i].elapsed >= RESET_AFTER_STABLE
  {
    var k := Since(attempts, i);
    if k > 0 {
      Pow2Positive(k - 1);
    }
  }

  lemma {:induction false} Pow2Positive(k: nat)
    ensures Pow2(k) >= 1
  {
    if k > 0 {
      Pow2Positive(k - 1);
    }
  }
}
