/** Round-robin rotation of API keys (proxy/main.go:61-83). The mutex makes calls atomic, so
    any interleaving of callers is a sequence of calls. */
module KeyRing {

  class KeyRing {
    const keys: seq<string>
    var current: nat
    ghost var handedOut: seq<nat>   // the positions handed out so far

    ghost predicate Valid()
      reads this
    {
      && (keys == [] ==> current == 0 && handedOut == [])
      && (keys != [] ==> current < |keys| && current == |handedOut| % |keys|)
      && handedOut == Positions(|handedOut|, |keys|)
    }

    constructor (keys: seq<string>)
      ensures Valid() && this.keys == keys && handedOut == []
    {
      this.keys, this.current, this.handedOut := keys, 0, [];
    }

    method Next() returns (key: string)
      requires Valid()
      modifies this
      ensures Valid()
      ensures keys == [] ==> key == "" && handedOut == old(handedOut)
      ensures keys != [] ==>
                |handedOut| == |old(handedOut)| + 1 && old(handedOut) <= handedOut
                && handedOut[|handedOut| - 1] < |keys| && key == keys[handedOut[|handedOut| - 1]]
    {
      if |keys| == 0 {
        return "";
      }
      key := keys[current];
      handedOut := handedOut + [current];
      NextPosition(|handedOut| - 1, |keys|);
      current := (current + 1) % |keys|;
    }
  }

  /** The positions that the first `n` calls on `k` keys hand out. */
  function Positions(n: nat, k: nat): (r: seq<nat>)
    ensures |r| == if k == 0 then 0 else n
  {
    if k == 0 then [] else seq(n, i requires 0 <= i < n => i % k)
  }

  function Uses(positions: seq<nat>, p: nat): nat {
    if positions == [] then 0
    else Uses(positions[..|positions| - 1], p) + if positions[|positions| - 1] == p then 1 else 0
  }

  lemma Product(k: int, d: int)
    requires k > 0
    ensures d >= 1 ==> k * d >= k
    ensures d <= -1 ==> k * d <= -k
  {
    if d >= 1 {
      assert k * d == k + k * (d - 1);
    } else if d <= -1 {
      assert k * d == -k + k * (d + 1);
    }
  }

  lemma Quotient(n: nat, k: nat, q: nat, r: nat)
    requires k > 0 && n == k * q + r && r < k
    ensures n / k == q && n % k == r
  {
    var d := n / k - q;
    assert k * d == k * (n / k) - k * q;
    Product(k, d);
  }

  /** Counting on by one. */
  lemma NextQuotient(n: nat, k: nat)
    requires k > 0
    ensures if n % k + 1 < k then (n + 1) / k == n / k && (n + 1) % k == n % k + 1
            else (n + 1) / k == n / k + 1 && (n + 1) % k == 0
  {
    var q, r := n / k, n % k;
    if r + 1 < k {
      Quotient(n + 1, k, q, r + 1);
    } else {
      assert k * (q + 1) == k * q + k;
      Quotient(n + 1, k, q + 1, 0);
    }
  }

  lemma NextPosition(n: nat, k: nat)
    requires k > 0
    ensures (n % k + 1) % k == (n + 1) % k
  {
    NextQuotient(n, k);
    if n % k + 1 < k {
      Quotient(n % k + 1, k, 0, n % k + 1);
    } else {
      Quotient(k, k, 1, 0);
    }
  }

  lemma OneMoreUse(n: nat, k: nat, p: nat)
    requires k > 0
    ensures Uses(Positions(n + 1, k), p) == Uses(Positions(n, k), p) + if n % k == p then 1 else 0
  {
    assert Positions(n + 1, k)[..n] == Positions(n, k);
  }

  /** Fairness: after n calls every position has been handed out n/k times, or once more
      if it lies before the next position. */
  lemma {:induction false} RotationIsFair(n: nat, k: nat, p: nat)
    requires p < k
    ensures Uses(Positions(n, k), p) == n / k + if p < n % k then 1 else 0
  {
    if n > 0 {
      hide Uses, Positions;
      RotationIsFair(n - 1, k, p);
      OneMoreUse(n - 1, k, p);
      NextQuotient(n - 1, k);
    } else {
      Quotient(0, k, 0, 0);
    }
  }

  /** No two keys' use ever differs by more than one. */
  lemma UsesDifferByOne(n: nat, k: nat, p: nat, q: nat)
    requires p < k && q < k
    ensures -1 <= Uses(Positions(n, k), p) - Uses(Positions(n, k), q) <= 1
  {
    RotationIsFair(n, k, p);
    RotationIsFair(n, k, q);
  }
}
