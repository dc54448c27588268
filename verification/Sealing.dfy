/** The key material of sealed secrets: the PCR values concatenated in index order
    (enclave/crypto/sealing.py:43-60). Key derivation and encryption are not modelled. */
module Sealing {

  type Pcrs = map<nat, string>

  /** The indices below `n`, in increasing order. */
  function Indices(pcrs: Pcrs, n: nat): seq<nat> {
    if n == 0 then []
    else Indices(pcrs, n - 1) + if n - 1 in pcrs then [n - 1] else []
  }

  /** The concatenated values of the indices below `n`. */
  function MaterialBelow(pcrs: Pcrs, n: nat): string {
    if n == 0 then ""
    else MaterialBelow(pcrs, n - 1) + if n - 1 in pcrs then pcrs[n - 1] else ""
  }

  ghost predicate Bounds(pcrs: Pcrs, n: nat) {
    forall i :: i in pcrs ==> i < n
  }

  function Concatenated(pcrs: Pcrs, order: seq<nat>): string
    requires forall i <- order :: i in pcrs
  {
    if order == [] then ""
    else Concatenated(pcrs, order[..|order| - 1]) + pcrs[order[|order| - 1]]
  }

  lemma {:induction false} MaterialInOrder(pcrs: Pcrs, n: nat)
    ensures forall i <- Indices(pcrs, n) :: i in pcrs && i < n
    ensures MaterialBelow(pcrs, n) == Concatenated(pcrs, Indices(pcrs, n))
  {
    if n > 0 {
      MaterialInOrder(pcrs, n - 1);
      if n - 1 in pcrs {
        assert Indices(pcrs, n)[..|Indices(pcrs, n)| - 1] == Indices(pcrs, n - 1);
      } else {
        assert Indices(pcrs, n) == Indices(pcrs, n - 1);
        assert MaterialBelow(pcrs, n) == MaterialBelow(pcrs, n - 1);
      }
    }
  }

  /** The loop over the sorted indices. */
  method PcrMaterial(pcrs: Pcrs, n: nat) returns (material: string)
    requires Bounds(pcrs, n)
    ensures material == MaterialBelow(pcrs, n)
  {
    var order := Indices(pcrs, n);
    MaterialInOrder(pcrs, n);
    material := "";
    for j := 0 to |order|
      invariant forall i <- order[..j] :: i in pcrs
      invariant material == Concatenated(pcrs, order[..j])
    {
      assert order[..j + 1][..j] == order[..j];
      assert order[j] in order;
      material := material + pcrs[order[j]];
    }
    assert order[..|order|] == order;
  }

  /** The same indices, with values of the same lengths: as for measurements by one hash. */
  ghost predicate SameFormat(a: Pcrs, b: Pcrs) {
    a.Keys == b.Keys && forall i :: i in a ==> |a[i]| == |b[i]|
  }

  lemma {:induction false} SameMaterialBelow(a: Pcrs, b: Pcrs, n: nat)
    requires SameFormat(a, b)
    ensures |MaterialBelow(a, n)| == |MaterialBelow(b, n)|
    ensures MaterialBelow(a, n) == MaterialBelow(b, n) ==> forall i :: i in a && i < n ==> a[i] == b[i]
  {
    if n > 0 {
      SameMaterialBelow(a, b, n - 1);
      if n - 1 in a && MaterialBelow(a, n) == MaterialBelow(b, n) {
        var k := |MaterialBelow(a, n - 1)|;
        assert MaterialBelow(a, n)[..k] == MaterialBelow(a, n - 1);
        assert MaterialBelow(b, n)[..k] == MaterialBelow(b, n - 1);
        assert MaterialBelow(a, n)[k..] == a[n - 1];
        assert MaterialBelow(b, n)[k..] == b[n - 1];
      } else if n - 1 !in a {
        assert MaterialBelow(a, n) == MaterialBelow(a, n - 1);
        assert MaterialBelow(b, n) == MaterialBelow(b, n - 1);
      }
    }
  }

  /** Each value stands behind those with smaller indices. */
  lemma {:induction false} MaterialHolds(pcrs: Pcrs, n: nat, i: nat)
    requires i in pcrs && i < n
    ensures var o, material := |MaterialBelow(pcrs, i)|, MaterialBelow(pcrs, n);
            o + |pcrs[i]| <= |material| && material[o..o + |pcrs[i]|] == pcrs[i]
    ensures MaterialBelow(pcrs, i) <= MaterialBelow(pcrs, n)
  {
    if i < n - 1 {
      MaterialHolds(pcrs, n - 1, i);
    }
  }

  /** Over one format, different measurements give different key material. */
  lemma MaterialIsInjective(a: Pcrs, b: Pcrs, n: nat)
    requires SameFormat(a, b) && Bounds(a, n)
    ensures MaterialBelow(a, n) == MaterialBelow(b, n) <==> a == b
  {
    SameMaterialBelow(a, b, n);
  }

  /** Across formats it need not: lengths and indices leave no trace in the material. */
  lemma FormatsCollide()
    ensures MaterialBelow(map[0 := "ab", 1 := "c"], 2) == MaterialBelow(map[0 := "a", 1 := "bc"], 2)
    ensures MaterialBelow(map[0 := "a"], 2) == MaterialBelow(map[1 := "a"], 2)
  {
    var a: Pcrs, b: Pcrs := map[0 := "ab", 1 := "c"], map[0 := "a", 1 := "bc"];
    assert MaterialBelow(a, 1) == "" + "ab" && MaterialBelow(b, 1) == "" + "a";
    assert "" + "ab" + "c" == "" + "a" + "bc";
    var c: Pcrs, d: Pcrs := map[0 := "a"], map[1 := "a"];
    assert MaterialBelow(c, 1) == "" + "a" && MaterialBelow(d, 1) == "" + "";
  }
}
