/** The deduplication scheme the three migrators share. The fingerprints of
    the target device's signals form a multiset; each source fingerprint found
    in it removes one occurrence and is skipped as a duplicate, every other
    one is kept (copied, or attempted). Duplicates on the source side are thus
    copied as often as they are missing on the target side. */
module Dedup {

  /** The fingerprints skipped while processing `ks` in order against `bag`. */
  function Skipped(bag: multiset<int>, ks: seq<int>): multiset<int>
  {
    if ks == [] then multiset{}
    else if ks[0] in bag then multiset{ks[0]} + Skipped(bag - multiset{ks[0]}, ks[1..])
    else Skipped(bag, ks[1..])
  }

  /** The fingerprints kept, in processing order. */
  function Kept(bag: multiset<int>, ks: seq<int>): seq<int>
  {
    if ks == [] then []
    else if ks[0] in bag then Kept(bag - multiset{ks[0]}, ks[1..])
    else [ks[0]] + Kept(bag, ks[1..])
  }

  /** What is left of the target multiset afterwards. */
  function Left(bag: multiset<int>, ks: seq<int>): multiset<int>
  {
    if ks == [] then bag
    else if ks[0] in bag then Left(bag - multiset{ks[0]}, ks[1..])
    else Left(bag, ks[1..])
  }

  lemma {:induction false} SkippedIsCommonPart(bag: multiset<int>, ks: seq<int>)
    ensures Skipped(bag, ks) == multiset(ks) * bag
  {
    if ks != [] {
      var k, t := ks[0], ks[1..];
      assert ks == [k] + t;
      var mt := multiset(t);
      if k in bag {
        var b' := bag - multiset{k};
        SkippedIsCommonPart(b', t);
        forall v
          ensures (multiset{k} + mt * b')[v] == ((mt + multiset{k}) * bag)[v]
        {
        }
        assert multiset{k} + mt * b' == (mt + multiset{k}) * bag;
      } else {
        SkippedIsCommonPart(bag, t);
        forall v
          ensures (mt * bag)[v] == ((mt + multiset{k}) * bag)[v]
        {
        }
        assert mt * bag == (mt + multiset{k}) * bag;
      }
    }
  }

  /** Multiset identities for one fingerprint `k` found in the bag. */
  lemma ClaimOne(mt: multiset<int>, bag: multiset<int>, k: int)
    requires k in bag
    ensures mt - (bag - multiset{k}) == (mt + multiset{k}) - bag
    ensures (bag - multiset{k}) - mt == bag - (mt + multiset{k})
  {
    forall v
      ensures (mt - (bag - multiset{k}))[v] == ((mt + multiset{k}) - bag)[v]
    {
    }
    forall v
      ensures ((bag - multiset{k}) - mt)[v] == (bag - (mt + multiset{k}))[v]
    {
    }
  }

  /** Multiset identities for one fingerprint `k` not in the bag. */
  lemma ClaimNone(mt: multiset<int>, bag: multiset<int>, k: int)
    requires k !in bag
    ensures multiset{k} + (mt - bag) == (mt + multiset{k}) - bag
    ensures bag - mt == bag - (mt + multiset{k})
  {
    forall v
      ensures (multiset{k} + (mt - bag))[v] == ((mt + multiset{k}) - bag)[v]
    {
    }
    forall v
      ensures (bag - mt)[v] == (bag - (mt + multiset{k}))[v]
    {
    }
  }

  lemma {:induction false} KeptIsExcess(bag: multiset<int>, ks: seq<int>)
    ensures multiset(Kept(bag, ks)) == multiset(ks) - bag
  {
    if ks != [] {
      var k, t := ks[0], ks[1..];
      assert ks == [k] + t;
      assert multiset(ks) == multiset(t) + multiset{k};
      if k in bag {
        KeptIsExcess(bag - multiset{k}, t);
        ClaimOne(multiset(t), bag, k);
      } else {
        KeptIsExcess(bag, t);
        assert Kept(bag, ks) == [k] + Kept(bag, t);
        ClaimNone(multiset(t), bag, k);
      }
    }
  }

  lemma {:induction false} LeftIsUnclaimed(bag: multiset<int>, ks: seq<int>)
    ensures Left(bag, ks) == bag - multiset(ks)
  {
    if ks != [] {
      var k, t := ks[0], ks[1..];
      assert ks == [k] + t;
      assert multiset(ks) == multiset(t) + multiset{k};
      if k in bag {
        LeftIsUnclaimed(bag - multiset{k}, t);
        ClaimOne(multiset(t), bag, k);
      } else {
        LeftIsUnclaimed(bag, t);
        ClaimNone(multiset(t), bag, k);
      }
    }
  }

  /** The scheme in closed form: the skipped fingerprints are the common part
      of source and target, the kept ones what the source has in excess, and
      the target keeps what the source did not claim. */
  lemma DedupLaw(bag: multiset<int>, ks: seq<int>)
    ensures Skipped(bag, ks) == multiset(ks) * bag
    ensures multiset(Kept(bag, ks)) == multiset(ks) - bag
    ensures Left(bag, ks) == bag - multiset(ks)
  {
    SkippedIsCommonPart(bag, ks);
    KeptIsExcess(bag, ks);
    LeftIsUnclaimed(bag, ks);
  }

  /** Every fingerprint is either skipped or kept. */
  lemma {:induction false} SkippedPlusKept(bag: multiset<int>, ks: seq<int>)
    ensures |Skipped(bag, ks)| + |Kept(bag, ks)| == |ks|
  {
    if ks != [] {
      if ks[0] in bag {
        SkippedPlusKept(bag - multiset{ks[0]}, ks[1..]);
      } else {
        SkippedPlusKept(bag, ks[1..]);
      }
    }
  }

  function Min(a: int, b: int): int { if a <= b then a else b }
  function Max(a: int, b: int): int { if a >= b then a else b }

  /** For one fingerprint `v` held `n` times by the source and `k` times by
      the target, min(n, k) copies are skipped and max(n - k, 0) kept. */
  lemma PerValueLaw(bag: multiset<int>, ks: seq<int>, v: int)
    ensures Skipped(bag, ks)[v] == Min(multiset(ks)[v], bag[v])
    ensures multiset(Kept(bag, ks))[v] == Max(multiset(ks)[v] as int - bag[v] as int, 0)
  {
    DedupLaw(bag, ks);
  }

  /** Running the scheme again, against a target that now also holds every
      kept fingerprint, skips all of them and keeps none. */
  lemma RerunKeepsNothing(bag: multiset<int>, ks: seq<int>)
    ensures Skipped(bag + multiset(Kept(bag, ks)), ks) == multiset(ks)
    ensures Kept(bag + multiset(Kept(bag, ks)), ks) == []
  {
    var bag2 := bag + multiset(Kept(bag, ks));
    DedupLaw(bag, ks);
    DedupLaw(bag2, ks);
    forall v
      ensures (multiset(ks) * bag2)[v] == multiset(ks)[v]
      ensures (multiset(ks) - bag2)[v] == 0
    {
    }
    assert multiset(ks) - bag2 == multiset{};
  }
}
