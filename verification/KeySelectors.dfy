/** core/keyselectors/weightedrandom.go: one key, with probability proportional to its weight. */
module KeySelectors {
  import opened Options
  import opened Floats

  /** A credential: its ID, its display name and its weight. */
  datatype Key = Key(id: string, name: string, weight: real)

  /** Weights count in hundredths. */
  function Cents(k: Key): int { Truncate(k.weight * 100.0) }

  /** The summed weight of all keys. */
  function Total(keys: seq<Key>): int {
    if keys == [] then 0 else Total(keys[..|keys| - 1]) + Cents(keys[|keys| - 1])
  }

  /** `random` chooses among 0..n-1 for n > 0; for any other n it panics, and the selection has no result. */
  function Bounded(random: nat, n: int): Option<nat> { if n > 0 && random < n then Some(random) else None }

  predicate IsSpread(keys: seq<Key>) { forall i :: 0 <= i < |keys| ==> Cents(keys[i]) >= 0 }

  /** Position `i` owns the random values from the weight before it up to the weight including it. */
  ghost predicate Owns(keys: seq<Key>, i: nat, random: nat) {
    i < |keys| && Total(keys[..i]) <= random < Total(keys[..i + 1])
  }

  lemma TotalStep(keys: seq<Key>, i: nat)
    requires i < |keys|
    ensures Total(keys[..i + 1]) == Total(keys[..i]) + Cents(keys[i])
  {
    assert keys[..i + 1][..i] == keys[..i];
  }

  lemma TotalEnds(keys: seq<Key>)
    ensures Total(keys[..0]) == 0 && Total(keys[..|keys|]) == Total(keys)
  {
    assert keys[..|keys|] == keys;
  }

  /**
   `random` is the value the generator returns for the bound the code asks for. The result is the
   position of the key chosen, or none where the generator panics. A positive total selects the
   owner of the random value, a zero total every position alike.
   */
  method WeightedRandom(keys: seq<Key>, random: nat) returns (choice: Option<nat>)
    ensures choice.Some? <==> Bounded(random, if Total(keys) == 0 then |keys| else Total(keys)).Some?
    ensures choice.Some? ==> choice.value < |keys|
    ensures choice.Some? && Total(keys) == 0 ==> choice.value == random
    ensures choice.Some? && Total(keys) > 0 ==> Owns(keys, choice.value, random)
    ensures Total(keys) > 0 && IsSpread(keys) ==> forall i: nat :: i < |keys| ==> (choice == Some(i) <==> random in Winning(keys, i))
  {
    hide Total, Cents, IsSpread, Winning;
    TotalEnds(keys);
    WinningIs(keys, random);
    var totalWeight := 0;
    for i := 0 to |keys|
      invariant totalWeight == Total(keys[..i])
    {
      TotalStep(keys, i);
      totalWeight := totalWeight + Cents(keys[i]);
    }
    if totalWeight == 0 {
      return Bounded(random, |keys|);
    }
    var randomValue := Bounded(random, totalWeight);
    if randomValue.None? {
      return None;
    }
    choice := Some(0);
    var currentWeight := 0;
    for i := 0 to |keys|
      invariant currentWeight == Total(keys[..i]) <= random
    {
      TotalStep(keys, i);
      currentWeight := currentWeight + Cents(keys[i]);
      if randomValue.value < currentWeight {
        return Some(i);
      }
    }
    // The fallback to the first key: the loop has passed the whole weight, and the random value is below it.
    assert false;
  }

  lemma {:induction false} TotalMonotone(keys: seq<Key>, i: nat, j: nat)
    requires IsSpread(keys) && i <= j <= |keys|
    ensures Total(keys[..i]) <= Total(keys[..j])
  {
    if i < j {
      TotalMonotone(keys, i, j - 1);
      TotalStep(keys, j - 1);
    }
  }

  lemma TotalNonNegative(keys: seq<Key>, i: nat)
    requires IsSpread(keys) && i <= |keys|
    ensures 0 <= Total(keys[..i]) <= Total(keys)
  {
    TotalMonotone(keys, 0, i);
    TotalMonotone(keys, i, |keys|);
    TotalEnds(keys);
  }

  /** No other position owns the value, so the choice is determined by it. */
  lemma OwnedOnce(keys: seq<Key>, i: nat, j: nat, random: nat)
    requires IsSpread(keys) && Owns(keys, i, random) && Owns(keys, j, random)
    ensures i == j
  {
    if i < j { TotalMonotone(keys, i + 1, j); }
    if j < i { TotalMonotone(keys, j + 1, i); }
  }

  /** A value wins for the position that owns it, and for no other. */
  lemma WinningIs(keys: seq<Key>, random: nat)
    ensures forall i: nat :: random in Winning(keys, i) <==> random < Total(keys) && Owns(keys, i, random)
    ensures IsSpread(keys) ==> forall i: nat, j: nat :: random in Winning(keys, i) && random in Winning(keys, j) ==> i == j
  {
    RangeIs(0, Total(keys));
    if IsSpread(keys) {
      forall i: nat, j: nat | random in Winning(keys, i) && random in Winning(keys, j) ensures i == j {
        OwnedOnce(keys, i, j, random);
      }
    }
  }

  /** The generator's values on which position `i` is returned; see the last clause of WeightedRandom. */
  ghost function Winning(keys: seq<Key>, i: nat): set<nat> {
    set r | r in Range(0, Total(keys)) && Owns(keys, i, r)
  }

  ghost function Range(lo: nat, hi: int): set<nat> {
    if hi <= lo then {} else Range(lo, hi - 1) + {hi - 1}
  }

  lemma {:induction false} RangeIs(lo: nat, hi: int)
    ensures forall r: nat :: r in Range(lo, hi) <==> lo <= r < hi
    ensures lo <= hi ==> |Range(lo, hi)| == hi - lo
    decreases hi - lo
  {
    if lo < hi { RangeIs(lo, hi - 1); }
  }

  /** Exactly as many of the possible random values select position `i` as its weight in hundredths. */
  lemma SelectionIsProportional(keys: seq<Key>, i: nat)
    requires IsSpread(keys) && Total(keys) > 0 && i < |keys|
    ensures |Winning(keys, i)| == Cents(keys[i])
    ensures Cents(keys[i]) == 0 ==> Winning(keys, i) == {}
  {
    TotalNonNegative(keys, i);
    TotalNonNegative(keys, i + 1);
    TotalStep(keys, i);
    RangeIs(0, Total(keys));
    RangeIs(Total(keys[..i]), Total(keys[..i + 1]));
    assert Winning(keys, i) == Range(Total(keys[..i]), Total(keys[..i + 1]));
  }
}
