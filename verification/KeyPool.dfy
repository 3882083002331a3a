/**
 Key selection within one request: the rotating `keyProvider` closure with its two exclusion sets,
 and the fixed one. The pool filter and the key selector are foreign code.
 */
module KeyPool {
  import opened Options
  import opened KeySelectors

  const NO_KEY := Key("", "", 0.0)

  /** Which keyProvider a request runs with; `Keyless` is a nil keyProvider. */
  datatype Source = Keyless | Fixed(key: Key) | Rotating(pool: seq<Key>)

  /** Answer of the pool filter; `Unfiltered` when none is installed or it failed. */
  datatype Verdict = Unfiltered | Kept(keys: seq<Key>)

  /** Both are asked with the number of the attempt; the filter also with whether it is the second pass. */
  type Filter = (nat, bool, seq<Key>) -> Verdict
  type Selector = (nat, seq<Key>) -> Option<nat>

  datatype Choice =
    | Chosen(key: Key, reset: bool)
    | AllDead
    | AllFiltered
    | SelectorFailed(reset: bool)

  function Ids(keys: seq<Key>): set<string> { set i | 0 <= i < |keys| :: keys[i].id }

  /** The filter keeps keys of its input, the selector picks one of its input. */
  ghost predicate FilterOk(filter: Filter) {
    forall n, second, keys: seq<Key> :: filter(n, second, keys).Kept? ==>
      forall k :: k in filter(n, second, keys).keys ==> k in keys
  }

  ghost predicate SelectorOk(selector: Selector) {
    forall n, keys: seq<Key> :: |keys| > 0 && selector(n, keys).Some? ==> selector(n, keys).value < |keys|
  }

  function Without(keys: seq<Key>, ids: set<string>): (r: seq<Key>)
    ensures forall k :: k in r <==> k in keys && k.id !in ids
  {
    if keys == [] then []
    else
      var n := |keys| - 1;
      assert keys == keys[..n] + [keys[n]];
      Without(keys[..n], ids) + if keys[n].id in ids then [] else [keys[n]]
  }

  function Passed(v: Verdict, keys: seq<Key>): seq<Key> {
    match v
    case Unfiltered => keys
    case Kept(kept) => kept
  }

  function Pick(selector: Selector, n: nat, keys: seq<Key>, reset: bool): Choice
    requires |keys| > 0
  {
    match selector(n, keys)
    case None => SelectorFailed(reset)
    case Some(i) => if i < |keys| then Chosen(keys[i], reset) else SelectorFailed(reset)
  }

  /** Live keys not yet rate-limited in this round, as far as the filter lets them through. */
  function FreshKeys(pool: seq<Key>, filter: Filter, n: nat, used: set<string>, dead: set<string>): seq<Key> {
    Passed(filter(n, false, Without(pool, dead + used)), Without(pool, dead + used))
  }

  /** Live keys, as far as the filter lets them through. */
  function LiveKeys(pool: seq<Key>, filter: Filter, n: nat, dead: set<string>): seq<Key> {
    Passed(filter(n, true, Without(pool, dead)), Without(pool, dead))
  }

  function Choose(src: Source, filter: Filter, selector: Selector, n: nat, used: set<string>, dead: set<string>): Choice
    requires !src.Keyless?
  {
    match src
    case Fixed(key) =>
      if key.id in dead then AllDead
      else if Passed(filter(n, false, [key]), [key]) == [] then AllFiltered
      else Chosen(key, false)
    case Rotating(pool) =>
      if FreshKeys(pool, filter, n, used, dead) != [] then Pick(selector, n, FreshKeys(pool, filter, n, used, dead), false)
      else if LiveKeys(pool, filter, n, dead) != [] then Pick(selector, n, LiveKeys(pool, filter, n, dead), true)
      else if Without(pool, dead) != [] then AllFiltered
      else AllDead
  }

  predicate Resets(c: Choice) { (c.Chosen? || c.SelectorFailed?) && c.reset }

  method Collect(pool: seq<Key>, skip: set<string>) returns (available: seq<Key>)
    ensures available == Without(pool, skip)
  {
    available := [];
    for i := 0 to |pool|
      invariant available == Without(pool[..i], skip)
    {
      assert pool[..i + 1][..i] == pool[..i];
      if pool[i].id in skip { continue; }
      available := available + [pool[i]];
    }
    assert pool[..|pool|] == pool;
  }

  /** The keyProvider call of attempt `n`; it may clear the set of rate-limited keys. */
  method SelectKey(src: Source, filter: Filter, selector: Selector, n: nat, used: set<string>, dead: set<string>)
    returns (choice: Choice, used': set<string>)
    requires !src.Keyless?
    ensures choice == Choose(src, filter, selector, n, used, dead)
    ensures used' == if Resets(choice) then {} else used
  {
    used' := used;
    if src.Fixed? {
      if src.key.id in dead {
        return AllDead, used;
      }
      match filter(n, false, [src.key]) {
        case Unfiltered =>
        case Kept(kept) => if |kept| == 0 { return AllFiltered, used; }
      }
      return Chosen(src.key, false), used;
    }
    var available := Collect(src.pool, dead + used);
    available := Passed(filter(n, false, available), available);
    var reset := false;
    if |available| == 0 {
      available := Collect(src.pool, dead);
      var liveCount := |available|;
      available := Passed(filter(n, true, available), available);
      if |available| == 0 {
        if liveCount > 0 {
          return AllFiltered, used;
        }
        return AllDead, used;
      }
      used' := {};
      reset := true;
    }
    choice := Pick(selector, n, available, reset);
  }
}
