/** Providing strategies: the policy that maps the ordinal of a job to the
    dispatcher that runs it. The block strategy fills the dispatchers one
    after the other, each up to `ceil(num_jobs / len(dispatchers))` jobs;
    `DispatcherProvider` is the facade the driver talks to. */
module Providing {
  import opened Results

  /** Why `provide()` (or building the strategy) fails: an empty dispatcher
      list divides by zero when the strategy is built, and asking for one
      slot more than the strategy prepared ends the slot iterator. */
  datatype ProvideError = DivisionByZero | Exhausted

  /** `range(0, n)` and repetition treat a negative count as zero. */
  function Clamp(n: int): nat
  {
    if n < 0 then 0 else n
  }

  /** `math.ceil(num_jobs / d)`, the most jobs any one dispatcher receives,
      in integer arithmetic: it is the least multiplier of `d` that reaches
      `numJobs`. */
  function Cap(numJobs: int, d: nat): (cap: int)
    requires d > 0
    ensures d * (cap - 1) < numJobs <= d * cap
  {
    var q := (numJobs + d - 1) / d;
    var r := (numJobs + d - 1) % d;
    assert numJobs + d - 1 == d * q + r && 0 <= r < d;
    assert d * (q - 1) == d * q - d;
    q
  }

  /** `make_repeater(n)(x)`: `x`, `n` times. */
  function Repeat<T>(x: T, n: int): (r: seq<T>)
    ensures |r| == Clamp(n)
    ensures forall i :: 0 <= i < |r| ==> r[i] == x
    decreases Clamp(n)
  {
    if n <= 0 then [] else [x] + Repeat(x, n - 1)
  }

  /** `mapcat(make_repeater(n), ds)`: every element of `ds` repeated `n`
      times, in the order of `ds`. Its length is `|ds| * n`. */
  function RepeatEach<T>(ds: seq<T>, n: int): seq<T>
    decreases |ds|
  {
    if ds == [] then [] else Repeat(ds[0], n) + RepeatEach(ds[1..], n)
  }

  /** There are `|ds| * n` slots in all. */
  lemma {:induction false} RepeatEachLength<T>(ds: seq<T>, n: int)
    ensures |RepeatEach(ds, n)| == |ds| * Clamp(n)
    decreases |ds|
  {
    if ds != [] {
      RepeatEachLength(ds[1..], n);
      assert |ds| * Clamp(n) == Clamp(n) + (|ds| - 1) * Clamp(n);
    }
  }

  /** `BlockProvidingStrategy.prepare`: the slot sequence handed out by
      successive `provide()` calls. It fails for an empty dispatcher list,
      and otherwise has `|ds| * cap` slots, never fewer than `numJobs`. */
  function Prepare<T>(ds: seq<T>, numJobs: int): (r: Result<seq<T>, ProvideError>)
    ensures r.Err? <==> |ds| == 0
    ensures r.Err? ==> r.error == DivisionByZero
    ensures r.Ok? ==> |r.value| == |ds| * Clamp(Cap(numJobs, |ds|)) >= numJobs
  {
    if |ds| == 0 then Err(DivisionByZero)
    else
      var cap := Cap(numJobs, |ds|);
      RepeatEachLength(ds, cap);
      assert cap > 0 ==> |ds| * Clamp(cap) == |ds| * cap;
      Ok(RepeatEach(ds, cap))
  }

  /** Dispatcher `i` owns the `i`-th block of `n` consecutive slots. */
  lemma {:induction false} BlockOf<T>(ds: seq<T>, n: int, i: nat)
    requires n > 0 && i < |ds|
    ensures (i + 1) * n <= |RepeatEach(ds, n)|
    ensures RepeatEach(ds, n)[i * n .. (i + 1) * n] == Repeat(ds[i], n)
    decreases |ds|
  {
    var all := RepeatEach(ds, n);
    var head := Repeat(ds[0], n);
    var rest := RepeatEach(ds[1..], n);
    RepeatEachLength(ds, n);
    RepeatEachLength(ds[1..], n);
    assert all == head + rest;
    if i == 0 {
      assert i + 1 <= |ds|;
      assert all[..n] == head;
    } else {
      BlockOf(ds[1..], n, i - 1);
      assert (i - 1) * n == i * n - n;
      assert (i + 1) * n == i * n + n;
      assert all[i * n .. (i + 1) * n] == rest[(i - 1) * n .. i * n];
    }
  }

  /** The `k`-th slot (0-based) is `ds[k / n]`: slots are filled in the
      order of the dispatcher list. */
  lemma SlotAt<T>(ds: seq<T>, n: int, k: nat)
    requires n > 0 && k < |ds| * n
    ensures k / n < |ds| && k < |RepeatEach(ds, n)| && RepeatEach(ds, n)[k] == ds[k / n]
  {
    var i := k / n;
    var j := k % n;
    DivBlock(k, n, |ds|);
    BlockOf(ds, n, i);
    var block := RepeatEach(ds, n)[i * n .. (i + 1) * n];
    assert RepeatEach(ds, n)[k] == block[j];
  }

  /** The arithmetic behind `SlotAt`: `k` lies in block `k / n`. */
  lemma DivBlock(k: nat, n: nat, d: nat)
    requires n > 0 && k < d * n
    ensures k / n < d
    ensures k == (k / n) * n + k % n && 0 <= k % n < n
    ensures (k / n + 1) * n == (k / n) * n + n
  {
    var i := k / n;
    if i >= d {
      MulMonotone(d, i, n);
    }
  }

  lemma MulMonotone(a: nat, b: nat, n: nat)
    requires a <= b
    ensures a * n <= b * n
  {
  }

  lemma Distribute(m: nat, t: nat)
    ensures m * (1 + t) == m + m * t
  {
  }

  /** Over the whole run each dispatcher is handed out `n` times for every
      time it occurs in the list; a dispatcher listed once gets at most `n`
      jobs. */
  lemma {:induction false} SlotCount<T>(ds: seq<T>, n: int, x: T)
    ensures multiset(RepeatEach(ds, n))[x] == Clamp(n) * multiset(ds)[x]
    decreases |ds|
  {
    if ds != [] {
      var m := Clamp(n);
      var head := if ds[0] == x then 1 else 0;
      var tail := multiset(ds[1..])[x];
      SlotCount(ds[1..], n, x);
      RepeatCount(ds[0], n, x);
      UnfoldCounts(ds, n, x);
      if ds[0] == x {
        Distribute(m, tail);
      }
    }
  }

  /** Counting through the first dispatcher of the list. */
  lemma UnfoldCounts<T>(ds: seq<T>, n: int, x: T)
    requires ds != []
    ensures multiset(RepeatEach(ds, n))[x] == multiset(Repeat(ds[0], n))[x] + multiset(RepeatEach(ds[1..], n))[x]
    ensures multiset(ds)[x] == (if ds[0] == x then 1 else 0) + multiset(ds[1..])[x]
  {
    assert ds == [ds[0]] + ds[1..];
  }


  /** `x` occurs in its own repetition `n` times and no other value does. */
  lemma {:induction false} RepeatCount<T>(y: T, n: int, x: T)
    ensures multiset(Repeat(y, n))[x] == if x == y then Clamp(n) else 0
    decreases Clamp(n)
  {
    if n > 0 {
      RepeatCount(y, n - 1, x);
      assert Repeat(y, n) == [y] + Repeat(y, n - 1);
    }
  }

  /** With three dispatchers and four jobs the cap is 2 and the four calls
      hand out `a, a, b, b`: the third dispatcher gets nothing. The split is
      2, 2, 0 rather than the even 2, 1, 1. */
  lemma UnevenSplitExample<T>(a: T, b: T, c: T)
    requires a != c && b != c
    ensures Cap(4, 3) == 2
    ensures Prepare([a, b, c], 4) == Ok([a, a, b, b, c, c])
    ensures multiset(Prepare([a, b, c], 4).value[..4])[c] == 0
  {
    var ds := [a, b, c];
    assert Cap(4, 3) == 2;
    assert Repeat(a, 2) == [a, a] && Repeat(b, 2) == [b, b] && Repeat(c, 2) == [c, c];
    assert ds[1..] == [b, c] && ds[1..][1..] == [c] && ds[1..][1..][1..] == [];
    assert RepeatEach([c], 2) == [c, c];
    assert RepeatEach([b, c], 2) == [b, b, c, c];
    assert RepeatEach(ds, 2) == [a, a, b, b, c, c];
    assert [a, a, b, b, c, c][..4] == [a, a, b, b];
  }

  /** `BlockProvidingStrategy`: the slots prepared at construction and a
      cursor standing for the position of the slot iterator. */
  class BlockStrategy {
    const dispatchers: seq<string>
    const numJobs: int
    const maxJobsPerDispatcher: int
    const slots: seq<string>
    var cursor: nat

    /** The slots were prepared from the dispatchers; they never change. */
    ghost predicate Prepared()
    {
      |dispatchers| > 0 &&
      maxJobsPerDispatcher == Cap(numJobs, |dispatchers|) &&
      Prepare(dispatchers, numJobs) == Ok(slots)
    }

    /** The cursor has not run past the prepared slots. */
    ghost predicate Valid()
      reads this
    {
      cursor <= |slots|
    }

    /** `__init__` followed by `prepare()`; the empty dispatcher list is
        the caller's to rule out (see `NewDispatcherProvider`). */
    constructor (dispatchers: seq<string>, numJobs: int)
      requires |dispatchers| > 0
      ensures Prepared() && Valid() && cursor == 0
      ensures this.dispatchers == dispatchers && this.numJobs == numJobs
    {
      this.dispatchers := dispatchers;
      this.numJobs := numJobs;
      var cap := Cap(numJobs, |dispatchers|);
      this.maxJobsPerDispatcher := cap;
      this.slots := RepeatEach(dispatchers, cap);
      this.cursor := 0;
    }

    /** `provide()`: the next slot, or `Exhausted` once every slot has been
        handed out (the cursor then stays put). */
    method Provide() returns (r: Result<string, ProvideError>)
      requires Valid()
      modifies this
      ensures Valid()
      ensures old(cursor) < |slots| ==> r == Ok(slots[old(cursor)]) && cursor == old(cursor) + 1
      ensures old(cursor) == |slots| ==> r == Err(Exhausted) && cursor == old(cursor)
    {
      if cursor < |slots| {
        r := Ok(slots[cursor]);
        cursor := cursor + 1;
      } else {
        r := Err(Exhausted);
      }
    }
  }

  /** `DispatcherProvider`: holds one strategy and delegates to it. */
  class DispatcherProvider {
    const strategy: BlockStrategy

    ghost predicate Valid()
      reads this, strategy
    {
      strategy.Valid()
    }

    constructor (dispatchers: seq<string>, numJobs: int)
      requires |dispatchers| > 0
      ensures strategy.Prepared() && Valid() && fresh(strategy) && strategy.cursor == 0
      ensures strategy.dispatchers == dispatchers && strategy.numJobs == numJobs
    {
      strategy := new BlockStrategy(dispatchers, numJobs);
    }

    method Provide() returns (r: Result<string, ProvideError>)
      requires Valid()
      modifies strategy
      ensures Valid()
      ensures old(strategy.cursor) < |strategy.slots| ==>
        r == Ok(strategy.slots[old(strategy.cursor)]) && strategy.cursor == old(strategy.cursor) + 1
      ensures old(strategy.cursor) == |strategy.slots| ==>
        r == Err(Exhausted) && strategy.cursor == old(strategy.cursor)
    {
      r := strategy.Provide();
    }
  }

  /** `DispatcherProvider(dispatchers, num_jobs)` including its failure:
      an empty list divides by zero while the block strategy is prepared. */
  method NewDispatcherProvider(dispatchers: seq<string>, numJobs: int)
    returns (r: Result<DispatcherProvider, ProvideError>)
    ensures r.Err? <==> |dispatchers| == 0
    ensures r.Err? ==> r.error == DivisionByZero
    ensures r.Ok? ==> fresh(r.value) && fresh(r.value.strategy) && r.value.strategy.Prepared() && r.value.Valid()
    ensures r.Ok? ==> r.value.strategy.dispatchers == dispatchers && r.value.strategy.numJobs == numJobs
    ensures r.Ok? ==> r.value.strategy.cursor == 0
  {
    if |dispatchers| == 0 {
      return Err(DivisionByZero);
    }
    var provider := new DispatcherProvider(dispatchers, numJobs);
    return Ok(provider);
  }
}
