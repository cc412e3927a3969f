/** Fee estimation and coin selection, shared by src/lib/tx/btc/psbtBuilder.ts and
    src/lib/tx/bch/psbtBuilder.ts (the two copies are identical): the UTXOs are sorted by value,
    smallest first and stably, and the shortest prefix whose total covers the amount plus the
    estimated fee is spent. */
module CoinSelection {
  import opened Wrappers
  import opened UtxoQueryClient

  // ---------------------------------------------------------------------------
  // Fee estimate
  // ---------------------------------------------------------------------------

  const BaseTxSize: int := 10
  const InputSize: int := 148
  const OutputSize: int := 34

  /** The selection always plans for two outputs: destination and change. */
  const PlannedOutputs: nat := 2

  /** `estimateFee`: the size heuristic in bytes times the fee rate per byte. */
  function EstimateFee(inputCount: int, outputCount: int, feeRate: int): int {
    (BaseTxSize + inputCount * InputSize + outputCount * OutputSize) * feeRate
  }

  /** With no inputs and no outputs only the base size is paid. */
  lemma EstimateFeeEmpty(feeRate: int)
    ensures EstimateFee(0, 0, feeRate) == 10 * feeRate
  {
  }

  /** Each extra input costs 148 bytes at the rate, each extra output 34. */
  lemma EstimateFeeSteps(i: int, o: int, feeRate: int)
    ensures EstimateFee(i + 1, o, feeRate) == EstimateFee(i, o, feeRate) + 148 * feeRate
    ensures EstimateFee(i, o + 1, feeRate) == EstimateFee(i, o, feeRate) + 34 * feeRate
  {
  }

  /** For a non-negative rate the fee does not decrease with more inputs or outputs, and for
      a non-negative size it does not decrease with a higher rate. */
  lemma EstimateFeeMonotone(i: int, i': int, o: int, o': int, r: int, r': int)
    requires 0 <= i <= i' && 0 <= o <= o' && 0 <= r <= r'
    ensures EstimateFee(i, o, r) <= EstimateFee(i', o', r)
    ensures EstimateFee(i, o, r) <= EstimateFee(i, o, r')
  {
    var size := BaseTxSize + i * InputSize + o * OutputSize;
    var size' := BaseTxSize + i' * InputSize + o' * OutputSize;
    assert size <= size';
    assert size * r <= size' * r;
    assert 0 <= size;
    assert size * r <= size * r';
  }

  // ---------------------------------------------------------------------------
  // Stable sort by value
  // ---------------------------------------------------------------------------

  predicate SortedByValue(s: seq<Utxo>) {
    forall i, j :: 0 <= i < j < |s| ==> s[i].value <= s[j].value
  }

  /** The elements of `s` whose value is `v`, in their order in `s`. */
  function WithValue(s: seq<Utxo>, v: int): seq<Utxo> {
    if s == [] then [] else (if s[0].value == v then [s[0]] else []) + WithValue(s[1..], v)
  }

  /** `u` placed before the first element whose value is not smaller. */
  function InsertByValue(u: Utxo, s: seq<Utxo>): seq<Utxo> {
    if s == [] || u.value <= s[0].value then [u] + s else [s[0]] + InsertByValue(u, s[1..])
  }

  /** `[...utxos].sort((a, b) => a.value < b.value ? -1 : a.value > b.value ? 1 : 0)`; the
      comparator returns 0 on equal values and the sort is stable, so equal values keep their
      input order. */
  function SortByValue(s: seq<Utxo>): seq<Utxo> {
    if s == [] then [] else InsertByValue(s[0], SortByValue(s[1..]))
  }

  lemma {:induction false} InsertByValuePermutation(u: Utxo, s: seq<Utxo>)
    ensures multiset(InsertByValue(u, s)) == multiset([u] + s)
  {
    if s != [] && u.value > s[0].value {
      InsertByValuePermutation(u, s[1..]);
      assert s == [s[0]] + s[1..];
    }
  }

  lemma {:induction false} InsertByValueBounded(u: Utxo, s: seq<Utxo>, m: int)
    requires u.value >= m && forall i :: 0 <= i < |s| ==> s[i].value >= m
    ensures forall i :: 0 <= i < |InsertByValue(u, s)| ==> InsertByValue(u, s)[i].value >= m
  {
    if s != [] && u.value > s[0].value {
      InsertByValueBounded(u, s[1..], m);
    }
  }

  lemma {:induction false} InsertByValueSorted(u: Utxo, s: seq<Utxo>)
    requires SortedByValue(s)
    ensures SortedByValue(InsertByValue(u, s))
  {
    if s != [] && u.value > s[0].value {
      InsertByValueSorted(u, s[1..]);
      InsertByValueBounded(u, s[1..], s[0].value);
      var t := InsertByValue(u, s[1..]);
      assert InsertByValue(u, s) == [s[0]] + t;
    }
  }

  /** Inserting `u` keeps every run of equal values in order, with `u` at the head of its own
      run: the elements it skips are all smaller. */
  lemma {:induction false} InsertByValueKeepsRuns(u: Utxo, s: seq<Utxo>, v: int)
    ensures WithValue(InsertByValue(u, s), v) == WithValue([u] + s, v)
  {
    if s != [] && u.value > s[0].value {
      InsertByValueKeepsRuns(u, s[1..], v);
      var t := InsertByValue(u, s);
      assert t[1..] == InsertByValue(u, s[1..]);
      assert ([u] + s)[1..] == s;
      assert ([u] + s[1..])[1..] == s[1..];
    } else {
      assert ([u] + s)[1..] == s;
    }
  }

  /** The sort returns the same UTXOs, in ascending order of value. */
  lemma {:induction false} SortByValueSortedPermutation(s: seq<Utxo>)
    ensures SortedByValue(SortByValue(s))
    ensures multiset(SortByValue(s)) == multiset(s)
    ensures |SortByValue(s)| == |s|
  {
    if s != [] {
      SortByValueSortedPermutation(s[1..]);
      InsertByValueSorted(s[0], SortByValue(s[1..]));
      InsertByValuePermutation(s[0], SortByValue(s[1..]));
      assert s == [s[0]] + s[1..];
      assert |multiset(SortByValue(s))| == |multiset(s)|;
    }
  }

  /** The sort is stable: the UTXOs of any one value appear in their input order. */
  lemma {:induction false} SortByValueStable(s: seq<Utxo>, v: int)
    ensures WithValue(SortByValue(s), v) == WithValue(s, v)
  {
    if s != [] {
      SortByValueStable(s[1..], v);
      InsertByValueKeepsRuns(s[0], SortByValue(s[1..]), v);
      assert ([s[0]] + SortByValue(s[1..]))[1..] == SortByValue(s[1..]);
    }
  }

  // ---------------------------------------------------------------------------
  // Totals
  // ---------------------------------------------------------------------------

  /** `reduce((sum, utxo) => sum + utxo.value, 0n)`. */
  function Total(s: seq<Utxo>): int {
    if s == [] then 0 else s[0].value + Total(s[1..])
  }

  lemma {:induction false} TotalAppend(s: seq<Utxo>, u: Utxo)
    ensures Total(s + [u]) == Total(s) + u.value
  {
    if s != [] {
      assert (s + [u])[1..] == s[1..] + [u];
      TotalAppend(s[1..], u);
    }
  }

  lemma {:induction false} TotalInsert(u: Utxo, s: seq<Utxo>)
    ensures Total(InsertByValue(u, s)) == u.value + Total(s)
  {
    if s != [] && u.value > s[0].value {
      TotalInsert(u, s[1..]);
      assert InsertByValue(u, s)[1..] == InsertByValue(u, s[1..]);
    } else {
      assert ([u] + s)[1..] == s;
    }
  }

  /** Sorting does not change the total. */
  lemma {:induction false} TotalSort(s: seq<Utxo>)
    ensures Total(SortByValue(s)) == Total(s)
  {
    if s != [] {
      TotalSort(s[1..]);
      TotalInsert(s[0], SortByValue(s[1..]));
    }
  }

  // ---------------------------------------------------------------------------
  // Selection
  // ---------------------------------------------------------------------------

  const InsufficientFunds: string := "Insufficient funds to cover amount and fees"

  /** The first `k` sorted UTXOs pay the amount plus the fee of a `k`-input, two-output
      transaction. */
  predicate Covers(sorted: seq<Utxo>, k: nat, amount: int, feeRate: int)
    requires k <= |sorted|
  {
    Total(sorted[..k]) >= amount + EstimateFee(k, PlannedOutputs, feeRate)
  }

  /** Where the loop stops when it has looked at the first `k` UTXOs without stopping: the
      first non-empty covering prefix length from `k` on, or the whole list. */
  function StopFrom(sorted: seq<Utxo>, amount: int, feeRate: int, k: nat): (stop: nat)
    requires k <= |sorted|
    ensures k <= stop <= |sorted|
    ensures stop < |sorted| ==> stop >= 1 && Covers(sorted, stop, amount, feeRate)
    ensures forall j :: k <= j < stop && j >= 1 ==> !Covers(sorted, j, amount, feeRate)
    decreases |sorted| - k
  {
    if k == |sorted| || (k >= 1 && Covers(sorted, k, amount, feeRate)) then k
    else StopFrom(sorted, amount, feeRate, k + 1)
  }

  /** The number of UTXOs the loop takes. */
  function StopIndex(sorted: seq<Utxo>, amount: int, feeRate: int): (stop: nat)
    ensures stop <= |sorted| && (sorted != [] ==> stop >= 1)
    ensures stop < |sorted| ==> Covers(sorted, stop, amount, feeRate)
    ensures forall j :: 1 <= j < stop ==> !Covers(sorted, j, amount, feeRate)
  {
    StopFrom(sorted, amount, feeRate, 0)
  }

  /** The loop's stopping point is the one `StopFrom` names. */
  lemma {:induction false} StopFromIs(sorted: seq<Utxo>, amount: int, feeRate: int, k: nat, stop: nat)
    requires k <= stop <= |sorted|
    requires forall j :: k <= j < stop && j >= 1 ==> !Covers(sorted, j, amount, feeRate)
    requires stop == |sorted| || (stop >= 1 && Covers(sorted, stop, amount, feeRate))
    ensures StopFrom(sorted, amount, feeRate, k) == stop
    decreases stop - k
  {
    if k < stop {
      StopFromIs(sorted, amount, feeRate, k + 1, stop);
    }
  }

  /** `selectUtxos`, as a specification: the sorted list cut where the loop stops, if that
      prefix passes the final check. */
  function Select(utxos: seq<Utxo>, amount: int, feeRate: int): Result<seq<Utxo>> {
    var sorted := SortByValue(utxos);
    SortByValueSortedPermutation(utxos);
    var k := StopIndex(sorted, amount, feeRate);
    if Covers(sorted, k, amount, feeRate) then Ok(sorted[..k]) else Err(InsufficientFunds)
  }

  /** `selectUtxos`: copy and sort, then take UTXOs one by one until the running total covers
      the amount and the fee for the inputs taken so far. */
  method SelectUtxos(utxos: seq<Utxo>, amount: int, feeRate: int) returns (r: Result<seq<Utxo>>)
    ensures r == Select(utxos, amount, feeRate)
  {
    var sorted := SortByValue(utxos);
    SortByValueSortedPermutation(utxos);
    var total := 0;
    var selected: seq<Utxo> := [];
    var i := 0;
    while i < |sorted|
      invariant 0 <= i <= |sorted|
      invariant selected == sorted[..i]
      invariant total == Total(selected)
      invariant forall j :: 1 <= j <= i ==> !Covers(sorted, j, amount, feeRate)
    {
      TotalAppend(selected, sorted[i]);
      assert sorted[..i + 1] == sorted[..i] + [sorted[i]];
      selected := selected + [sorted[i]];
      total := total + sorted[i].value;
      i := i + 1;
      if total >= amount + EstimateFee(|selected|, PlannedOutputs, feeRate) {
        break;
      }
    }
    StopFromIs(sorted, amount, feeRate, 0, i);
    var finalEstimatedFee := EstimateFee(|selected|, PlannedOutputs, feeRate);
    if total < amount + finalEstimatedFee {
      return Err(InsufficientFunds);
    }
    return Ok(selected);
  }

  /** A selection is a prefix of the stably sorted UTXOs that covers the amount plus the fee
      for its own size, and no shorter non-empty prefix does; it is non-empty when there is
      anything to select. */
  lemma SelectIsShortestCoveringPrefix(utxos: seq<Utxo>, amount: int, feeRate: int)
    requires Select(utxos, amount, feeRate).Ok?
    ensures var selected := Select(utxos, amount, feeRate).value;
      var sorted := SortByValue(utxos);
      && |selected| <= |sorted| && selected == sorted[..|selected|]
      && Total(selected) >= amount + EstimateFee(|selected|, PlannedOutputs, feeRate)
      && (forall j :: 1 <= j < |selected| ==> !Covers(sorted, j, amount, feeRate))
      && (utxos != [] ==> selected != [])
  {
    SortByValueSortedPermutation(utxos);
  }

  /** Every selected UTXO is one of the given UTXOs. */
  lemma SelectDrawsFromInput(utxos: seq<Utxo>, amount: int, feeRate: int)
    requires Select(utxos, amount, feeRate).Ok?
    ensures forall u :: u in Select(utxos, amount, feeRate).value ==> u in utxos
  {
    var sorted := SortByValue(utxos);
    SortByValueSortedPermutation(utxos);
    var selected := Select(utxos, amount, feeRate).value;
    assert selected == sorted[..|selected|];
    forall u | u in selected
      ensures u in utxos
    {
      assert u in sorted;
      assert u in multiset(sorted);
    }
  }

  /** Selection fails exactly when no prefix the loop can stop at covers: no non-empty prefix
      at all, or, for an empty list, the empty one. */
  lemma SelectFailsIffNoPrefixCovers(utxos: seq<Utxo>, amount: int, feeRate: int)
    ensures var sorted := SortByValue(utxos);
      Select(utxos, amount, feeRate).Err? <==>
        forall k: nat :: (sorted == [] || 1 <= k) && k <= |sorted| ==> !Covers(sorted, k, amount, feeRate)
  {
    SortByValueSortedPermutation(utxos);
  }

  /** A failed selection means even all UTXOs together are short. */
  lemma SelectFailureMeansTotalShort(utxos: seq<Utxo>, amount: int, feeRate: int)
    requires Select(utxos, amount, feeRate).Err?
    ensures Total(utxos) < amount + EstimateFee(|utxos|, PlannedOutputs, feeRate)
  {
    var sorted := SortByValue(utxos);
    SortByValueSortedPermutation(utxos);
    var k := StopIndex(sorted, amount, feeRate);
    assert !Covers(sorted, k, amount, feeRate);
    assert k == |sorted| && sorted[..k] == sorted;
    assert Total(sorted) < amount + EstimateFee(|sorted|, PlannedOutputs, feeRate);
    TotalSort(utxos);
    assert |sorted| == |utxos|;
  }

  /** The total of `k` values each below `c` is below `k * c`. */
  lemma {:induction false} TotalBelow(s: seq<Utxo>, c: int)
    requires s != [] && forall i :: 0 <= i < |s| ==> s[i].value < c
    ensures Total(s) < |s| * c
  {
    if |s| > 1 {
      TotalBelow(s[1..], c);
    }
  }

  /** Once the amount plus the fee of an input-less transaction is non-negative, a covering
      non-empty prefix of a sorted list stays covering as it grows: a UTXO too small to pay for
      its own 148 bytes would make every earlier, no larger UTXO too small as well. */
  lemma {:induction false} CoveringPrefixGrows(sorted: seq<Utxo>, amount: int, feeRate: int, k: nat)
    requires SortedByValue(sorted) && 1 <= k < |sorted|
    requires amount + EstimateFee(0, PlannedOutputs, feeRate) >= 0
    requires Covers(sorted, k, amount, feeRate)
    ensures Covers(sorted, k + 1, amount, feeRate)
  {
    var c := InputSize * feeRate;
    assert sorted[..k + 1] == sorted[..k] + [sorted[k]];
    TotalAppend(sorted[..k], sorted[k]);
    if sorted[k].value < c {
      assert forall i :: 0 <= i < k ==> sorted[..k][i].value < c;
      TotalBelow(sorted[..k], c);
      assert false;
    }
  }

  lemma {:induction false} CoveringPrefixReachesEnd(sorted: seq<Utxo>, amount: int, feeRate: int, k: nat)
    requires SortedByValue(sorted) && 1 <= k <= |sorted|
    requires amount + EstimateFee(0, PlannedOutputs, feeRate) >= 0
    requires Covers(sorted, k, amount, feeRate)
    ensures Covers(sorted, |sorted|, amount, feeRate)
    decreases |sorted| - k
  {
    if k < |sorted| {
      CoveringPrefixGrows(sorted, amount, feeRate, k);
      CoveringPrefixReachesEnd(sorted, amount, feeRate, k + 1);
    }
  }

  /** "Insufficient funds" is thrown exactly when the sum of all UTXOs is below the amount plus
      the fee for spending them all, provided the amount plus the fee of a transaction without
      inputs is not negative (always so for a non-negative amount and rate). */
  lemma SelectFailsIffTotalShort(utxos: seq<Utxo>, amount: int, feeRate: int)
    requires amount + EstimateFee(0, PlannedOutputs, feeRate) >= 0
    ensures Select(utxos, amount, feeRate).Err? <==>
      Total(utxos) < amount + EstimateFee(|utxos|, PlannedOutputs, feeRate)
  {
    if Select(utxos, amount, feeRate).Err? {
      SelectFailureMeansTotalShort(utxos, amount, feeRate);
    } else if utxos != [] {
      var sorted := SortByValue(utxos);
      SortByValueSortedPermutation(utxos);
      var k := StopIndex(sorted, amount, feeRate);
      assert Covers(sorted, k, amount, feeRate);
      CoveringPrefixReachesEnd(sorted, amount, feeRate, k);
      assert sorted[..|sorted|] == sorted;
      TotalSort(utxos);
    }
  }

  /** Without that proviso the equivalence fails: with a negative amount a short prefix can
      cover although the whole list does not. */
  lemma SelectCanSucceedWhenTotalShort()
    ensures var utxos := [Utxo(0, "a", 0, None), Utxo(1, "a", 0, None)];
      && Select(utxos, -250, 1) == Ok([utxos[0]])
      && Total(utxos) < -250 + EstimateFee(|utxos|, PlannedOutputs, 1)
  {
    var utxos := [Utxo(0, "a", 0, None), Utxo(1, "a", 0, None)];
    var sorted := SortByValue(utxos);
    assert sorted == utxos;
    assert sorted[..1] == [utxos[0]];
    assert Covers(sorted, 1, -250, 1);
    assert StopIndex(sorted, -250, 1) == 1;
  }
}
