/** Choosing which UTXOs to spend, as the three `SignPsbtMethod.tsx` components do it
    (src/components/bitcoin, bch and dogecoin): a set of `${hash}:${index}` keys toggled one
    UTXO at a time, the filter that turns it into the UTXOs handed to the builder, and the two
    value totals shown to the user. */
module UtxoSelection {
  import opened Wrappers
  import opened UtxoQueryClient
  import opened CoinSelection

  /** The key `${hash}:${index}`. The index is a number, whose text never holds ':', so two
      UTXOs share a key string exactly when they share hash and index; the pair stands for
      the string. */
  datatype UtxoKey = UtxoKey(hash: string, index: int)

  function KeyOf(u: Utxo): UtxoKey {
    UtxoKey(u.hash, u.index)
  }

  /** A JavaScript `Set` of keys: its insertion order, without repetitions. */
  predicate NoDuplicates(keys: seq<UtxoKey>) {
    forall i, j :: 0 <= i < j < |keys| ==> keys[i] != keys[j]
  }

  /** `Set.prototype.delete`. */
  function Remove(keys: seq<UtxoKey>, key: UtxoKey): (r: seq<UtxoKey>)
    ensures forall x :: x in r <==> x in keys && x != key
    ensures |r| <= |keys|
    ensures key !in keys ==> r == keys
  {
    if keys == [] then []
    else (if keys[0] == key then [] else [keys[0]]) + Remove(keys[1..], key)
  }

  lemma {:induction false} RemoveKeepsNoDuplicates(keys: seq<UtxoKey>, key: UtxoKey)
    requires NoDuplicates(keys)
    ensures NoDuplicates(Remove(keys, key))
  {
    if keys != [] {
      RemoveKeepsNoDuplicates(keys[1..], key);
      var rest := Remove(keys[1..], key);
      assert keys[0] !in keys[1..];
      assert keys[0] !in rest;
    }
  }

  /** Removing a key held once shortens the set by exactly one. */
  lemma {:induction false} RemoveLength(keys: seq<UtxoKey>, key: UtxoKey)
    requires NoDuplicates(keys) && key in keys
    ensures |Remove(keys, key)| == |keys| - 1
  {
    if keys[0] != key {
      RemoveLength(keys[1..], key);
    } else {
      assert key !in keys[1..];
    }
  }

  /** Deleting the key last added gives back the set before the addition. */
  lemma {:induction false} RemoveAppended(keys: seq<UtxoKey>, key: UtxoKey)
    requires key !in keys
    ensures Remove(keys + [key], key) == keys
  {
    if keys != [] {
      assert (keys + [key])[1..] == keys[1..] + [key];
      RemoveAppended(keys[1..], key);
    } else {
      assert ([key])[1..] == [];
    }
  }

  /** `handleToggleUtxo` on the key set: delete the key if present, add it otherwise. */
  function Toggle(keys: seq<UtxoKey>, key: UtxoKey): seq<UtxoKey> {
    if key in keys then Remove(keys, key) else keys + [key]
  }

  /** Toggling flips the membership of the toggled key and of no other key, and keeps the
      set free of repetitions; the set grows or shrinks by exactly one. */
  lemma ToggleFlipsOneKey(keys: seq<UtxoKey>, key: UtxoKey)
    requires NoDuplicates(keys)
    ensures (key in Toggle(keys, key)) <==> key !in keys
    ensures forall x :: x != key ==> (x in Toggle(keys, key) <==> x in keys)
    ensures NoDuplicates(Toggle(keys, key))
    ensures |Toggle(keys, key)| == if key in keys then |keys| - 1 else |keys| + 1
  {
    if key in keys {
      RemoveKeepsNoDuplicates(keys, key);
      RemoveLength(keys, key);
    }
  }

  /** Toggling the same UTXO twice restores the set; when the key was absent, even the
      insertion order is restored. */
  lemma ToggleTwice(keys: seq<UtxoKey>, key: UtxoKey)
    requires NoDuplicates(keys)
    ensures forall x :: x in Toggle(Toggle(keys, key), key) <==> x in keys
    ensures key !in keys ==> Toggle(Toggle(keys, key), key) == keys
  {
    ToggleFlipsOneKey(keys, key);
    ToggleFlipsOneKey(Toggle(keys, key), key);
    if key !in keys {
      RemoveAppended(keys, key);
    }
  }

  /** `utxos.filter((utxo) => selectedUtxos.has(key(utxo)))`. */
  function FilterSelected(utxos: seq<Utxo>, keys: seq<UtxoKey>): (r: seq<Utxo>)
    ensures |r| <= |utxos|
    ensures forall u :: u in r <==> u in utxos && KeyOf(u) in keys
  {
    if utxos == [] then []
    else (if KeyOf(utxos[0]) in keys then [utxos[0]] else []) + FilterSelected(utxos[1..], keys)
  }

  /** The filter keeps the list's order: filtering a concatenation concatenates the filtered
      parts. */
  lemma {:induction false} FilterSelectedConcat(a: seq<Utxo>, b: seq<Utxo>, keys: seq<UtxoKey>)
    ensures FilterSelected(a + b, keys) == FilterSelected(a, keys) + FilterSelected(b, keys)
  {
    if a != [] {
      assert (a + b)[1..] == a[1..] + b;
      FilterSelectedConcat(a[1..], b, keys);
    } else {
      assert a + b == b;
    }
  }

  /** Selecting every UTXO's key keeps the whole list, in order. */
  lemma {:induction false} FilterSelectedAll(utxos: seq<Utxo>, keys: seq<UtxoKey>)
    requires forall i :: 0 <= i < |utxos| ==> KeyOf(utxos[i]) in keys
    ensures FilterSelected(utxos, keys) == utxos
  {
    if utxos != [] {
      FilterSelectedAll(utxos[1..], keys);
    }
  }

  const NoUtxos: string := "No UTXOs available for this address."

  /** The UTXOs handed to the builder: the selected ones in list order, or all of them when
      nothing is selected; none at all is an error. */
  function UtxosToUse(utxos: seq<Utxo>, selected: seq<UtxoKey>): (r: Result<seq<Utxo>>)
    ensures r.Err? ==> r.error == NoUtxos
    ensures r.Ok? ==> r.value != []
    ensures r.Ok? ==> forall u :: u in r.value <==> u in utxos && (selected == [] || KeyOf(u) in selected)
    ensures r.Ok? && selected == [] ==> r.value == utxos
    ensures r.Ok? && selected != [] ==> r.value == FilterSelected(utxos, selected)
    ensures r.Err? <==> forall u :: u in utxos ==> selected != [] && KeyOf(u) !in selected
  {
    var toUse := if |selected| > 0 then FilterSelected(utxos, selected) else utxos;
    if |toUse| == 0 then Err(NoUtxos)
    else
      assert toUse[0] in toUse;
      Ok(toUse)
  }

  /** The Bitcoin Cash list keeps only UTXOs that came with their previous transaction
      (`!!u.hex`: present and non-empty), in their original order. */
  function KeepWithHex(fetched: seq<Utxo>): (r: seq<Utxo>)
    ensures |r| <= |fetched|
    ensures forall u :: u in r <==> u in fetched && u.hex.Some? && u.hex.value != ""
  {
    if fetched == [] then []
    else
      (if fetched[0].hex.Some? && fetched[0].hex.value != "" then [fetched[0]] else [])
      + KeepWithHex(fetched[1..])
  }

  lemma {:induction false} KeepWithHexConcat(a: seq<Utxo>, b: seq<Utxo>)
    ensures KeepWithHex(a + b) == KeepWithHex(a) + KeepWithHex(b)
  {
    if a != [] {
      assert (a + b)[1..] == a[1..] + b;
      KeepWithHexConcat(a[1..], b);
    } else {
      assert a + b == b;
    }
  }

  // ---------------------------------------------------------------------------
  // Totals
  // ---------------------------------------------------------------------------

  /** `utxos.find((u) => key(u) === key)?.value || 0n`. */
  function ValueOfKey(utxos: seq<Utxo>, key: UtxoKey): (v: int)
    ensures (forall u :: u in utxos ==> KeyOf(u) != key) ==> v == 0
    ensures forall i :: (0 <= i < |utxos| && KeyOf(utxos[i]) == key
      && (forall j :: 0 <= j < i ==> KeyOf(utxos[j]) != key)) ==> v == utxos[i].value
  {
    if utxos == [] then 0
    else if KeyOf(utxos[0]) == key then utxos[0].value
    else ValueOfKey(utxos[1..], key)
  }

  /** `totalSelectedValue`: the values of the selected keys, a key without a UTXO adding 0. */
  function TotalSelectedValue(utxos: seq<Utxo>, selected: seq<UtxoKey>): int {
    if selected == [] then 0 else ValueOfKey(utxos, selected[0]) + TotalSelectedValue(utxos, selected[1..])
  }

  /** `totalUtxosValue`: `reduce` with `sum + utxo.value` from the front, here started at `sum`
      (the source starts at 0). */
  function TotalUtxosValueFrom(sum: int, utxos: seq<Utxo>): int
    decreases utxos
  {
    if utxos == [] then sum else TotalUtxosValueFrom(sum + utxos[0].value, utxos[1..])
  }

  /** The left fold adds up to the same total as the right-recursive `Total`. */
  lemma {:induction false} TotalUtxosValueIsTotal(sum: int, utxos: seq<Utxo>)
    ensures TotalUtxosValueFrom(sum, utxos) == sum + Total(utxos)
    decreases utxos
  {
    if utxos != [] {
      TotalUtxosValueIsTotal(sum + utxos[0].value, utxos[1..]);
    }
  }

  lemma {:induction false} TotalSelectedAppend(utxos: seq<Utxo>, selected: seq<UtxoKey>, key: UtxoKey)
    ensures TotalSelectedValue(utxos, selected + [key]) == TotalSelectedValue(utxos, selected) + ValueOfKey(utxos, key)
  {
    if selected != [] {
      assert (selected + [key])[1..] == selected[1..] + [key];
      TotalSelectedAppend(utxos, selected[1..], key);
    } else {
      assert ([key])[1..] == [];
    }
  }

  lemma {:induction false} TotalSelectedRemove(utxos: seq<Utxo>, selected: seq<UtxoKey>, key: UtxoKey)
    requires NoDuplicates(selected) && key in selected
    ensures TotalSelectedValue(utxos, Remove(selected, key)) == TotalSelectedValue(utxos, selected) - ValueOfKey(utxos, key)
  {
    if selected[0] != key {
      TotalSelectedRemove(utxos, selected[1..], key);
    } else {
      assert key !in selected[1..];
      assert Remove(selected, key) == selected[1..];
    }
  }

  /** Toggling a UTXO moves the selected total by exactly that UTXO's value: up when it is
      added, down when it is removed. */
  lemma ToggleMovesTotal(utxos: seq<Utxo>, selected: seq<UtxoKey>, key: UtxoKey)
    requires NoDuplicates(selected)
    ensures TotalSelectedValue(utxos, Toggle(selected, key)) ==
      TotalSelectedValue(utxos, selected) + (if key in selected then -ValueOfKey(utxos, key) else ValueOfKey(utxos, key))
  {
    if key in selected {
      TotalSelectedRemove(utxos, selected, key);
    } else {
      TotalSelectedAppend(utxos, selected, key);
    }
  }
}
