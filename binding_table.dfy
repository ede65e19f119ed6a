/** The binding table that `Material` and `ResourceDescriptor` keep: a map
    from binding number to the layout binding and resource bound there, and
    the descriptor-set layout built from it.

    Both build functions (src/Material.cpp:85-97, src/ResourceDescriptor.cpp:22-25)
    size a vector by the table's size and then read `resources_[i]` for
    `i < resources_.size()`, re-reading the size every round. `operator[]`
    inserts a value-initialised entry for a missing key, so when the bound
    numbers are not exactly `0..n-1` the table grows during the loop and the
    write `bindings[n]` lands past the vector's end. `BuildBySlotAsWritten`
    models that loop; `LayoutBindings` is the intended layout (one binding per
    bound number, in ascending order), which the rest of the model uses. */
module BindingTable {
  import opened Vk
  import opened Ordered

  /** Every number below the table's size is bound: the bound numbers are
      exactly `0..n-1`. */
  predicate Dense(table: map<nat, Entry>) {
    forall k: nat :: k < |table| ==> k in table
  }

  /** The bound numbers in ascending order. */
  function Keys(table: map<nat, Entry>): (r: seq<nat>)
    ensures |r| == |table|
    ensures forall i :: 0 <= i < |r| ==> r[i] in table
  {
    assert |table.Keys| == |table|;
    Ascending(table.Keys)
  }

  /** Every bound number is listed, once, in increasing order. */
  lemma KeysSorted(table: map<nat, Entry>)
    ensures forall k :: k in table ==> k in Keys(table)
    ensures forall i, j :: 0 <= i < j < |Keys(table)| ==> Keys(table)[i] < Keys(table)[j]
  {
    AscendingSorted(table.Keys);
  }

  /** The layout that the table describes: element `i` is the layout binding
      stored under the `i`-th bound number. */
  function LayoutBindings(table: map<nat, Entry>): (r: seq<LayoutBinding>)
    ensures |r| == |table|
    ensures forall i :: 0 <= i < |r| ==> r[i] == table[Keys(table)[i]].layout
  {
    var keys := Keys(table);
    seq(|keys|, i requires 0 <= i < |keys| => table[keys[i]].layout)
  }

  /** On a dense table the layout is read slot by slot: element `i` comes from
      key `i`. */
  lemma DenseLayoutBySlot(table: map<nat, Entry>)
    requires Dense(table)
    ensures forall k :: k in table ==> k < |table|
    ensures LayoutBindings(table) == seq(|table|, i requires 0 <= i < |table| => table[i].layout)
  {
    assert |table.Keys| == |table|;
    AscendingDense(table.Keys);
  }

  /** Every bound entry contributes exactly one element, in key order, so a
      layout never holds two bindings from the same key. */
  lemma LayoutCoversTable(table: map<nat, Entry>, k: nat)
    requires k in table
    ensures exists i :: 0 <= i < |table| && Keys(table)[i] == k
                        && LayoutBindings(table)[i] == table[k].layout
  {
    var keys := Keys(table);
    KeysSorted(table);
    var i :| 0 <= i < |keys| && keys[i] == k;
  }

  datatype LayoutOutcome =
    | Built(bindings: seq<LayoutBinding>)
    /** The loop wrote `bindings[index]` of a vector of `index` elements. */
    | WrittenPastEnd(index: nat)

  /** The build loop as written: `bindings(n)`, then `bindings[i] = table[i]`
      while `i < table.size()`, inserting a default entry for each missing
      key. It returns the layout and the table as the loop leaves it. */
  method BuildBySlotAsWritten(table: map<nat, Entry>) returns (out: LayoutOutcome, after: map<nat, Entry>)
    ensures Dense(table) ==> after == table
    ensures Dense(table) ==> out == Built(seq(|table|, i requires 0 <= i < |table| => table[i].layout))
    ensures !Dense(table) ==> out == WrittenPastEnd(|table|)
    ensures !Dense(table) ==> forall k: nat :: k in after <==> k in table || k <= |table|
    ensures forall k :: k in table ==> k in after && after[k] == table[k]
    ensures forall k :: k in after && k !in table ==> after[k] == DefaultEntry
  {
    var n := |table|;
    var bindings := new LayoutBinding[n](_ => DefaultLayoutBinding);
    var res: map<nat, Entry> := table;
    var i: nat := 0;
    while i < |res|
      invariant i <= n && bindings.Length == n
      invariant forall k: nat :: k in res <==> k in table || k < i
      invariant forall k: nat :: k in table ==> res[k] == table[k]
      invariant forall k: nat :: k in res && k !in table ==> res[k] == DefaultEntry
      invariant forall j :: 0 <= j < i ==> bindings[j] == res[j].layout
      decreases n - i
    {
      if i >= bindings.Length {
        InsertedWitness(table, res, i);
        if i !in res {
          res := res[i := DefaultEntry];
        }
        return WrittenPastEnd(i), res;
      }
      if i !in res {
        res := res[i := DefaultEntry];
      }
      bindings[i] := res[i].layout;
      i := i + 1;
    }
    NothingInserted(table, res, i);
    assert forall j :: 0 <= j < i ==> bindings[..][j] == table[j].layout;
    return Built(bindings[..]), res;
  }

  /** The loop stopped at `i == n` with the table larger than `n`: some
      missing number below `n` was inserted, so the table was not dense. */
  lemma InsertedWitness(table: map<nat, Entry>, res: map<nat, Entry>, n: nat)
    requires n == |table| && n < |res|
    requires forall k: nat :: k in res <==> k in table || k < n
    ensures !Dense(table)
  {
    assert table.Keys <= res.Keys;
    assert |table.Keys| == |table| && |res.Keys| == |res|;
    assert table.Keys != res.Keys;
    var k :| k in res.Keys && k !in table.Keys;
  }

  /** The loop ran to the end: nothing was inserted, so the table is dense. */
  lemma NothingInserted(table: map<nat, Entry>, res: map<nat, Entry>, i: nat)
    requires i <= |table| && |res| <= i
    requires forall k: nat :: k in res <==> k in table || k < i
    requires forall k: nat :: k in table ==> res[k] == table[k]
    ensures Dense(table) && res == table && i == |table|
  {
    assert table.Keys <= res.Keys;
    assert |table.Keys| == |table| && |res.Keys| == |res|;
    SubsetSize(table.Keys, res.Keys);
  }

  /** The loop as written completes exactly on a dense table, and then
      builds the intended layout and leaves the table as it was. */
  method AsWrittenAgreesWhenDense(table: map<nat, Entry>) returns (out: LayoutOutcome, after: map<nat, Entry>)
    ensures out.Built? <==> Dense(table)
    ensures out.Built? ==> out.bindings == LayoutBindings(table) && after == table
  {
    out, after := BuildBySlotAsWritten(table);
    if Dense(table) {
      DenseLayoutBySlot(table);
    }
  }

  /** Bindings 0 and 2 bound: the loop inserts a default at 1, the table
      grows to three entries, and the third round writes `bindings[2]` of a
      two-element vector, where the intended layout has two elements. */
  method GapIsWrittenPastEnd(e0: Entry, e2: Entry) returns (out: LayoutOutcome, after: map<nat, Entry>)
    ensures out == WrittenPastEnd(2)
    ensures after == map[0 := e0, 1 := DefaultEntry, 2 := e2]
    ensures |LayoutBindings(map[0 := e0, 2 := e2])| == 2
  {
    var t := map[0 := e0, 2 := e2];
    assert t.Keys == {0, 2};
    assert |t| == 2;
    assert 1 !in t;
    out, after := BuildBySlotAsWritten(t);
    assert forall k: nat :: k in after <==> k in {0, 1, 2};
    assert after.Keys == {0, 1, 2};
  }
}
