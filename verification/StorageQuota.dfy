/** Block-rounded demands and the admission of a write into a limited tree. */
module StorageQuota {
  datatype Demand = Demand(bytes: nat, nodes: nat) {
    function Plus(other: Demand): Demand
    {
      Demand(bytes + other.bytes, nodes + other.nodes)
    }

    predicate Within(limit: Demand)
    {
      bytes <= limit.bytes && nodes <= limit.nodes
    }
  }

  const NOTHING := Demand(0, 0)

  /** The bytes that a file of `size` bytes allocates in whole blocks of `unit` bytes. */
  function RoundUp(size: nat, unit: nat): (r: nat)
    requires unit > 0
    ensures size <= r < size + unit
  {
    ((size + unit - 1) / unit) * unit
  }

  /** No multiple of the block size at or above `size` is smaller than the rounded size. */
  lemma RoundUpIsLeast(size: nat, unit: nat, blocks: nat)
    requires unit > 0 && size <= blocks * unit
    ensures RoundUp(size, unit) <= blocks * unit
  {
    var least := (size + unit - 1) / unit;
    assert (blocks + 1) * unit == blocks * unit + unit;
    FewerBlocks(least, blocks + 1, unit);
    FewerBytes(least, blocks, unit);
  }

  lemma FewerBlocks(a: nat, b: nat, unit: nat)
    requires a * unit < b * unit
    ensures a < b
  {
    if b <= a { FewerBytes(b, a, unit); }
  }

  lemma FewerBytes(a: nat, b: nat, unit: nat)
    requires a <= b
    ensures a * unit <= b * unit
  {
  }

  lemma RoundUpMonotone(a: nat, b: nat, unit: nat)
    requires unit > 0 && a <= b
    ensures RoundUp(a, unit) <= RoundUp(b, unit)
  {
    RoundUpIsLeast(a, unit, (b + unit - 1) / unit);
  }

  /** Rounding two files separately costs at least as much as rounding them together. */
  lemma RoundUpSubadditive(a: nat, b: nat, unit: nat)
    requires unit > 0
    ensures RoundUp(a + b, unit) <= RoundUp(a, unit) + RoundUp(b, unit)
  {
    var i, j := (a + unit - 1) / unit, (b + unit - 1) / unit;
    assert i * unit + j * unit == (i + j) * unit;
    RoundUpIsLeast(a + b, unit, i + j);
  }

  function SumRounded(sizes: seq<nat>, unit: nat): nat
    requires unit > 0
  {
    if sizes == [] then 0 else RoundUp(sizes[0], unit) + SumRounded(sizes[1..], unit)
  }

  lemma {:induction false} SumRoundedAppend(a: seq<nat>, b: seq<nat>, unit: nat)
    requires unit > 0
    ensures SumRounded(a + b, unit) == SumRounded(a, unit) + SumRounded(b, unit)
  {
    if a == [] {
      assert a + b == b;
    } else {
      assert (a + b)[1..] == a[1..] + b;
      SumRoundedAppend(a[1..], b, unit);
    }
  }

  /** The projection of separately created files, summed one file at a time. */
  method DemandForFiles(sizes: seq<nat>, nodes: nat, unit: nat) returns (demand: Demand)
    requires unit > 0
    ensures demand == Demand(SumRounded(sizes, unit), nodes)
  {
    var total := 0;
    for i := 0 to |sizes|
      invariant total == SumRounded(sizes[..i], unit)
    {
      total := total + RoundUp(sizes[i], unit);
      assert sizes[..i + 1] == sizes[..i] + [sizes[i]];
      SumRoundedAppend(sizes[..i], [sizes[i]], unit);
    }
    assert sizes[..|sizes|] == sizes;
    return Demand(total, nodes);
  }

  /** A write is admitted if what is measured and what is demanded fit the limit together. */
  predicate Admits(measured: Demand, demand: Demand, limit: Demand)
  {
    measured.Plus(demand).Within(limit)
  }

  /** A new chain of records may start only while a root holds less than its soft limit. */
  predicate SoftOpen(held: Demand, soft: Demand)
  {
    held.bytes < soft.bytes && held.nodes < soft.nodes
  }
}
