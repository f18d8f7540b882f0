/** The measurement of a directory tree, and what an admitted write does to it. */
module StorageTree {
  import opened Options
  import opened StorageQuota

  type Name = nat

  /** `bytes` is what the node allocates; anything that is neither a file nor a directory is special. */
  datatype Tree =
    | File(bytes: nat, links: nat)
    | Special
    | Directory(bytes: nat, entries: Entries)

  /** The entries of a directory, in the order in which it lists them. */
  datatype Entries = NoEntries | Entry(name: Name, tree: Tree, rest: Entries)

  /** Nothing but directories and files with one name. */
  predicate Sound(t: Tree)
  {
    match t
    case File(_, links) => links == 1
    case Special => false
    case Directory(_, entries) => SoundEntries(entries, {})
  }

  predicate SoundEntries(entries: Entries, exclude: set<Name>)
  {
    entries.Entry? ==> (entries.name in exclude || Sound(entries.tree)) && SoundEntries(entries.rest, exclude)
  }

  /** What each node allocates, node by node. */
  function Nodes(t: Tree): seq<nat>
  {
    match t
    case File(bytes, _) => [bytes]
    case Special => [0]
    case Directory(bytes, entries) => [bytes] + NodesOf(entries, {})
  }

  function NodesOf(entries: Entries, exclude: set<Name>): seq<nat>
  {
    if entries.NoEntries? then []
    else if entries.name in exclude then NodesOf(entries.rest, exclude)
    else Nodes(entries.tree) + NodesOf(entries.rest, exclude)
  }

  function Total(sizes: seq<nat>): nat
  {
    if sizes == [] then 0 else sizes[0] + Total(sizes[1..])
  }

  /** Every node once, with all that it allocates. */
  function Held(nodes: seq<nat>): Demand
  {
    Demand(Total(nodes), |nodes|)
  }

  lemma {:induction false} TotalAppends(a: seq<nat>, b: seq<nat>)
    ensures Total(a + b) == Total(a) + Total(b)
  {
    if a == [] {
      assert a + b == b;
    } else {
      assert (a + b)[1..] == a[1..] + b;
      TotalAppends(a[1..], b);
    }
  }

  lemma {:induction false} HeldAppends(a: seq<nat>, b: seq<nat>)
    ensures Held(a + b) == Held(a).Plus(Held(b))
  {
    hide Total;
    TotalAppends(a, b);
  }

  lemma {:induction false} HeldOne(bytes: nat)
    ensures Held([bytes]) == Demand(bytes, 1)
  {
    assert [bytes][1..] == [];
    assert Total([bytes]) == bytes + Total([]);
  }

  /** The recursive walk with its running total; only direct entries of the root can be excluded. */
  method MeasureDirectory(bytes: nat, entries: Entries, exclude: set<Name>) returns (demand: Option<Demand>)
    ensures demand.Some? <==> SoundEntries(entries, exclude)
    ensures demand.Some? ==> demand.value == Held([bytes] + NodesOf(entries, exclude))
    decreases entries, 1
  {
    var total := Demand(bytes, 1);
    var rest := entries;
    HeldOne(bytes);
    HeldAppends([bytes], NodesOf(entries, exclude));
    while rest.Entry?
      invariant rest == entries || rest < entries
      invariant SoundEntries(entries, exclude) <==> SoundEntries(rest, exclude)
      invariant Held([bytes] + NodesOf(entries, exclude)) == total.Plus(Held(NodesOf(rest, exclude)))
      decreases rest
    {
      if rest.name !in exclude {
        var part := MeasureNode(rest.tree);
        if part.None? { return None; }
        HeldAppends(Nodes(rest.tree), NodesOf(rest.rest, exclude));
        total := total.Plus(part.value);
      }
      rest := rest.rest;
    }
    return Some(total);
  }

  method MeasureNode(t: Tree) returns (demand: Option<Demand>)
    ensures demand.Some? <==> Sound(t)
    ensures demand.Some? ==> demand.value == Held(Nodes(t))
    decreases t, 0
  {
    match t
    case Special => return None;
    case File(bytes, links) =>
      HeldOne(bytes);
      return if links == 1 then Some(Demand(bytes, 1)) else None;
    case Directory(bytes, entries) =>
      demand := MeasureDirectory(bytes, entries, {});
  }

  /** A new entry adds what it holds. */
  lemma {:induction false} EntryAdds(bytes: nat, entries: Entries, exclude: set<Name>, name: Name, tree: Tree)
    requires name !in exclude
    ensures Held([bytes] + NodesOf(Entry(name, tree, entries), exclude)) ==
      Held([bytes] + NodesOf(entries, exclude)).Plus(Held(Nodes(tree)))
  {
    var before, after := NodesOf(entries, exclude), NodesOf(Entry(name, tree, entries), exclude);
    HeldAppends([bytes], before);
    HeldAppends([bytes], after);
    HeldAppends(Nodes(tree), before);
  }

  // ----- admission

  const ROOT_HEADROOM := Demand(12 * 1024 * 1024 * 1024, 100_000)

  /** What the file system still has; some do not tell how many nodes. */
  datatype Free = Free(bytes: nat, nodes: Option<nat>)

  predicate HasHeadroom(free: Free, demand: Demand)
  {
    && demand.bytes + ROOT_HEADROOM.bytes <= free.bytes
    && (free.nodes.Some? ==> demand.nodes + ROOT_HEADROOM.nodes <= free.nodes.value)
  }

  /** The write fits the tree's limit, and the file system keeps its headroom. */
  predicate AdmitsWrite(measured: Demand, demand: Demand, limit: Demand, free: Free)
  {
    Admits(measured, demand, limit) && HasHeadroom(free, demand)
  }

  /**
   A new entry that holds no more than was admitted leaves the tree inside its limit and the
   headroom of the file system free.
   */
  lemma {:induction false} AdmittedEntryFits(
      bytes: nat, entries: Entries, exclude: set<Name>, name: Name, tree: Tree, demand: Demand, limit: Demand, free: Free)
    requires AdmitsWrite(Held([bytes] + NodesOf(entries, exclude)), demand, limit, free) && name !in exclude
    requires Held(Nodes(tree)).Within(demand)
    ensures Held([bytes] + NodesOf(Entry(name, tree, entries), exclude)).Within(limit)
    ensures Held(Nodes(tree)).bytes + ROOT_HEADROOM.bytes <= free.bytes
    ensures free.nodes.Some? ==> Held(Nodes(tree)).nodes + ROOT_HEADROOM.nodes <= free.nodes.value
  {
    EntryAdds(bytes, entries, exclude, name, tree);
  }
}
