/** A directory tree seen as the kernel sees it: names that point at inodes, several to one. */
module Inodes {
  import opened Traces

  type Bytes = string

  /** `settled` says that the protocol owner and mode have been set. */
  datatype Inode = Inode(bytes: Bytes, settled: bool)

  datatype Directory<N(==)> = Directory(names: map<N, nat>, inodes: seq<Inode>) {

    ghost predicate HasName(i: nat)
    {
      exists n :: n in names && names[n] == i
    }

    /** Every name points at an inode and every inode has a name. */
    ghost predicate Valid()
    {
      && (forall n | n in names :: names[n] < |inodes|)
      && (forall i | 0 <= i < |inodes| :: HasName(i))
    }

    /** The link count of the inode behind a name. */
    function Links(n: N): nat
      requires n in names
    {
      |set m | m in names && names[m] == names[n]|
    }

    predicate IsOnlyName(n: N)
      requires n in names
    {
      forall m | m in names && names[m] == names[n] :: m == n
    }

    /** The name is there and shows exactly these bytes, with the protocol identity. */
    predicate Contains(n: N, bytes: Bytes)
    {
      n in names && names[n] < |inodes| && inodes[names[n]] == Inode(bytes, true)
    }

    function Create(n: N, settled: bool): Directory<N>
      requires n !in names
    {
      Directory(names[n := |inodes|], inodes + [Inode("", settled)])
    }

    function Append(n: N, chunk: Bytes): Directory<N>
      requires n in names && names[n] < |inodes|
    {
      var i := names[n];
      this.(inodes := inodes[i := inodes[i].(bytes := inodes[i].bytes + chunk)])
    }

    function Settle(n: N): Directory<N>
      requires n in names && names[n] < |inodes|
    {
      var i := names[n];
      this.(inodes := inodes[i := inodes[i].(settled := true)])
    }

    function Link(source: N, target: N): Directory<N>
      requires source in names && target !in names
    {
      this.(names := names[target := names[source]])
    }

    function Unlink(n: N): Directory<N>
    {
      this.(names := names - {n})
    }
  }

  // ----- single file operations

  datatype Operation<N> =
    | Created(name: N, settled: bool)
    | Appended(name: N, chunk: Bytes)
    | Settled(name: N)
    | LinkedTo(name: N, target: N)
    | Unlinked(name: N)

  /** Exclusive creation and linking need a free name, everything else one that is there. */
  predicate Possible<N(==)>(d: Directory<N>, op: Operation<N>)
  {
    match op
    case Created(n, _) => n !in d.names
    case Appended(n, _) => n in d.names && d.names[n] < |d.inodes|
    case Settled(n) => n in d.names && d.names[n] < |d.inodes|
    case LinkedTo(n, target) => n in d.names && target !in d.names
    case Unlinked(n) => n in d.names
  }

  function Performed<N(==)>(d: Directory<N>, op: Operation<N>): Directory<N>
    requires Possible(d, op)
  {
    match op
    case Created(n, settled) => d.Create(n, settled)
    case Appended(n, chunk) => d.Append(n, chunk)
    case Settled(n) => d.Settle(n)
    case LinkedTo(n, target) => d.Link(n, target)
    case Unlinked(n) => d.Unlink(n)
  }

  ghost predicate MicroStep<N(!new)>(d: Directory<N>, next: Directory<N>)
  {
    exists op :: Possible(d, op) && next == Performed(d, op)
  }

  lemma IsMicroStep<N(!new)>(d: Directory<N>, op: Operation<N>)
    requires Possible(d, op)
    ensures MicroStep(d, Performed(d, op))
  {
  }

  /** Every file operation from one directory to the other is in the trace. */
  ghost predicate Complete<N(!new)>(trace: seq<Directory<N>>, from: Directory<N>, to: Directory<N>)
  {
    Connected(trace, from, to, MicroStep<N>)
  }

  lemma Still<N(!new)>(d: Directory<N>)
    ensures Complete([d], d, d)
  {
    Stands(d, MicroStep<N>);
  }

  lemma Performs<N(!new)>(trace: seq<Directory<N>>, from: Directory<N>, to: Directory<N>, op: Operation<N>)
    requires Complete(trace, from, to) && Possible(to, op)
    ensures Complete(trace + [Performed(to, op)], from, Performed(to, op))
  {
    IsMicroStep(to, op);
    Continues(trace, from, to, Performed(to, op), MicroStep<N>);
  }

  lemma Follows<N(!new)>(
      a: seq<Directory<N>>, b: seq<Directory<N>>, from: Directory<N>, middle: Directory<N>, to: Directory<N>)
    requires Complete(a, from, middle) && Complete(b, middle, to)
    ensures Complete(a + b, from, to)
  {
    Joins(a, b, from, middle, to, MicroStep<N>);
  }

  // ----- every operation keeps every inode named

  lemma CreateKeepsNames<N>(d: Directory<N>, n: N, settled: bool)
    requires d.Valid() && n !in d.names
    ensures d.Create(n, settled).Valid()
  {
    var after := d.Create(n, settled);
    forall i | 0 <= i < |after.inodes| ensures after.HasName(i) {
      if i == |d.inodes| {
        assert after.names[n] == i;
      } else {
        assert d.HasName(i);
        var m :| m in d.names && d.names[m] == i;
        assert after.names[m] == i;
      }
    }
  }

  lemma WriteKeepsNames<N>(d: Directory<N>, i: nat, x: Inode)
    requires d.Valid() && i < |d.inodes|
    ensures d.(inodes := d.inodes[i := x]).Valid()
  {
    var after := d.(inodes := d.inodes[i := x]);
    assert forall k | 0 <= k < |d.inodes| :: d.HasName(k) ==> after.HasName(k);
  }

  lemma LinkKeepsNames<N>(d: Directory<N>, source: N, target: N)
    requires d.Valid() && source in d.names && target !in d.names
    ensures d.Link(source, target).Valid()
  {
    var after := d.Link(source, target);
    forall i | 0 <= i < |after.inodes| ensures after.HasName(i) {
      assert d.HasName(i);
      var m :| m in d.names && d.names[m] == i;
      assert after.names[m] == i;
    }
  }

  lemma UnlinkKeepsNames<N>(d: Directory<N>, n: N, kept: N)
    requires d.Valid() && n in d.names && kept in d.names && kept != n && d.names[kept] == d.names[n]
    ensures d.Unlink(n).Valid()
  {
    var after := d.Unlink(n);
    forall i | 0 <= i < |after.inodes| ensures after.HasName(i) {
      assert d.HasName(i);
      var m :| m in d.names && d.names[m] == i;
      assert after.names[if m == n then kept else m] == i;
    }
  }

  /** A link count of one means that no other name reaches the inode. */
  lemma OneLink<N>(d: Directory<N>, n: N)
    requires n in d.names
    ensures d.Links(n) == 1 <==> d.IsOnlyName(n)
  {
    var s := set m | m in d.names && d.names[m] == d.names[n];
    assert n in s;
    if d.IsOnlyName(n) {
      assert s == {n};
    } else {
      var m :| m in d.names && d.names[m] == d.names[n] && m != n;
      assert {n, m} <= s;
      Subset({n, m}, s);
    }
  }

  /** Two names of one inode are all its names exactly if its link count is two. */
  lemma TwoLinks<N>(d: Directory<N>, n: N, m: N)
    requires n in d.names && m in d.names && n != m && d.names[n] == d.names[m]
    ensures d.Links(n) == 2 <==> forall k | k in d.names && d.names[k] == d.names[n] :: k == n || k == m
  {
    var s := set k | k in d.names && d.names[k] == d.names[n];
    assert {n, m} <= s;
    if forall k | k in d.names && d.names[k] == d.names[n] :: k == n || k == m {
      assert s == {n, m};
    } else {
      var k :| k in d.names && d.names[k] == d.names[n] && k != n && k != m;
      assert {n, m, k} <= s;
      Subset({n, m, k}, s);
    }
  }

  lemma {:induction false} Subset<T>(a: set<T>, b: set<T>)
    requires a <= b
    ensures |a| <= |b|
  {
    assert b == a + (b - a) && |b| == |a| + |b - a|;
  }
}
