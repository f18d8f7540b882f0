/**
 The agent's result and bundle directories: a publication writes a randomly named temporary, links
 it to its final name and unlinks it; recovery cleans up after a crash at any of these operations.
 The publication lock serialises both, so one at a time is modelled.
 */
module ResultSpool {
  import opened Inodes

  type Job = nat

  /**
   The temporary of a result carries the final name, that of a bundle does not: a bundle is named
   by the digest of its bytes, for which the bytes themselves stand here.
   */
  datatype Name =
    | Result(job: Job)
    | ResultTemporary(job: Job, token: nat)
    | Bundle(of: Bytes)
    | BundleTemporary(token: nat)

  type Spool = Directory<Name>

  predicate IsFinal(n: Name)
  {
    n.Result? || n.Bundle?
  }

  predicate InRange(d: Spool)
  {
    forall n | n in d.names :: d.names[n] < |d.inodes|
  }

  function BytesOf(d: Spool, n: Name): Bytes
    requires InRange(d) && n in d.names
  {
    d.inodes[d.names[n]].bytes
  }

  /** The final name that a temporary is for. */
  function TargetOf(d: Spool, n: Name): Name
    requires InRange(d) && n in d.names && !IsFinal(n)
  {
    if n.ResultTemporary? then Result(n.job) else Bundle(BytesOf(d, n))
  }

  /** A second name of an inode is a temporary beside its final name. */
  predicate Paired(d: Spool)
    requires InRange(d)
  {
    forall n, m | n in d.names && m in d.names && n != m && d.names[n] == d.names[m] ::
      || (IsFinal(n) && !IsFinal(m) && TargetOf(d, m) == n)
      || (IsFinal(m) && !IsFinal(n) && TargetOf(d, n) == m)
  }

  /** Nothing but its final name is left of a publication that has come to its end. */
  predicate Finished(d: Spool)
    requires InRange(d)
  {
    forall n | n in d.names && IsFinal(n) && d.IsOnlyName(n) :: d.inodes[d.names[n]].settled
  }

  /** A bundle's name is the digest of its bytes. */
  predicate ContentAddressed(d: Spool)
    requires InRange(d)
  {
    forall n | n in d.names && n.Bundle? :: BytesOf(d, n) == n.of
  }

  /** Every state of the directory between and during publications and recoveries. */
  predicate Consistent(d: Spool)
  {
    InRange(d) && Paired(d) && Finished(d) && ContentAddressed(d)
  }

  predicate NoTemporary(d: Spool)
  {
    forall n | n in d.names :: IsFinal(n)
  }

  /** Final names neither come, nor go, nor change their bytes. */
  ghost predicate SameFinals(before: Spool, d: Spool)
    requires InRange(before) && InRange(d)
  {
    forall n | IsFinal(n) ::
      (n in d.names <==> n in before.names) && (n in d.names ==> BytesOf(d, n) == BytesOf(before, n))
  }

  /** Nothing but `target` has come, with exactly these bytes. */
  ghost predicate Publishes(before: Spool, d: Spool, target: Name, bytes: Bytes)
    requires InRange(before) && InRange(d)
  {
    forall n | IsFinal(n) ::
      && (n in before.names ==> n in d.names && BytesOf(d, n) == BytesOf(before, n))
      && (n in d.names && n !in before.names ==> n == target && BytesOf(d, n) == bytes)
  }

  /** Recovered: finals only, each with one link and its final mode. */
  predicate Recovered(d: Spool)
  {
    && InRange(d)
    && NoTemporary(d)
    && forall n | n in d.names :: d.IsOnlyName(n) && d.inodes[d.names[n]].settled
  }

  lemma FinalIsOnlyName(d: Spool, n: Name, m: Name)
    requires InRange(d) && Paired(d) && NoTemporary(d) && n in d.names && m in d.names && d.names[n] == d.names[m]
    ensures n == m
  {
    assert IsFinal(n) && IsFinal(m);
  }

  lemma ConsistentRecovered(d: Spool)
    requires Consistent(d) && NoTemporary(d)
    ensures Recovered(d)
  {
    forall n | n in d.names ensures d.IsOnlyName(n) {
      forall m | m in d.names && d.names[m] == d.names[n] ensures m == n {
        FinalIsOnlyName(d, n, m);
      }
    }
    hide Paired, ContentAddressed;
  }

  // ----- the file operations

  lemma Creates(d: Spool, n: Name)
    requires Consistent(d) && n !in d.names && !IsFinal(n)
    ensures Consistent(d.Create(n, false)) && SameFinals(d, d.Create(n, false)) && d.Create(n, false).IsOnlyName(n)
  {
  }

  lemma Writes(d: Spool, n: Name, chunk: Bytes)
    requires Consistent(d) && n in d.names && !IsFinal(n) && d.IsOnlyName(n)
    ensures Consistent(d.Append(n, chunk)) && SameFinals(d, d.Append(n, chunk)) && d.Append(n, chunk).IsOnlyName(n)
    ensures BytesOf(d.Append(n, chunk), n) == BytesOf(d, n) + chunk
  {
  }

  lemma Links(d: Spool, n: Name)
    requires Consistent(d) && n in d.names && !IsFinal(n) && d.IsOnlyName(n) && TargetOf(d, n) !in d.names
    ensures Consistent(d.Link(n, TargetOf(d, n)))
    ensures Publishes(d, d.Link(n, TargetOf(d, n)), TargetOf(d, n), BytesOf(d, n))
  {
  }

  lemma Settles(d: Spool, n: Name)
    requires Consistent(d) && n in d.names
    ensures Consistent(d.Settle(n)) && SameFinals(d, d.Settle(n))
  {
  }

  lemma DropsSecondName(d: Spool, n: Name)
    requires Consistent(d) && n in d.names && !IsFinal(n) && d.inodes[d.names[n]].settled
    ensures Consistent(d.Unlink(n)) && SameFinals(d, d.Unlink(n))
  {
  }

  lemma DropsOnlyName(d: Spool, n: Name)
    requires Consistent(d) && n in d.names && !IsFinal(n) && d.IsOnlyName(n)
    ensures Consistent(d.Unlink(n)) && SameFinals(d, d.Unlink(n))
  {
  }

  // ----- recovery and publication

  class ResultSpool {
    var dir: Spool

    constructor (d: Spool)
      ensures dir == d
    {
      dir := d;
    }

    /** Finish or drop one temporary; anything but its exact pair is refused. */
    method RecoverOne(n: Name) returns (ok: bool, ghost trace: seq<Spool>)
      requires InRange(dir) && n in dir.names && !IsFinal(n)
      modifies this`dir
      ensures InRange(dir) && dir.names == if ok then old(dir).names - {n} else old(dir).names
      ensures Consistent(old(dir)) ==> ok && Consistent(dir) && SameFinals(old(dir), dir)
      ensures Complete(trace, old(dir), dir)
      ensures Consistent(old(dir)) ==> forall d | d in trace :: Consistent(d) && SameFinals(old(dir), d)
    {
      hide Complete;
      trace := [dir];
      Still(dir);
      OneLink(dir, n);
      if dir.Links(n) == 1 {
        if Consistent(dir) { DropsOnlyName(dir, n); }
        Performs(trace, dir, dir, Unlinked(n));
        dir := dir.Unlink(n);
        return true, trace + [dir];
      }
      var target := TargetOf(dir, n);
      if target !in dir.names || dir.names[target] != dir.names[n] || dir.Links(n) != 2 {
        if Consistent(dir) { PairHasTwoLinks(dir, n); }
        return false, trace;
      }
      if Consistent(dir) {
        Settles(dir, target);
        DropsSecondName(dir.Settle(target), n);
      }
      Performs(trace, dir, dir, Settled(target));
      dir := dir.Settle(target);
      trace := trace + [dir];
      Performs(trace, old(dir), dir, Unlinked(n));
      dir := dir.Unlink(n);
      return true, trace + [dir];
    }

    /** Go through the temporaries, in whatever order the directory lists them. */
    method Recover() returns (ok: bool, ghost trace: seq<Spool>)
      requires InRange(dir)
      modifies this`dir
      ensures InRange(dir)
      ensures Consistent(old(dir)) ==> ok && Consistent(dir) && Recovered(dir) && SameFinals(old(dir), dir)
      ensures Complete(trace, old(dir), dir)
      ensures Consistent(old(dir)) ==> forall d | d in trace :: Consistent(d) && SameFinals(old(dir), d)
    {
      hide Complete;
      ghost var before := dir;
      Still(dir);
      var todo := set n | n in dir.names && !IsFinal(n);
      trace := [dir];
      while todo != {}
        invariant InRange(dir)
        invariant forall n :: n in todo <==> n in dir.names && !IsFinal(n)
        invariant Consistent(before) ==> Consistent(dir) && SameFinals(before, dir)
        invariant Complete(trace, before, dir)
        invariant Consistent(before) ==> forall d | d in trace :: Consistent(d) && SameFinals(before, d)
        decreases todo
      {
        var n :| n in todo;
        ghost var steps, middle := [], dir;
        ok, steps := RecoverOne(n);
        Follows(trace, steps, before, middle, dir);
        trace := trace + steps;
        if !ok { return; }
        todo := todo - {n};
      }
      if Consistent(before) { ConsistentRecovered(dir); }
      return true, trace;
    }

    /** Write the bytes under a fresh temporary name, in chunks of whatever length is accepted. */
    method Stage(n: Name, data: Bytes) returns (ghost trace: seq<Spool>)
      requires Consistent(dir) && n !in dir.names && !IsFinal(n)
      modifies this`dir
      ensures Consistent(dir) && SameFinals(old(dir), dir) && dir.names.Keys == old(dir).names.Keys + {n}
      ensures dir.IsOnlyName(n) && BytesOf(dir, n) == data
      ensures Complete(trace, old(dir), dir)
      ensures forall d | d in trace :: Consistent(d) && SameFinals(old(dir), d)
    {
      hide Complete;
      ghost var before := dir;
      Creates(dir, n);
      Still(dir);
      Performs([before], before, before, Created(n, false));
      dir := dir.Create(n, false);
      assert [before] + [dir] == [before, dir];
      trace := [before, dir];
      var written := 0;
      while written < |data|
        invariant written <= |data|
        invariant Consistent(dir) && SameFinals(before, dir) && dir.names.Keys == before.names.Keys + {n}
        invariant dir.IsOnlyName(n) && BytesOf(dir, n) == data[..written]
        invariant Complete(trace, before, dir)
        invariant forall d | d in trace :: Consistent(d) && SameFinals(before, d)
      {
        var count: nat :| 1 <= count <= |data| - written;
        Performs(trace, before, dir, Appended(n, data[written..written + count]));
        Writes(dir, n, data[written..written + count]);
        assert data[..written] + data[written..written + count] == data[..written + count];
        dir := dir.Append(n, data[written..written + count]);
        trace := trace + [dir];
        written := written + count;
      }
      assert data[..|data|] == data;
    }

    /** Give a staged temporary its final name, set the mode, drop the temporary. */
    method Link(n: Name) returns (ghost trace: seq<Spool>)
      requires Consistent(dir) && n in dir.names && !IsFinal(n) && dir.IsOnlyName(n) && TargetOf(dir, n) !in dir.names
      modifies this`dir
      ensures Consistent(dir) && Publishes(old(dir), dir, TargetOf(old(dir), n), BytesOf(old(dir), n))
      ensures dir.names.Keys == old(dir).names.Keys + {TargetOf(old(dir), n)} - {n}
      ensures Complete(trace, old(dir), dir)
      ensures forall d | d in trace ::
        Consistent(d) && Publishes(old(dir), d, TargetOf(old(dir), n), BytesOf(old(dir), n))
    {
      hide Complete;
      var target := TargetOf(dir, n);
      Links(dir, n);
      trace := [dir];
      Still(dir);
      Performs(trace, dir, dir, LinkedTo(n, target));
      dir := dir.Link(n, target);
      trace := trace + [dir];
      Settles(dir, target);
      Performs(trace, old(dir), dir, Settled(target));
      dir := dir.Settle(target);
      trace := trace + [dir];
      DropsSecondName(dir, n);
      Performs(trace, old(dir), dir, Unlinked(n));
      dir := dir.Unlink(n);
      trace := trace + [dir];
    }

    /** Publish a result once; a name that is taken is never replaced. */
    method PublishResult(job: Job, data: Bytes, token: nat, admitted: bool) returns (ok: bool, ghost trace: seq<Spool>)
      requires Consistent(dir)
      modifies this`dir
      ensures ok <==> Result(job) !in old(dir).names && admitted
      ensures Recovered(dir) && Consistent(dir)
      ensures if ok then Result(job) in dir.names
        && Publishes(old(dir), dir, Result(job), data) else SameFinals(old(dir), dir)
      ensures Complete(trace, old(dir), dir)
      ensures forall d | d in trace :: Consistent(d) && Publishes(old(dir), d, Result(job), data)
    {
      hide Complete;
      ok, trace := Recover();
      if Result(job) in dir.names || !admitted { return false, trace; }
      var n := ResultTemporary(job, token);
      ghost var recovered := dir;
      ghost var staged := Stage(n, data);
      Follows(trace, staged, old(dir), recovered, dir);
      ghost var complete := dir;
      ghost var linked := Link(n);
      Follows(trace + staged, linked, old(dir), complete, dir);
      ConsistentRecovered(dir);
      return true, trace + staged + linked;
    }

    /** Drop a staged temporary that is not needed. */
    method Discard(n: Name) returns (ghost trace: seq<Spool>)
      requires Consistent(dir) && n in dir.names && !IsFinal(n) && dir.IsOnlyName(n)
      modifies this`dir
      ensures dir == old(dir).Unlink(n)
      ensures Consistent(dir) && SameFinals(old(dir), dir) && dir.names.Keys == old(dir).names.Keys - {n}
      ensures Complete(trace, old(dir), dir)
      ensures forall d | d in trace :: Consistent(d) && SameFinals(old(dir), d)
    {
      hide Complete;
      DropsOnlyName(dir, n);
      trace := [dir];
      Still(dir);
      Performs(trace, dir, dir, Unlinked(n));
      dir := dir.Unlink(n);
      trace := trace + [dir];
    }

    /** Recover, then stage a bundle. */
    method StageBundle(data: Bytes, token: nat) returns (ghost trace: seq<Spool>)
      requires Consistent(dir)
      modifies this`dir
      ensures Consistent(dir) && SameFinals(old(dir), dir)
      ensures BundleTemporary(token) in dir.names && dir.IsOnlyName(BundleTemporary(token))
      ensures BytesOf(dir, BundleTemporary(token)) == data
      ensures forall m | m in dir.names :: IsFinal(m) || m == BundleTemporary(token)
      ensures Complete(trace, old(dir), dir)
      ensures forall d | d in trace :: Consistent(d) && SameFinals(old(dir), d)
    {
      hide Complete;
      var ok;
      ok, trace := Recover();
      ghost var recovered := dir;
      ghost var staged := Stage(BundleTemporary(token), data);
      Follows(trace, staged, old(dir), recovered, dir);
      trace := trace + staged;
    }

    /** Publish a bundle under the digest of its bytes; the same bytes again change nothing. */
    method PublishBundle(data: Bytes, token: nat, admitted: bool) returns (ok: bool, ghost trace: seq<Spool>)
      requires Consistent(dir)
      modifies this`dir
      ensures ok <==> admitted
      ensures Recovered(dir) && Consistent(dir)
      ensures if ok then Bundle(data) in dir.names
        && Publishes(old(dir), dir, Bundle(data), data) else SameFinals(old(dir), dir)
      ensures Complete(trace, old(dir), dir)
      ensures forall d | d in trace :: Consistent(d) && Publishes(old(dir), d, Bundle(data), data)
    {
      hide Complete;
      var n := BundleTemporary(token);
      trace := StageBundle(data, token);
      if Bundle(data) in dir.names || !admitted {
        ghost var complete := dir;
        ghost var dropped := Discard(n);
        Follows(trace, dropped, old(dir), complete, dir);
        ConsistentRecovered(dir);
        return admitted, trace + dropped;
      }
      ghost var complete := dir;
      ghost var linked := Link(n);
      Follows(trace, linked, old(dir), complete, dir);
      ConsistentRecovered(dir);
      return true, trace + linked;
    }
  }

  lemma PairHasTwoLinks(d: Spool, n: Name)
    requires Consistent(d) && n in d.names && !IsFinal(n) && !d.IsOnlyName(n)
    ensures TargetOf(d, n) in d.names && d.names[TargetOf(d, n)] == d.names[n] && d.Links(n) == 2
  {
    var m :| m in d.names && m != n && d.names[m] == d.names[n];
    assert TargetOf(d, n) == m;
    TwoLinks(d, n, m);
  }

  // ----- over any number of attempts, crashes and recoveries

  /** Each attempt, wherever a crash stopped it, published at most its own final name. */
  ghost predicate Attempts(states: seq<Spool>, targets: seq<(Name, Bytes)>)
  {
    && |states| == |targets| + 1
    && (forall i | 0 <= i < |states| :: Consistent(states[i]))
    && (forall i | 0 <= i < |targets| :: Publishes(states[i], states[i + 1], targets[i].0, targets[i].1))
  }

  /** A final name keeps its bytes for ever, and every final name that has come is some attempt's, with its bytes. */
  lemma {:induction false} WriteOnce(states: seq<Spool>, targets: seq<(Name, Bytes)>, n: Name)
    requires Attempts(states, targets) && IsFinal(n)
    ensures n in states[0].names ==>
      n in states[|targets|].names && BytesOf(states[|targets|], n) == BytesOf(states[0], n)
    ensures n in states[|targets|].names && n !in states[0].names ==> (n, BytesOf(states[|targets|], n)) in targets
    decreases |targets|
  {
    if targets != [] {
      var k := |targets| - 1;
      assert Attempts(states[..k + 1], targets[..k]);
      WriteOnce(states[..k + 1], targets[..k], n);
      assert Publishes(states[k], states[k + 1], targets[k].0, targets[k].1);
      assert targets[k] in targets;
      assert forall x | x in targets[..k] :: x in targets;
    }
  }
}
