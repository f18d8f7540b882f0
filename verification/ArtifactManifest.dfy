/** The artifact manifest, as the protocol validates it and as the approval store validates it again. */
module ArtifactManifest {
  /**
   A path is its UTF-8 encoding; every character that the checks name is a single byte.  `folded`
   stands for its normalised, case-folded form and `hashed` says that its hash is well formed.
   */
  datatype File = File(path: string, folded: nat, size: int, hashed: bool)

  datatype Manifest = Manifest(files: seq<File>, totalFiles: int, totalBytes: int)

  const MAX_FILES := 64

  const MAX_BYTES := 1_900_000

  const MAX_PATH := 240

  const MAX_DEPTH := 8

  function Parts(path: string): (parts: seq<string>)
    ensures parts != []
  {
    if path == "" then [""]
    else if path[0] == '/' then [""] + Parts(path[1..])
    else
      var rest := Parts(path[1..]);
      [[path[0]] + rest[0]] + rest[1..]
  }

  predicate PartsOk(path: string)
  {
    && |Parts(path)| <= MAX_DEPTH
    && forall p | p in Parts(path) :: p != "" && p != "." && p != ".."
  }

  /** The protocol's rule: printable, relative, without drive letters or backslashes. */
  predicate SafePath(path: string)
  {
    && path != "" && path[0] != '/'
    && (forall c | c in path :: c != '\\' && c != ':' && c >= ' ')
    && |path| <= MAX_PATH
    && PartsOk(path)
  }

  /** The store's rule. */
  predicate OutcomePath(path: string)
  {
    path != "" && path[0] != '/' && '\\' !in path && |path| <= MAX_PATH && PartsOk(path)
  }

  /** Byte order. */
  predicate Less(a: string, b: string)
  {
    b != "" && (a == "" || a[0] < b[0] || (a[0] == b[0] && Less(a[1..], b[1..])))
  }

  lemma {:induction false} LessTransitive(a: string, b: string, c: string)
    requires Less(a, b) && Less(b, c)
    ensures Less(a, c)
  {
    if a != "" && a[0] == b[0] && b[0] == c[0] { LessTransitive(a[1..], b[1..], c[1..]); }
  }

  function Total(files: seq<File>): int
  {
    if files == [] then 0 else Total(files[..|files| - 1]) + files[|files| - 1].size
  }

  predicate Ordered(files: seq<File>)
  {
    && (forall i, j | 0 <= i < j < |files| :: Less(files[i].path, files[j].path))
    && (forall i, j | 0 <= i < j < |files| :: files[i].folded != files[j].folded)
  }

  predicate FileOk(f: File, rule: string -> bool)
  {
    rule(f.path) && f.size >= 0 && f.hashed
  }

  predicate ManifestOk(m: Manifest, rule: string -> bool)
  {
    && 1 <= |m.files| <= MAX_FILES
    && (forall f | f in m.files :: FileOk(f, rule))
    && Ordered(m.files)
    && Total(m.files) <= MAX_BYTES
    && m.totalFiles == |m.files| && m.totalBytes == Total(m.files)
  }

  predicate ValidManifest(m: Manifest)
  {
    ManifestOk(m, SafePath)
  }

  predicate ValidOutcomeManifest(m: Manifest)
  {
    ManifestOk(m, OutcomePath)
  }

  /** Both validators are this scan, each with its own rule for paths. */
  method ValidateManifest(m: Manifest, rule: string -> bool) returns (ok: bool)
    requires forall p | rule(p) :: p != ""
    ensures ok <==> ManifestOk(m, rule)
  {
    if !(1 <= |m.files| <= MAX_FILES) { return false; }
    var previous := "";
    var seen: set<nat> := {};
    var total := 0;
    for i := 0 to |m.files|
      invariant previous == if i == 0 then "" else m.files[i - 1].path
      invariant forall n :: n in seen <==> exists k | 0 <= k < i :: m.files[k].folded == n
      invariant total == Total(m.files[..i])
      invariant forall k | 0 <= k < i :: FileOk(m.files[k], rule)
      invariant Ordered(m.files[..i])
    {
      var f := m.files[i];
      if !FileOk(f, rule) {
        assert f in m.files;
        return false;
      }
      if !Less(previous, f.path) || f.folded in seen {
        NotOrdered(m.files, i, previous);
        return false;
      }
      OrderedNext(m.files, i, previous);
      assert m.files[..i + 1][..i] == m.files[..i];
      previous := f.path;
      seen := seen + {f.folded};
      total := total + f.size;
    }
    assert m.files[..|m.files|] == m.files;
    return total <= MAX_BYTES && m.totalFiles == |m.files| && m.totalBytes == total;
  }

  lemma {:induction false} NotOrdered(files: seq<File>, i: nat, previous: string)
    requires i < |files| && previous == (if i == 0 then "" else files[i - 1].path) && files[i].path != ""
    requires !Less(previous, files[i].path) || exists k | 0 <= k < i :: files[k].folded == files[i].folded
    ensures !Ordered(files)
  {
    if !Less(previous, files[i].path) { assert !Less(files[i - 1].path, files[i].path); }
  }

  lemma {:induction false} OrderedNext(files: seq<File>, i: nat, previous: string)
    requires i < |files| && previous == (if i == 0 then "" else files[i - 1].path)
    requires Ordered(files[..i]) && Less(previous, files[i].path)
    requires forall k | 0 <= k < i :: files[k].folded != files[i].folded
    ensures Ordered(files[..i + 1])
  {
    forall k | 0 <= k < i ensures Less(files[k].path, files[i].path) {
      if k < i - 1 {
        assert Less(files[..i][k].path, files[..i][i - 1].path);
        LessTransitive(files[k].path, files[i - 1].path, files[i].path);
      }
    }
    var taken := files[..i + 1];
    forall a, b | 0 <= a < b < |taken| ensures Less(taken[a].path, taken[b].path) && taken[a].folded != taken[b].folded {
      if b < i { assert files[..i][a] == files[a] && files[..i][b] == files[b]; }
    }
  }

  /** What the protocol accepts the store accepts. */
  lemma OutcomeManifestFollows(m: Manifest)
    requires ValidManifest(m)
    ensures ValidOutcomeManifest(m)
  {
    forall f | f in m.files ensures FileOk(f, OutcomePath) {
      assert FileOk(f, SafePath);
    }
  }
}
