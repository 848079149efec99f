/** Importing the files a verification returns into the workspace they were taken from. A digest is represented
    by the content it was taken of, and a path has been brought to its clean form.
 */
module TreeImport {
  import opened Common

  type Path = string
  type Content = seq<bv8>
  type Mode = bv32

  datatype Digest = Digest(of: Content)

  /** A file as the workspace holds it. */
  datatype File = File(mode: Mode, content: Content)

  /** What a baseline records of a file: its executable bits and its digest. */
  datatype Print = Print(mode: Mode, digest: Digest)

  /** A file as it comes back: whether its path is one inside the workspace is decided before. */
  datatype Returned = Returned(path: Path, inside: bool, mode: Mode, content: Content, digest: Digest)

  const EXECUTABLE: Mode := 0x49
  const PERMISSIONS: Mode := 0x1FF

  function Sha256(c: Content): Digest {
    Digest(c)
  }

  function Comparable(m: Mode): Mode {
    m & EXECUTABLE
  }

  function PrintOf(f: File): Print {
    Print(Comparable(f.mode), Sha256(f.content))
  }

  predicate IsEvidence(p: Path) {
    p == "evidence" || "evidence/" <= p
  }

  // ---------------------------------------------------------------------------------------
  // Which paths may change
  // ---------------------------------------------------------------------------------------

  /** An entry that ends in a slash admits everything below it, any other entry just itself. */
  predicate Admits(entry: Path, p: Path) {
    if entry != "" && entry[|entry| - 1] == '/' then entry <= p else p == entry
  }

  ghost predicate Allowed(allowed: seq<Path>, p: Path) {
    exists i | 0 <= i < |allowed| :: Admits(allowed[i], p)
  }

  /** What may change: a path that is listed, unless the entry is a directory, and one below a listed directory. */
  lemma AllowedIff(allowed: seq<Path>, p: Path)
    ensures Allowed(allowed, p) <==>
            || (p in allowed && (p == "" || p[|p| - 1] != '/'))
            || exists k | 0 < k <= |p| && p[k - 1] == '/' :: p[..k] in allowed
  {
    if Allowed(allowed, p) {
      var i :| 0 <= i < |allowed| && Admits(allowed[i], p);
      var entry := allowed[i];
      if entry != "" && entry[|entry| - 1] == '/' { assert p[..|entry|] == entry && entry in allowed; }
    }
    if p in allowed && (p == "" || p[|p| - 1] != '/') {
      var i :| 0 <= i < |allowed| && allowed[i] == p;
      assert Admits(allowed[i], p);
    }
    if k :| 0 < k <= |p| && p[k - 1] == '/' && p[..k] in allowed {
      var i :| 0 <= i < |allowed| && allowed[i] == p[..k];
      assert Admits(allowed[i], p);
    }
  }

  method Allows(allowed: seq<Path>, p: Path) returns (ok: bool)
    ensures ok <==> Allowed(allowed, p)
  {
    for i := 0 to |allowed|
      invariant forall j | 0 <= j < i :: !Admits(allowed[j], p)
    {
      var entry := allowed[i];
      if entry != "" && entry[|entry| - 1] == '/' {
        if entry <= p { return true; }
      } else if p == entry {
        return true;
      }
    }
    return false;
  }

  // ---------------------------------------------------------------------------------------
  // Decoding and checking
  // ---------------------------------------------------------------------------------------

  predicate PermissionsOnly(m: Mode) {
    m & !PERMISSIONS == 0
  }

  predicate Sound(f: Returned) {
    f.inside && (IsEvidence(f.path) || (PermissionsOnly(f.mode) && f.digest == Sha256(f.content)))
  }

  /** The first n files are sound and no source path comes twice among them. */
  ghost predicate Decodes(files: seq<Returned>, n: nat)
    requires n <= |files|
  {
    && (forall i | 0 <= i < n :: Sound(files[i]))
    && forall i, j | 0 <= i < j < n :: !IsEvidence(files[i].path) ==> files[i].path != files[j].path
  }

  /** Everything under the evidence directory, and the directory itself. */
  predicate UnderEvidence(p: Path) {
    |p| >= 8 && p[..8] == "evidence" && (|p| == 8 || p[8] == '/')
  }

  /** A file inside the workspace that is evidence, or has permission bits only, at most 0777, and the digest of what it
      holds. */
  predicate Fine(f: Returned) {
    f.inside && (UnderEvidence(f.path) || (f.mode <= 511 && f.digest.of == f.content))
  }

  lemma SoundIsFine(f: Returned)
    ensures Sound(f) <==> Fine(f)
  {
    EvidenceIs(f.path);
    PermissionBits(f.mode);
    assert f.digest == Sha256(f.content) <==> f.digest.of == f.content;
  }

  /** A returned list is accepted exactly when every file is fine and no two outside the evidence have the same path. */
  lemma DecodesIff(files: seq<Returned>)
    ensures Decodes(files, |files|) <==>
            && (forall i | 0 <= i < |files| :: Fine(files[i]))
            && forall i, j | 0 <= i < |files| && 0 <= j < |files| && i != j ::
                 files[i].path == files[j].path ==> UnderEvidence(files[i].path)
  {
    forall i | 0 <= i < |files|
      ensures Sound(files[i]) <==> Fine(files[i])
      ensures IsEvidence(files[i].path) <==> UnderEvidence(files[i].path)
    {
      SoundIsFine(files[i]);
      EvidenceIs(files[i].path);
    }
  }

  lemma EvidenceIs(p: Path)
    ensures IsEvidence(p) <==> UnderEvidence(p)
  {
    var dir := "evidence/";
    if dir <= p { assert p[..9] == dir && p[..9][..8] == p[..8] && p[8] == dir[8]; }
    if UnderEvidence(p) && |p| > 8 { assert p[..9] == p[..8] + [p[8]] == dir; }
  }

  lemma PermissionBits(m: Mode)
    ensures PermissionsOnly(m) <==> m <= 511
  {
  }

  /** Two modes compare equal exactly when owner, group and others may each execute the one if they may the other. */
  lemma ComparableIff(m: Mode, n: Mode)
    ensures Comparable(m) == Comparable(n) <==>
            && (m & 0x40 == 0 <==> n & 0x40 == 0) && (m & 0x08 == 0 <==> n & 0x08 == 0)
            && (m & 0x01 == 0 <==> n & 0x01 == 0)
  {
  }

  predicate Comes(files: seq<Returned>, i: int, p: Path) {
    0 <= i < |files| && files[i].path == p
  }

  /** The tree holds exactly the source files among the first n. */
  ghost predicate TreeOf(files: seq<Returned>, n: nat, tree: map<Path, File>)
    requires n <= |files|
  {
    && (forall i | 0 <= i < n :: !IsEvidence(files[i].path) ==>
          files[i].path in tree && tree[files[i].path] == File(files[i].mode, files[i].content))
    && forall p <- tree :: !IsEvidence(p) && exists i :: i < n && Comes(files, i, p)
  }

  lemma TreeOneMore(files: seq<Returned>, i: nat, tree: map<Path, File>)
    requires i < |files| && TreeOf(files, i, tree) && !IsEvidence(files[i].path) && files[i].path !in tree
    ensures TreeOf(files, i + 1, tree[files[i].path := File(files[i].mode, files[i].content)])
  {
    var more := tree[files[i].path := File(files[i].mode, files[i].content)];
    forall p | p in more ensures !IsEvidence(p) && exists k :: k < i + 1 && Comes(files, k, p) {
      if p in tree {
        var k :| k < i && Comes(files, k, p);
      } else {
        assert Comes(files, i, p);
      }
    }
  }

  method Decode(files: seq<Returned>) returns (ok: bool, tree: map<Path, File>)
    ensures ok <==> Decodes(files, |files|)
    ensures ok ==> TreeOf(files, |files|, tree)
  {
    tree := map[];
    for i := 0 to |files|
      invariant Decodes(files, i) && TreeOf(files, i, tree)
    {
      var f := files[i];
      if !f.inside { return false, map[]; }
      if !IsEvidence(f.path) {
        if !PermissionsOnly(f.mode) || f.digest != Sha256(f.content) { return false, map[]; }
        if f.path in tree {
          ghost var k :| k < i && Comes(files, k, f.path);
          return false, map[];
        }
        TreeOneMore(files, i, tree);
        tree := tree[f.path := File(f.mode, f.content)];
      }
    }
    return true, tree;
  }

  function PrintsOf(tree: map<Path, File>): map<Path, Print> {
    map p | p in tree :: PrintOf(tree[p])
  }

  /** The returned tree may stand for the baseline: with nothing allowed it is the baseline, otherwise it
      differs from it on allowed paths only. */
  ghost predicate Acceptable(baseline: map<Path, Print>, tree: map<Path, File>, allowed: seq<Path>) {
    if allowed == [] then PrintsOf(tree) == baseline
    else
      && (forall p <- baseline :: p !in tree || PrintOf(tree[p]) != baseline[p] ==> Allowed(allowed, p))
      && (forall p <- tree :: p !in baseline ==> Allowed(allowed, p))
  }

  /** Same number of files, and each of the one found in the other. */
  method SameFiles(a: map<Path, Print>, b: map<Path, Print>) returns (same: bool)
    ensures same <==> a == b
  {
    if |a| != |b| { return false; }
    var todo := a.Keys;
    while todo != {}
      invariant todo <= a.Keys && forall p <- a.Keys - todo :: p in b && b[p] == a[p]
      decreases |todo|
    {
      var p :| p in todo;
      if p !in b || b[p] != a[p] { return false; }
      todo := todo - {p};
    }
    SameSizeSameMap(a, b);
    return true;
  }

  method CheckChanged(baseline: map<Path, Print>, tree: map<Path, File>, allowed: seq<Path>) returns (ok: bool)
    ensures ok <==> forall p <- baseline :: p !in tree || PrintOf(tree[p]) != baseline[p] ==> Allowed(allowed, p)
  {
    var todo := baseline.Keys;
    while todo != {}
      invariant todo <= baseline.Keys
      invariant forall p <- baseline.Keys - todo ::
        p !in tree || PrintOf(tree[p]) != baseline[p] ==> Allowed(allowed, p)
      decreases |todo|
    {
      var p :| p in todo;
      if p !in tree || PrintOf(tree[p]) != baseline[p] {
        var may := Allows(allowed, p);
        if !may { return false; }
      }
      todo := todo - {p};
    }
    return true;
  }

  method CheckAdded(baseline: map<Path, Print>, tree: map<Path, File>, allowed: seq<Path>) returns (ok: bool)
    ensures ok <==> forall p <- tree :: p !in baseline ==> Allowed(allowed, p)
  {
    var todo := tree.Keys;
    while todo != {}
      invariant todo <= tree.Keys && forall p <- tree.Keys - todo :: p !in baseline ==> Allowed(allowed, p)
      decreases |todo|
    {
      var p :| p in todo;
      if p !in baseline {
        var may := Allows(allowed, p);
        if !may { return false; }
      }
      todo := todo - {p};
    }
    return true;
  }

  method Validate(baseline: map<Path, Print>, tree: map<Path, File>, allowed: seq<Path>) returns (ok: bool)
    ensures ok <==> Acceptable(baseline, tree, allowed)
  {
    if allowed == [] {
      ok := SameFiles(baseline, PrintsOf(tree));
    } else {
      ok := CheckChanged(baseline, tree, allowed);
      if ok { ok := CheckAdded(baseline, tree, allowed); }
    }
  }

  // ---------------------------------------------------------------------------------------
  // Applying
  // ---------------------------------------------------------------------------------------

  datatype Result = Done | Refused | Interrupted

  ghost predicate Removes(baseline: map<Path, Print>, tree: map<Path, File>, allowed: seq<Path>, p: Path) {
    p in baseline && p !in tree && Allowed(allowed, p)
  }

  /** The record of a returned file, with its mode as it came. */
  function FullPrint(f: File): Print {
    Print(f.mode, Sha256(f.content))
  }

  ghost predicate Writes(baseline: map<Path, Print>, tree: map<Path, File>, allowed: seq<Path>, p: Path) {
    p in tree && !(p in baseline && baseline[p] == FullPrint(tree[p])) && Allowed(allowed, p)
  }

  /** The workspace after the import, whatever order paths are taken in. */
  ghost function Imported(w: map<Path, File>, baseline: map<Path, Print>, tree: map<Path, File>, allowed: seq<Path>)
    : map<Path, File>
  {
    map p | p in w.Keys + tree.Keys
          && (Writes(baseline, tree, allowed, p) || (p in w && !Removes(baseline, tree, allowed, p))) ::
      if Writes(baseline, tree, allowed, p) then tree[p] else w[p]
  }

  /** Between the two workspaces only allowed paths changed. */
  ghost predicate ChangesOnly(w: map<Path, File>, w': map<Path, File>, allowed: seq<Path>) {
    forall p :: !Allowed(allowed, p) ==> (p in w' <==> p in w) && (p in w ==> w'[p] == w[p])
  }

  ghost predicate SameAt(a: map<Path, File>, b: map<Path, File>, p: Path) {
    (p in a <==> p in b) && (p in a ==> a[p] == b[p])
  }

  /** Each path is as it was or as the import leaves it. */
  ghost predicate PartWay(w: map<Path, File>, w': map<Path, File>, baseline: map<Path, Print>, tree: map<Path, File>,
                          allowed: seq<Path>)
  {
    forall p {:trigger SameAt(w', w, p)} :: SameAt(w', w, p) || SameAt(w', Imported(w, baseline, tree, allowed), p)
  }

  class Workspace {
    var files: map<Path, File>

    constructor (initial: map<Path, File>)
      ensures files == initial
    {
      files := initial;
    }

    /** Deletes the allowed baseline files that did not come back; may be interrupted between two. */
    method RemoveMissing(baseline: map<Path, Print>, tree: map<Path, File>, allowed: seq<Path>, budget: nat)
      returns (finished: bool, left: nat)
      modifies this
      ensures ChangesOnly(old(files), files, allowed)
      ensures forall p :: SameAt(files, old(files), p) || (Removes(baseline, tree, allowed, p) && p !in files)
      ensures finished ==> forall p :: p in files <==> p in old(files) && !Removes(baseline, tree, allowed, p)
      ensures finished ==> forall p <- files :: files[p] == old(files)[p]
      ensures budget > |baseline| ==> finished && left >= budget - |baseline|
    {
      ghost var before := files;
      left := budget;
      var todo := baseline.Keys;
      assert |baseline.Keys| == |baseline|;
      while todo != {}
        invariant todo <= baseline.Keys && left == budget - (|baseline.Keys| - |todo|)
        invariant forall p :: p in files <==> p in before && !(p !in todo && Removes(baseline, tree, allowed, p))
        invariant forall p <- files :: files[p] == before[p]
        decreases |todo|
      {
        if left == 0 { return false, 0; }
        left := left - 1;
        var p :| p in todo;
        if p !in tree {
          var may := Allows(allowed, p);
          if may { files := files - {p}; }
        }
        todo := todo - {p};
      }
      return true, left;
    }

    /** Writes the allowed files that came back different from the baseline's record. */
    method WriteReturned(baseline: map<Path, Print>, tree: map<Path, File>, allowed: seq<Path>, budget: nat)
      returns (finished: bool)
      modifies this
      ensures ChangesOnly(old(files), files, allowed)
      ensures forall p :: SameAt(files, old(files), p) || (Writes(baseline, tree, allowed, p) && SameAt(files, tree, p))
      ensures finished ==> forall p :: p in files <==> p in old(files) || Writes(baseline, tree, allowed, p)
      ensures finished ==>
        forall p <- files :: files[p] == if Writes(baseline, tree, allowed, p) then tree[p] else old(files)[p]
      ensures budget >= |tree| ==> finished
    {
      ghost var before := files;
      var left := budget;
      var todo := tree.Keys;
      assert |tree.Keys| == |tree|;
      while todo != {}
        invariant todo <= tree.Keys && left == budget - (|tree.Keys| - |todo|)
        invariant forall p :: p in files <==> p in before || (p !in todo && Writes(baseline, tree, allowed, p))
        invariant forall p <- files ::
          files[p] == if p !in todo && Writes(baseline, tree, allowed, p) then tree[p] else before[p]
        decreases |todo|
      {
        if left == 0 { return false; }
        left := left - 1;
        var p :| p in todo;
        if !(p in baseline && baseline[p] == FullPrint(tree[p])) {
          var may := Allows(allowed, p);
          if may { files := files[p := tree[p]]; }
        }
        todo := todo - {p};
      }
      return true;
    }

    method ApplyTree(baseline: map<Path, Print>, tree: map<Path, File>, allowed: seq<Path>, budget: nat)
      returns (finished: bool)
      modifies this
      ensures finished ==> files == Imported(old(files), baseline, tree, allowed)
      ensures ChangesOnly(old(files), files, allowed) && PartWay(old(files), files, baseline, tree, allowed)
      ensures budget > |baseline| + |tree| ==> finished
    {
      ghost var before := files;
      var left;
      finished, left := RemoveMissing(baseline, tree, allowed, budget);
      ghost var between := files;
      RemovedPartWay(before, between, baseline, tree, allowed);
      if finished {
        finished := WriteReturned(baseline, tree, allowed, left);
        if finished { InTwoPhases(before, between, files, baseline, tree, allowed); }
        WrittenPartWay(before, between, files, baseline, tree, allowed);
        ChangesTwice(before, between, files, allowed);
      }
    }

    /** Imports what a verification returned: refused with nothing changed, done, or interrupted on the way. */
    method Import(baseline: map<Path, Print>, returned: seq<Returned>, allowed: seq<Path>, budget: nat)
      returns (r: Result, ghost tree: map<Path, File>)
      modifies this
      ensures r != Refused <==>
              && Decodes(returned, |returned|) && TreeOf(returned, |returned|, tree)
              && Acceptable(baseline, tree, allowed)
      ensures r == Refused ==> files == old(files)
      ensures r == Done ==> files == Outcome(old(files), baseline, tree, allowed)
      ensures r == Interrupted ==> PartWay(old(files), files, baseline, tree, allowed) && allowed != []
      ensures ChangesOnly(old(files), files, allowed)
      ensures budget > |baseline| + |tree| ==> r != Interrupted
    {
      var ok, decoded := Decode(returned);
      tree := decoded;
      if !ok { return Refused, tree; }
      var accepted := Validate(baseline, decoded, allowed);
      if !accepted { return Refused, tree; }
      if allowed == [] { return Done, tree; }
      var finished := ApplyTree(baseline, decoded, allowed, budget);
      r := if finished then Done else Interrupted;
    }
  }

  lemma InTwoPhases(before: map<Path, File>, between: map<Path, File>, after: map<Path, File>,
                    baseline: map<Path, Print>, tree: map<Path, File>, allowed: seq<Path>)
    requires forall p :: p in between <==> p in before && !Removes(baseline, tree, allowed, p)
    requires forall p <- between :: between[p] == before[p]
    requires forall p :: p in after <==> p in between || Writes(baseline, tree, allowed, p)
    requires forall p <- after :: after[p] == if Writes(baseline, tree, allowed, p) then tree[p] else between[p]
    ensures after == Imported(before, baseline, tree, allowed)
  {
    var w := Imported(before, baseline, tree, allowed);
    forall p ensures (p in after <==> p in w) && (p in w ==> after[p] == w[p]) {}
  }

  lemma RemovedPartWay(before: map<Path, File>, between: map<Path, File>, baseline: map<Path, Print>,
                       tree: map<Path, File>, allowed: seq<Path>)
    requires forall p :: SameAt(between, before, p) || (Removes(baseline, tree, allowed, p) && p !in between)
    ensures PartWay(before, between, baseline, tree, allowed)
  {
  }

  lemma WrittenPartWay(before: map<Path, File>, between: map<Path, File>, after: map<Path, File>,
                       baseline: map<Path, Print>, tree: map<Path, File>, allowed: seq<Path>)
    requires PartWay(before, between, baseline, tree, allowed)
    requires forall p :: SameAt(after, between, p) || (Writes(baseline, tree, allowed, p) && SameAt(after, tree, p))
    ensures PartWay(before, after, baseline, tree, allowed)
  {
    forall p ensures SameAt(after, before, p) || SameAt(after, Imported(before, baseline, tree, allowed), p) {
      var final := Imported(before, baseline, tree, allowed);
      assert SameAt(between, before, p) || SameAt(between, final, p);
      if !SameAt(after, between, p) {
        assert Writes(baseline, tree, allowed, p) && SameAt(after, tree, p);
        assert p in final && final[p] == tree[p];
      }
    }
  }

  lemma ChangesTwice(a: map<Path, File>, b: map<Path, File>, c: map<Path, File>, allowed: seq<Path>)
    requires ChangesOnly(a, b, allowed) && ChangesOnly(b, c, allowed)
    ensures ChangesOnly(a, c, allowed)
  {
  }

  // ---------------------------------------------------------------------------------------
  // Main results
  // ---------------------------------------------------------------------------------------

  /** The workspace an accepted import leaves; with nothing allowed it is not touched. */
  ghost function Outcome(w: map<Path, File>, baseline: map<Path, Print>, tree: map<Path, File>,
                         allowed: seq<Path>): map<Path, File>
  {
    if allowed == [] then w else Imported(w, baseline, tree, allowed)
  }

  /** Apart from evidence, the workspace is what the baseline records. */
  ghost predicate AtBaseline(w: map<Path, File>, baseline: map<Path, Print>) {
    && (forall p :: p in baseline <==> p in w && !IsEvidence(p))
    && forall p <- baseline :: PrintOf(w[p]) == baseline[p]
  }

  ghost predicate NoEvidence(tree: map<Path, File>) {
    forall p <- tree :: !IsEvidence(p)
  }

  lemma MaskTwice(m: Mode)
    ensures Comparable(Comparable(m)) == Comparable(m)
  {
    assert (m & EXECUTABLE) & EXECUTABLE == m & (EXECUTABLE & EXECUTABLE);
    assert EXECUTABLE & EXECUTABLE == EXECUTABLE;
  }

  /** A file that is skipped because the baseline records it is one the workspace already holds. */
  lemma SkippedIsSame(w: File, t: File)
    requires PrintOf(w) == FullPrint(t)
    ensures PrintOf(w) == PrintOf(t)
  {
    MaskTwice(w.mode);
  }

  /** After an accepted import onto a workspace at its baseline, the source tree is the returned one up to
      digest and executable bits; paths that are not allowed, and evidence, are as they were. */
  lemma ImportGivesReturnedTree(w: map<Path, File>, baseline: map<Path, Print>, tree: map<Path, File>,
                                allowed: seq<Path>, p: Path)
    requires AtBaseline(w, baseline) && NoEvidence(tree) && Acceptable(baseline, tree, allowed)
    ensures var w' := Outcome(w, baseline, tree, allowed);
            && (!IsEvidence(p) ==> (p in w' <==> p in tree) && (p in tree ==> PrintOf(w'[p]) == PrintOf(tree[p])))
            && (!Allowed(allowed, p) || IsEvidence(p) ==> (p in w' <==> p in w) && (p in w ==> w'[p] == w[p]))
  {
    if allowed == [] {
      assert p in PrintsOf(tree) <==> p in tree;
    } else if p in tree && p in baseline && !Writes(baseline, tree, allowed, p) {
      if baseline[p] == FullPrint(tree[p]) { SkippedIsSame(w[p], tree[p]); }
    }
  }

  /** A tree is decided by the files it was decoded from. */
  lemma TreeIsDetermined(files: seq<Returned>, a: map<Path, File>, b: map<Path, File>)
    requires TreeOf(files, |files|, a) && TreeOf(files, |files|, b)
    ensures a == b
  {
    forall p | p in a ensures p in b && b[p] == a[p] {
      var i :| i < |files| && Comes(files, i, p);
    }
    forall p | p in b ensures p in a {
      var i :| i < |files| && Comes(files, i, p);
    }
  }

  /** An interrupted import that is run again ends where an uninterrupted one would have. */
  lemma InterruptedImportResumes(w: map<Path, File>, w': map<Path, File>, baseline: map<Path, Print>,
                                 tree: map<Path, File>, allowed: seq<Path>)
    requires PartWay(w, w', baseline, tree, allowed)
    ensures Imported(w', baseline, tree, allowed) == Imported(w, baseline, tree, allowed)
  {
    var a, b := Imported(w', baseline, tree, allowed), Imported(w, baseline, tree, allowed);
    forall p ensures (p in a <==> p in b) && (p in b ==> a[p] == b[p]) {
      assert SameAt(w', w, p) || SameAt(w', b, p);
    }
  }

  /** Importing the returned files again changes nothing more. */
  lemma ImportIsIdempotent(w: map<Path, File>, baseline: map<Path, Print>, tree: map<Path, File>, allowed: seq<Path>)
    ensures Outcome(Outcome(w, baseline, tree, allowed), baseline, tree, allowed) == Outcome(w, baseline, tree, allowed)
  {
    if allowed != [] {
      var once := Imported(w, baseline, tree, allowed);
      var twice := Imported(once, baseline, tree, allowed);
      forall p ensures (p in twice <==> p in once) && (p in once ==> twice[p] == once[p]) {}
    }
  }
}
