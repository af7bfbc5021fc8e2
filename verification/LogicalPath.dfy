// paths.rs `logical_absolute`: textual normalisation of a path, component by component.

module LogicalPath {
  import opened Shared

  /** std::path::Component on unix. */
  datatype Component = RootDir | CurDir | ParentDir | Normal(name: string)

  type Path = seq<Component>

  predicate IsAbsolute(p: Path) {
    p != [] && p[0] == RootDir
  }

  /** What `components()` yields: a root, or a leading `.`, only in front. */
  predicate IsComponents(p: Path) {
    forall i :: 1 <= i < |p| ==> p[i] != RootDir && p[i] != CurDir
  }

  /** PathBuf::join: an absolute path replaces, a relative one is appended (its leading `.` is not a
      component any more). */
  function Join(a: Path, b: Path): Path {
    if IsAbsolute(b) then b else a + if b != [] && b[0] == CurDir then b[1..] else b
  }

  // ---------------------------------------------------------------- the loop

  /** One component is pushed onto, or popped off, the path built so far. */
  function Push(out: Path, c: Component): Path {
    match c
    case CurDir => out
    case ParentDir =>
      if out != [] && out[|out| - 1].Normal? then out[..|out| - 1]
      else if out != [] && out[|out| - 1] == RootDir then out
      else out + [ParentDir]
    case RootDir => [RootDir]
    case Normal(_) => out + [c]
  }

  function PushAll(out: Path, p: Path): Path {
    if p == [] then out else Push(PushAll(out, p[..|p| - 1]), p[|p| - 1])
  }

  /** The normal form; an empty result is the path `.`. */
  function Normalised(p: Path): Path {
    var out := PushAll([], p);
    if out == [] then [CurDir] else out
  }

  function Resolved(p: Path, cwd: Option<Path>): Path {
    if IsAbsolute(p) || cwd == None then p else Join(cwd.value, p)
  }

  /** logical_absolute; `cwd` is what logical_cwd() answers. */
  method LogicalAbsolute(p: Path, cwd: Option<Path>) returns (result: Path)
    ensures result == Normalised(Resolved(p, cwd))
  {
    var abs := p;
    if !IsAbsolute(p) && cwd.Some? {
      abs := Join(cwd.value, p);
    }
    var out: Path := [];
    for i := 0 to |abs|
      invariant out == PushAll([], abs[..i])
    {
      assert abs[..i + 1][..i] == abs[..i];
      match abs[i] {
        case CurDir =>
        case ParentDir =>
          if out != [] && out[|out| - 1].Normal? {
            out := out[..|out| - 1];
          } else if out != [] && out[|out| - 1] == RootDir {
          } else {
            out := out + [ParentDir];
          }
        case RootDir => out := [RootDir];
        case Normal(_) => out := out + [abs[i]];
      }
    }
    assert abs[..|abs|] == abs;
    result := if out == [] then [CurDir] else out;
  }

  // ---------------------------------------------------------------- the normal form

  predicate AllNormal(p: Path) {
    forall i :: 0 <= i < |p| ==> p[i].Normal?
  }

  /** A root and names, or a run of `..` and names. */
  predicate IsNormalForm(p: Path) {
    if IsAbsolute(p) then AllNormal(p[1..])
    else exists k: nat :: k <= |p| && LeadsUp(p, k)
  }

  predicate LeadsUp(p: Path, k: nat)
    requires k <= |p|
  {
    (forall i :: 0 <= i < k ==> p[i] == ParentDir) && AllNormal(p[k..])
  }

  lemma PushKeepsForm(out: Path, c: Component)
    requires IsNormalForm(out)
    ensures IsNormalForm(Push(out, c))
    ensures IsAbsolute(out) ==> IsAbsolute(Push(out, c))
  {
    var out' := Push(out, c);
    if IsAbsolute(out) || c == RootDir {
    } else {
      var k: nat :| k <= |out| && LeadsUp(out, k);
      if c == ParentDir && k < |out| {
        assert out[|out| - 1] == out[k..][|out| - 1 - k];
        assert LeadsUp(out', k);
      } else if c == ParentDir {
        assert LeadsUp(out', k + 1);
      } else {
        assert LeadsUp(out', k);
      }
    }
  }

  lemma {:induction false} PushAllForm(out: Path, p: Path)
    requires IsNormalForm(out)
    ensures IsNormalForm(PushAll(out, p))
    ensures IsAbsolute(out) ==> IsAbsolute(PushAll(out, p))
  {
    hide IsNormalForm;
    if p != [] {
      PushAllForm(out, p[..|p| - 1]);
      PushKeepsForm(PushAll(out, p[..|p| - 1]), p[|p| - 1]);
    }
  }

  lemma {:induction false} PushAllConcat(out: Path, a: Path, b: Path)
    ensures PushAll(out, a + b) == PushAll(PushAll(out, a), b)
  {
    if b == [] {
      assert a + b == a;
    } else {
      PushAllConcat(out, a, b[..|b| - 1]);
      assert (a + b)[..|a + b| - 1] == a + b[..|b| - 1];
    }
  }

  /** The result has no `.` and no `..` if the path is absolute; otherwise `..` only leads. It is a path
      that its own text yields again: a root, or a lone `.`, only in front. */
  lemma ResultIsNormal(p: Path)
    ensures Normalised(p) == [CurDir] || IsNormalForm(Normalised(p))
    ensures IsComponents(Normalised(p))
    ensures IsAbsolute(p) ==> IsAbsolute(Normalised(p)) && AllNormal(Normalised(p)[1..])
  {
    assert IsNormalForm([]) by { assert LeadsUp([], 0); }
    PushAllForm([], p);
    if IsAbsolute(p) {
      assert p == [RootDir] + p[1..];
      PushAllConcat([], [RootDir], p[1..]);
      assert [RootDir][..0] == [] && PushAll([], [RootDir]) == [RootDir];
      assert IsNormalForm([RootDir]);
      PushAllForm([RootDir], p[1..]);
    }
  }

  /** Pushing a normal form rebuilds it. */
  lemma {:induction false} NormalFormIsFixed(p: Path)
    requires IsNormalForm(p)
    ensures PushAll([], p) == p
  {
    if p != [] {
      var init := p[..|p| - 1];
      assert p == init + [p[|p| - 1]];
      PrefixOfForm(p);
      NormalFormIsFixed(init);
    }
  }

  /** A prefix of a path that leads up `k` times leads up as often, or all the way. */
  lemma PrefixLeadsUp(p: Path, k: nat)
    requires k <= |p| && LeadsUp(p, k) && p != []
    ensures LeadsUp(p[..|p| - 1], if k == |p| then k - 1 else k)
    ensures if k == |p| then p[|p| - 1] == ParentDir else p[|p| - 1].Normal?
  {
    if k < |p| {
      assert p[|p| - 1] == p[k..][|p| - 1 - k];
      assert p[..|p| - 1][k..] == p[k..][..|p| - 1 - k];
    }
  }

  lemma PrefixOfAbsolute(p: Path)
    requires IsAbsolute(p) && AllNormal(p[1..])
    ensures IsNormalForm(p[..|p| - 1]) && Push(p[..|p| - 1], p[|p| - 1]) == p
  {
    var init := p[..|p| - 1];
    assert p == init + [p[|p| - 1]];
    if |p| == 1 {
      assert LeadsUp(init, 0);
    } else {
      assert p[|p| - 1] == p[1..][|p| - 2] && init[1..] == p[1..][..|p| - 2];
    }
  }

  lemma PrefixOfForm(p: Path)
    requires IsNormalForm(p) && p != []
    ensures IsNormalForm(p[..|p| - 1])
    ensures Push(p[..|p| - 1], p[|p| - 1]) == p
  {
    if IsAbsolute(p) {
      PrefixOfAbsolute(p);
    } else {
      hide LeadsUp;
      var k: nat :| k <= |p| && LeadsUp(p, k);
      PrefixLeadsUp(p, k);
      PrefixOfRelative(p, k);
    }
  }

  lemma PrefixOfRelative(p: Path, k: nat)
    requires k <= |p| && LeadsUp(p, k) && p != [] && !IsAbsolute(p)
    requires LeadsUp(p[..|p| - 1], if k == |p| then k - 1 else k)
    requires if k == |p| then p[|p| - 1] == ParentDir else p[|p| - 1].Normal?
    ensures IsNormalForm(p[..|p| - 1]) && Push(p[..|p| - 1], p[|p| - 1]) == p
  {
    var init := p[..|p| - 1];
    assert p == init + [p[|p| - 1]];
    assert init != [] ==> init[0] == p[0] && init[|init| - 1] == p[|p| - 2];
  }

  /** Normalising twice is normalising once. */
  lemma Idempotent(p: Path)
    ensures Normalised(Normalised(p)) == Normalised(p)
  {
    ResultIsNormal(p);
    if Normalised(p) == [CurDir] {
      assert [CurDir][..0] == [];
      assert PushAll([], [CurDir]) == [];
    } else {
      NormalFormIsFixed(Normalised(p));
    }
  }

  /** Normalising the directory first makes no difference. */
  lemma JoinAfterNormalising(a: Path, b: Path)
    requires IsAbsolute(a) && !IsAbsolute(b)
    ensures Normalised(Join(Normalised(a), b)) == Normalised(Join(a, b))
  {
    var rest := if b != [] && b[0] == CurDir then b[1..] else b;
    ResultIsNormal(a);
    PushAllConcat([], a, rest);
    PushAllConcat([], Normalised(a), rest);
    NormalFormIsFixed(Normalised(a));
  }

  // ---------------------------------------------------------------- what the path means

  /** The directory, as the names from the root, reached by walking one component in a tree without
      symbolic links. `..` at the root stays there. */
  function Walk(dir: seq<string>, c: Component): seq<string> {
    match c
    case RootDir => []
    case CurDir => dir
    case ParentDir => if dir == [] then [] else dir[..|dir| - 1]
    case Normal(name) => dir + [name]
  }

  function WalkAll(dir: seq<string>, p: Path): seq<string> {
    if p == [] then dir else Walk(WalkAll(dir, p[..|p| - 1]), p[|p| - 1])
  }

  lemma PushMeans(dir: seq<string>, out: Path, c: Component)
    requires IsNormalForm(out)
    ensures WalkAll(dir, Push(out, c)) == Walk(WalkAll(dir, out), c)
  {
    if out != [] {
      assert out == out[..|out| - 1] + [out[|out| - 1]];
    }
    if Push(out, c) == out + [c] {
      assert (out + [c])[..|out|] == out;
    } else if c == RootDir {
      assert [RootDir][..0] == [];
    } else if c == ParentDir && out != [] && out[|out| - 1] == RootDir {
      assert out[|out| - 1] == RootDir;
      assert Walk(WalkAll(dir, out[..|out| - 1]), RootDir) == [];
    }
  }

  lemma {:induction false} PushAllMeans(dir: seq<string>, out: Path, p: Path)
    requires IsNormalForm(out)
    ensures WalkAll(dir, PushAll(out, p)) == WalkAll(WalkAll(dir, out), p)
  {
    if p != [] {
      var init := p[..|p| - 1];
      PushAllMeans(dir, out, init);
      PushAllForm(out, init);
      PushMeans(dir, PushAll(out, init), p[|p| - 1]);
    }
  }

  /** Normalising preserves meaning: from any directory, the path and its normal form lead to the same
      place. */
  lemma MeaningPreserved(dir: seq<string>, p: Path)
    ensures WalkAll(dir, Normalised(p)) == WalkAll(dir, p)
  {
    assert IsNormalForm([]) by { assert LeadsUp([], 0); }
    PushAllMeans(dir, [], p);
    assert [CurDir][..0] == [];
    assert WalkAll(dir, [CurDir]) == Walk(WalkAll(dir, []), CurDir);
  }

  lemma {:induction false} WalkAllConcat(dir: seq<string>, a: Path, b: Path)
    ensures WalkAll(dir, a + b) == WalkAll(WalkAll(dir, a), b)
  {
    if b == [] {
      assert a + b == a;
    } else {
      WalkAllConcat(dir, a, b[..|b| - 1]);
      assert (a + b)[..|a + b| - 1] == a + b[..|b| - 1];
    }
  }

  lemma JoinMeans(dir: seq<string>, a: Path, b: Path)
    requires !IsAbsolute(b)
    ensures WalkAll(dir, Join(a, b)) == WalkAll(WalkAll(dir, a), b)
  {
    if b != [] && b[0] == CurDir {
      var there := WalkAll(dir, a);
      assert b == [CurDir] + b[1..];
      WalkAllConcat(there, [CurDir], b[1..]);
      assert [CurDir][..0] == [];
      assert WalkAll(there, [CurDir]) == Walk(WalkAll(there, []), CurDir);
      WalkAllConcat(dir, a, b[1..]);
    } else {
      WalkAllConcat(dir, a, b);
    }
  }

  /** What the caller gets: a relative path is followed from the working directory if there is one, any
      other path as it stands; the result is absolute, a root and names, unless the path is relative and no
      absolute working directory is known. */
  lemma LeadsFromCwd(p: Path, cwd: Option<Path>, dir: seq<string>)
    ensures var result := Normalised(Resolved(p, cwd));
            && WalkAll(dir, result)
               == WalkAll(if cwd.Some? && !IsAbsolute(p) then WalkAll(dir, cwd.value) else dir, p)
            && (IsAbsolute(p) || (cwd.Some? && IsAbsolute(cwd.value)) ==> IsAbsolute(result) && AllNormal(result[1..]))
  {
    hide WalkAll, Normalised;
    MeaningPreserved(dir, Resolved(p, cwd));
    ResultIsNormal(Resolved(p, cwd));
    if cwd.Some? && !IsAbsolute(p) {
      JoinMeans(dir, cwd.value, p);
    }
  }

  lemma {:induction false} NamesOfForm(p: Path, dir: seq<string>)
    requires IsAbsolute(p) && AllNormal(p[1..])
    ensures |WalkAll(dir, p)| == |p| - 1
    ensures forall i :: 1 <= i < |p| ==> p[i] == Normal(WalkAll(dir, p)[i - 1])
  {
    var init, last := p[..|p| - 1], p[|p| - 1];
    if |p| > 1 {
      assert last == p[1..][|p| - 2];
      assert forall i :: 0 <= i < |init[1..]| ==> init[1..][i] == p[1..][i];
      NamesOfForm(init, dir);
    } else {
      assert last == RootDir;
    }
  }

  /** For absolute paths the normal form decides: two paths lead to the same directory if and only if
      they normalise to the same path. */
  lemma NormalFormDecides(p: Path, q: Path, dir: seq<string>)
    requires IsAbsolute(p) && IsAbsolute(q)
    ensures Normalised(p) == Normalised(q) <==> WalkAll(dir, p) == WalkAll(dir, q)
  {
    MeaningPreserved(dir, p);
    MeaningPreserved(dir, q);
    ResultIsNormal(p);
    ResultIsNormal(q);
    NamesOfForm(Normalised(p), dir);
    NamesOfForm(Normalised(q), dir);
    if WalkAll(dir, p) == WalkAll(dir, q) {
      assert forall i :: 0 <= i < |Normalised(p)| ==> Normalised(p)[i] == Normalised(q)[i];
    }
  }
}
