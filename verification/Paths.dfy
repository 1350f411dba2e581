/** Containment of template files in the base directory, by the lexical rules of path/filepath on
    Unix.  Symbolic links are not followed. */
module Paths {
  import opened Wrappers
  import opened Strings

  /** A lexed path: whether it starts at the root, and its parts. */
  datatype Path = Path(rooted: bool, parts: seq<string>)

  predicate Rooted(s: string) {
    s != "" && s[0] == '/'
  }

  /** filepath.Clean processes parts left to right, keeping a stack. */
  function Push(rooted: bool, stack: seq<string>, part: string): seq<string> {
    if part == "" || part == "." then stack
    else if part == ".." then
      if stack != [] && stack[|stack| - 1] != ".." then stack[..|stack| - 1]
      else if rooted then stack
      else stack + [".."]
    else stack + [part]
  }

  function Squash(rooted: bool, parts: seq<string>): seq<string> {
    if parts == [] then [] else Push(rooted, Squash(rooted, parts[..|parts| - 1]), parts[|parts| - 1])
  }

  function Clean(s: string): Path {
    Path(Rooted(s), Squash(Rooted(s), Split(s, '/')))
  }

  function Show(p: Path): string {
    if p.rooted then "/" + Join(p.parts, "/")
    else if p.parts == [] then "."
    else Join(p.parts, "/")
  }

  /** filepath.Join of a rooted directory and a path; also filepath.Abs, with the working directory. */
  function Under(dir: Path, p: Path): Path {
    if p.rooted then p else Path(true, Squash(true, dir.parts + p.parts))
  }

  /** The length of the longest common prefix. */
  function Common(a: seq<string>, b: seq<string>): (n: nat)
    ensures n <= |a| && n <= |b| && a[..n] == b[..n]
    ensures n < |a| && n < |b| ==> a[n] != b[n]
  {
    if a == [] || b == [] || a[0] != b[0] then 0
    else
      var n := 1 + Common(a[1..], b[1..]);
      assert a[..n] == [a[0]] + a[1..][..n - 1] && b[..n] == [b[0]] + b[1..][..n - 1];
      n
  }

  /** filepath.Rel between two rooted clean paths. */
  function RelParts(base: Path, target: Path): seq<string> {
    var n := Common(base.parts, target.parts);
    seq(|base.parts| - n, _ => "..") + target.parts[n..]
  }

  function Rel(base: Path, target: Path): string {
    Show(Path(false, RelParts(base, target)))
  }

  datatype PathError = BaseDirRequired | EscapesBaseDir

  function BaseOf(cwd: Path, baseDir: string): Path {
    Under(cwd, Clean(baseDir))
  }

  function TargetOf(cwd: Path, baseDir: string, path: string): Path {
    Under(BaseOf(cwd, baseDir), Clean(path))
  }

  function ResolveTemplateFile(cwd: Path, baseDir: string, path: string): Result<string, PathError> {
    if baseDir == "" then Err(BaseDirRequired)
    else
      var base, target := BaseOf(cwd, baseDir), TargetOf(cwd, baseDir, path);
      var rel := Rel(base, target);
      if rel == ".." || HasPrefix(rel, "../") then Err(EscapesBaseDir) else Ok(Show(target))
  }

  // ----- What it guarantees -----------------------------------------------------------------

  /** An ordinary name: neither empty nor a dot entry. */
  predicate IsName(part: string) {
    part != "" && part != "." && part != ".." && '/' !in part
  }

  predicate AllNames(parts: seq<string>) {
    forall p :: p in parts ==> IsName(p)
  }

  lemma {:induction false} SquashRootedGivesNames(parts: seq<string>)
    requires forall p :: p in parts ==> '/' !in p
    ensures AllNames(Squash(true, parts))
  {
    if parts != [] {
      SquashRootedGivesNames(parts[..|parts| - 1]);
    }
  }

  lemma {:induction false} SquashKeepsNames(rooted: bool, stack: seq<string>, names: seq<string>)
    requires Squash(rooted, stack) == stack && AllNames(names)
    ensures Squash(rooted, stack + names) == stack + names
  {
    if names == [] {
      assert stack + names == stack;
    } else {
      var init, last := names[..|names| - 1], names[|names| - 1];
      assert last in names;
      SquashKeepsNames(rooted, stack, init);
      SquashOneMore(rooted, stack + init, last);
      assert stack + names == stack + init + [last];
    }
  }

  lemma SquashNames(names: seq<string>)
    requires AllNames(names)
    ensures Squash(true, names) == names
  {
    SquashKeepsNames(true, [], names);
    assert [] + names == names;
  }

  lemma {:induction false} SquashDropsEmptyHead(rooted: bool, parts: seq<string>)
    ensures Squash(rooted, [""] + parts) == Squash(rooted, parts)
  {
    if parts == [] {
      assert [""] + parts == [""];
    } else {
      assert ([""] + parts)[..|parts|] == [""] + parts[..|parts| - 1];
      SquashDropsEmptyHead(rooted, parts[..|parts| - 1]);
    }
  }

  /** A rooted clean path, printed and read back, is itself. */
  lemma CleanShow(p: Path)
    requires p.rooted && AllNames(p.parts)
    ensures Clean(Show(p)) == p
  {
    var s := Join(p.parts, "/");
    assert ("/" + s)[1..] == s;
    SquashDropsEmptyHead(true, Split(s, '/'));
    if p.parts != [] {
      SplitJoin(p.parts, '/');
    } else {
      assert Squash(true, [""]) == Push(true, Squash(true, [""][..0]), "");
    }
    SquashNames(p.parts);
  }

  lemma RootedIsClean(dir: Path, s: string)
    requires forall p :: p in dir.parts ==> '/' !in p
    ensures Under(dir, Clean(s)).rooted && AllNames(Under(dir, Clean(s)).parts)
  {
    SquashHasNoSlash(Rooted(s), Split(s, '/'));
    if Rooted(s) {
      SquashRootedGivesNames(Split(s, '/'));
    } else {
      SquashRootedGivesNames(dir.parts + Clean(s).parts);
    }
  }

  lemma {:induction false} SquashHasNoSlash(rooted: bool, parts: seq<string>)
    requires forall p :: p in parts ==> '/' !in p
    ensures forall p :: p in Squash(rooted, parts) ==> '/' !in p
  {
    if parts != [] {
      SquashHasNoSlash(rooted, parts[..|parts| - 1]);
    }
  }

  /** The textual test on the relative path sees exactly whether it climbs; a name such as `..foo` is
      not mistaken for a climb. */
  lemma ClimbTest(base: Path, target: Path)
    requires AllNames(base.parts) && AllNames(target.parts)
    ensures (Rel(base, target) == ".." || HasPrefix(Rel(base, target), "../"))
            <==> !(base.parts <= target.parts)
  {
    var n, rel := Common(base.parts, target.parts), RelParts(base, target);
    if n < |base.parts| {
      assert rel[0] == "..";
      assert !(base.parts <= target.parts) by {
        if n < |target.parts| { assert base.parts[n] != target.parts[n]; }
      }
      if |rel| > 1 {
        assert Join(rel, "/") == ".." + "/" + Join(rel[1..], "/");
        assert HasPrefix(Rel(base, target), "../");
      }
    } else {
      assert base.parts == base.parts[..n] == target.parts[..n];
      assert rel == target.parts[n..];
      if rel != [] {
        assert rel[0] in target.parts;
        var s := Join(rel, "/");
        NameIsNoClimb(rel[0], if |rel| > 1 then "/" + Join(rel[1..], "/") else "");
        assert s == rel[0] + (if |rel| > 1 then "/" + Join(rel[1..], "/") else "");
      }
    }
  }

  lemma NameIsNoClimb(name: string, rest: string)
    requires IsName(name) && (rest == "" || rest[0] == '/')
    ensures name + rest != ".." && !HasPrefix(name + rest, "../")
  {
    var s := name + rest;
    assert s[0] == name[0];
    if |name| > 1 {
      assert s[1] == name[1];
      if |name| > 2 { assert s[2] == name[2]; }
    }
  }

  lemma RelIsRest(base: Path, target: Path)
    requires base.rooted && target.rooted && AllNames(target.parts) && base.parts <= target.parts
    ensures Under(base, Path(false, RelParts(base, target))) == target
  {
    var n := Common(base.parts, target.parts);
    assert n == |base.parts|;
    assert base.parts + target.parts[n..] == target.parts;
    assert RelParts(base, target) == target.parts[n..];
    SquashNames(target.parts);
  }

  /** A path is accepted exactly when the parts of the base directory lead the parts of the target.
      The accepted path has only ordinary names, is the base joined with its relative path, and
      resolves to itself. */
  lemma ResolveIsContainment(cwd: Path, baseDir: string, path: string)
    requires cwd.rooted && AllNames(cwd.parts) && baseDir != ""
    ensures var base, target := BaseOf(cwd, baseDir), TargetOf(cwd, baseDir, path);
            && AllNames(base.parts) && AllNames(target.parts)
            && ResolveTemplateFile(cwd, baseDir, path)
               == (if base.parts <= target.parts then Ok(Show(target)) else Err(EscapesBaseDir))
            && (base.parts <= target.parts ==>
                  && Under(base, Path(false, RelParts(base, target))) == target
                  && ResolveTemplateFile(cwd, baseDir, Show(target)) == Ok(Show(target)))
  {
    var base, target := BaseOf(cwd, baseDir), TargetOf(cwd, baseDir, path);
    RootedIsClean(cwd, baseDir);
    RootedIsClean(base, path);
    ClimbTest(base, target);
    CleanShow(target);
    if base.parts <= target.parts {
      RelIsRest(base, target);
    }
  }

  // ----- What the parts mean --------------------------------------------------------------------

  /** A sequence of `k` times `..`. */
  function Climbs(k: nat): (r: seq<string>)
    ensures |r| == k && forall p :: p in r ==> p == ".."
  {
    seq(k, _ => "..")
  }

  /** The lexer goes on from where it stands. */
  lemma {:induction false} SquashGoesOn(rooted: bool, a: seq<string>, a': seq<string>, b: seq<string>)
    requires Squash(rooted, a) == Squash(rooted, a')
    ensures Squash(rooted, a + b) == Squash(rooted, a' + b)
  {
    if b == [] {
      assert a + b == a && a' + b == a';
    } else {
      SquashGoesOn(rooted, a, a', b[..|b| - 1]);
      assert (a + b)[..|a + b| - 1] == a + b[..|b| - 1] && (a' + b)[..|a' + b| - 1] == a' + b[..|b| - 1];
    }
  }

  lemma SquashOneMore(rooted: bool, a: seq<string>, part: string)
    ensures Squash(rooted, a + [part]) == Push(rooted, Squash(rooted, a), part)
  {
    assert (a + [part])[..|a|] == a;
  }

  /** A name followed by `..` cancels anywhere in a path. */
  lemma NameAndClimbCancel(rooted: bool, a: seq<string>, name: string, b: seq<string>)
    requires IsName(name)
    ensures Squash(rooted, a + [name, ".."] + b) == Squash(rooted, a + b)
  {
    SquashOneMore(rooted, a, name);
    SquashOneMore(rooted, a + [name], "..");
    assert a + [name, ".."] == a + [name] + [".."];
    SquashGoesOn(rooted, a + [name, ".."], a, b);
  }

  /** So do empty parts and `.`. */
  lemma DotIsNothing(rooted: bool, a: seq<string>, dot: string, b: seq<string>)
    requires dot == "" || dot == "."
    ensures Squash(rooted, a + [dot] + b) == Squash(rooted, a + b)
  {
    SquashOneMore(rooted, a, dot);
    SquashGoesOn(rooted, a + [dot], a, b);
  }

  /** At the root there is nothing to climb out of. */
  lemma {:induction false} ClimbsAtRoot(k: nat)
    ensures Squash(true, Climbs(k)) == []
  {
    if k > 0 {
      ClimbsAtRoot(k - 1);
      assert Climbs(k)[..k - 1] == Climbs(k - 1);
    }
  }

  /** All but the last `k` names; none if there are not so many. */
  function Kept(names: seq<string>, k: nat): (kept: seq<string>)
    ensures kept <= names
  {
    if k <= |names| then names[..|names| - k] else []
  }

  lemma KeptOfInit(init: seq<string>, last: string, k: nat)
    ensures Kept(init + [last], k + 1) == Kept(init, k)
  {
    if k <= |init| {
      assert (init + [last])[..|init| - k] == init[..|init| - k];
    }
  }

  /** Each `..` takes the last name off a rooted path, as long as there is one. */
  lemma {:induction false} ClimbsFromNames(names: seq<string>, k: nat)
    requires AllNames(names)
    ensures Squash(true, names + Climbs(k)) == Kept(names, k)
  {
    if k == 0 {
      SquashNames(names);
      assert names + Climbs(0) == names;
    } else if names == [] {
      ClimbsAtRoot(k);
      assert names + Climbs(k) == Climbs(k);
    } else {
      var init, last := names[..|names| - 1], names[|names| - 1];
      assert names == init + [last] && last in names;
      ClimbsFromNames(init, k - 1);
      OneClimb(init, last, k - 1);
      KeptOfInit(init, last, k - 1);
    }
  }

  lemma OneClimb(init: seq<string>, last: string, k: nat)
    requires IsName(last)
    ensures Squash(true, init + [last] + Climbs(k + 1)) == Squash(true, init + Climbs(k))
  {
    NameAndClimbCancel(true, init, last, Climbs(k));
    assert Climbs(k + 1) == [".."] + Climbs(k);
    assert init + [last] + Climbs(k + 1) == init + [last, ".."] + Climbs(k);
  }

  /** A rooted path of names, then climbs, then names again. */
  lemma ClimbsThenNames(base: seq<string>, k: nat, names: seq<string>)
    requires AllNames(base) && AllNames(names)
    ensures Squash(true, base + Climbs(k) + names) == Kept(base, k) + names
  {
    var kept := Kept(base, k);
    ClimbsFromNames(base, k);
    SquashNames(kept);
    SquashGoesOn(true, base + Climbs(k), kept, names);
    SquashNames(kept + names);
  }

  /** A path of `k` times `..` followed by names, as text. */
  function RelativeText(k: nat, names: seq<string>): string { Join(Climbs(k) + names, "/") }

  lemma {:induction false} ClimbsStay(k: nat)
    ensures Squash(false, Climbs(k)) == Climbs(k)
  {
    if k > 0 {
      ClimbsStay(k - 1);
      assert Climbs(k) == Climbs(k - 1) + [".."];
      SquashOneMore(false, Climbs(k - 1), "..");
    }
  }

  /** Reading such a text gives its parts back; it is not rooted. */
  lemma CleanRelative(k: nat, names: seq<string>)
    requires AllNames(names) && Climbs(k) + names != []
    ensures Clean(RelativeText(k, names)) == Path(false, Climbs(k) + names)
  {
    var parts := Climbs(k) + names;
    assert forall p :: p in parts ==> p == ".." || p in names;
    SplitJoin(parts, '/');
    assert parts[0] != "" && parts[0][0] != '/' by { assert parts[0] in parts; }
    assert Join(parts, "/")[0] == parts[0][0];
    ClimbsStay(k);
    SquashKeepsNames(false, Climbs(k), names);
  }

  /** Where a relative path leads from a base directory given by its rooted path: up by its climbs, but not
      beyond the root, and down by its names. */
  lemma RelativeTarget(cwd: Path, base: seq<string>, k: nat, names: seq<string>)
    requires AllNames(base) && AllNames(names) && k + |names| > 0
    ensures BaseOf(cwd, Show(Path(true, base))) == Path(true, base)
    ensures TargetOf(cwd, Show(Path(true, base)), RelativeText(k, names))
            == Path(true, Kept(base, k) + names)
  {
    CleanShow(Path(true, base));
    CleanRelative(k, names);
    assert base + (Climbs(k) + names) == base + Climbs(k) + names;
    ClimbsThenNames(base, k, names);
  }

  /** So a relative path of `k` climbs and then names is accepted exactly if these names begin with the names it
      has climbed out of, and then stands for the base with the climbs undone. */
  lemma RelativeAcceptedExactly(cwd: Path, base: seq<string>, k: nat, names: seq<string>)
    requires cwd.rooted && AllNames(cwd.parts) && AllNames(base) && AllNames(names) && k + |names| > 0
    ensures var kept := Kept(base, k);
            ResolveTemplateFile(cwd, Show(Path(true, base)), RelativeText(k, names))
            == if base[|kept|..] <= names then Ok("/" + Join(kept + names, "/")) else Err(EscapesBaseDir)
  {
    var kept := Kept(base, k);
    RelativeTarget(cwd, base, k, names);
    ResolveIsContainment(cwd, Show(Path(true, base)), RelativeText(k, names));
    assert kept == base[..|kept|];
    BeginsExactly(base, |kept|, names);
  }

  lemma BeginsExactly(base: seq<string>, n: nat, names: seq<string>)
    requires n <= |base|
    ensures base <= base[..n] + names <==> base[n..] <= names
  {
    var whole := base[..n] + names;
    assert base == base[..n] + base[n..];
    if base <= whole {
      assert base[n..] == whole[..|base|][n..] == names[..|base| - n];
    }
    if base[n..] <= names {
      assert whole[..|base|] == base[..n] + names[..|base| - n];
    }
  }

  /** A rooted path stands for itself, and is accepted exactly if it begins with the base. */
  lemma RootedAcceptedExactly(cwd: Path, base: seq<string>, names: seq<string>)
    requires cwd.rooted && AllNames(cwd.parts) && AllNames(base) && AllNames(names)
    ensures var path := "/" + Join(names, "/");
            ResolveTemplateFile(cwd, Show(Path(true, base)), path)
            == if base <= names then Ok(path) else Err(EscapesBaseDir)
  {
    CleanShow(Path(true, base));
    CleanShow(Path(true, names));
    ResolveIsContainment(cwd, Show(Path(true, base)), "/" + Join(names, "/"));
  }

  /** A relative base directory lies under the working directory. */
  lemma RelativeBase(cwd: Path, k: nat, names: seq<string>)
    requires cwd.rooted && AllNames(cwd.parts) && AllNames(names) && k + |names| > 0
    ensures BaseOf(cwd, RelativeText(k, names))
            == Path(true, Kept(cwd.parts, k) + names)
  {
    CleanRelative(k, names);
    assert cwd.parts + (Climbs(k) + names) == cwd.parts + Climbs(k) + names;
    ClimbsThenNames(cwd.parts, k, names);
  }
}
