/**
 * Paths as strings and an abstract filesystem: the set of paths that exist
 * and the subset of them that are directories.
 */
module Paths {
  import opened Wrappers
  import opened Errors

  /** A path as `pathlib.Path` prints it; normalisation is not modelled. */
  type Path = string

  /** Index of the last occurrence of `c` in `s`. */
  function LastIndex(s: string, c: char): (r: Option<nat>)
    ensures r.None? <==> c !in s
    ensures r.Some? ==> r.value < |s| && s[r.value] == c && c !in s[r.value + 1..]
  {
    if |s| == 0 then None
    else if s[|s| - 1] == c then Some(|s| - 1)
    else
      var r := LastIndex(s[..|s| - 1], c);
      assert s == s[..|s| - 1] + [s[|s| - 1]];
      if r.Some? then
        assert s[r.value + 1..] == s[..|s| - 1][r.value + 1..] + [s[|s| - 1]];
        r
      else r
  }

  /** An occurrence of `c` with none after it is the last one. */
  lemma LastIndexAt(s: string, c: char, i: nat)
    requires i < |s| && s[i] == c && c !in s[i + 1..]
    ensures LastIndex(s, c) == Some(i)
  {
  }

  /**
   * `Path.parent`: everything before the last '/', "/" when that slash is the
   * first character, "." when there is no slash at all.
   */
  function Parent(p: Path): (q: Path)
    ensures '/' !in p ==> q == "."
    ensures '/' in p ==> 0 < |q| <= |p| && q == p[..|q|]
    ensures '/' in p && q != "/" ==> |q| < |p| && p[|q|] == '/' && '/' !in p[|q| + 1..]
    ensures '/' in p ==>
      exists i :: 0 <= i < |p| && p[i] == '/' && '/' !in p[i + 1..] && q == (if i == 0 then "/" else p[..i])
  {
    match LastIndex(p, '/')
    case None => "."
    case Some(i) => if i == 0 then "/" else p[..i]
  }

  /**
   * `p` together with all of its ancestors: the directories that
   * `mkdir(parents=True)` may have to create for `p`.
   */
  function Lineage(p: Path): (l: set<Path>)
    ensures p in l && Parent(p) in l
    ensures forall x :: x in l ==> IsAncestorOrSelf(x, p)
    decreases |p|
  {
    var q := Parent(p);
    if |q| < |p| then
      var rest := Lineage(q);
      assert forall x :: x in rest ==> IsAncestorOrSelf(x, p) by {
        forall x | x in rest
          ensures IsAncestorOrSelf(x, p)
        {
          if x == "." && x != q {
            if '/' in p {
              assert q[0] == p[0];
            }
          } else if x != q && x != "." {
            assert '/' in p;
            assert x == q[..|x|] == p[..|x|];
          }
        }
      }
      {p} + rest
    else {p, q}
  }

  /**
   * `x` is `p` itself, the current directory "." when `p` is relative, or a
   * proper prefix of `p` that ends where a '/' of `p` begins (the root "/"
   * included).
   */
  ghost predicate IsAncestorOrSelf(x: Path, p: Path)
  {
    || x == p
    || (x == "." && (|p| == 0 || p[0] != '/'))
    || (|x| < |p| && x == p[..|x|] && (p[|x|] == '/' || x == "/"))
  }

  /** A snapshot of the filesystem. */
  datatype FsState = FsState(entries: set<Path>, dirs: set<Path>)

  /** Every directory exists, and the parent of everything that exists is a directory. */
  ghost predicate WellFormed(s: FsState)
  {
    && s.dirs <= s.entries
    && forall e {:trigger Parent(e)} :: e in s.entries ==> Parent(e) in s.dirs
  }

  /**
   * The filesystem after `Path.mkdir(parents=True, exist_ok=True)`: every
   * member of the lineage becomes a directory; when one of them already
   * exists as something other than a directory the call fails and creates
   * nothing.
   */
  function AfterMkdir(s: FsState, p: Path): Result<FsState, Error>
  {
    var l := Lineage(p);
    if l * s.entries <= s.dirs then Success(FsState(s.entries + l, s.dirs + l))
    else Failure(PathCreationError(p))
  }

  /** The lineage is closed under taking parents. */
  lemma {:induction false} LineageClosed(p: Path, x: Path)
    requires x in Lineage(p)
    ensures Parent(x) in Lineage(p)
    decreases |p|
  {
    var q := Parent(p);
    if x != p && |q| < |p| {
      LineageClosed(q, x);
    }
  }

  /** In a well-formed filesystem every ancestor of a directory is a directory. */
  lemma {:induction false} DirLineage(s: FsState, p: Path)
    requires WellFormed(s) && p in s.dirs
    ensures Lineage(p) <= s.dirs
    decreases |p|
  {
    var q := Parent(p);
    assert q in s.dirs;
    if |q| < |p| {
      DirLineage(s, q);
    }
  }

  /**
   * A successful mkdir keeps the filesystem well formed, turns `p` and all
   * its ancestors into directories, and adds nothing else.
   */
  lemma MkdirMakesDirectory(s: FsState, p: Path)
    requires WellFormed(s) && AfterMkdir(s, p).Success?
    ensures var t := AfterMkdir(s, p).value;
      && WellFormed(t)
      && p in t.dirs && Lineage(p) <= t.dirs
      && s.entries <= t.entries && s.dirs <= t.dirs
      && t.entries - s.entries <= Lineage(p)
  {
    var t := AfterMkdir(s, p).value;
    forall e | e in t.entries
      ensures Parent(e) in t.dirs
    {
      if e in Lineage(p) {
        LineageClosed(p, e);
      }
    }
  }

  /** mkdir with `exist_ok=True` on an existing directory changes nothing. */
  lemma MkdirOnDirectory(s: FsState, p: Path)
    requires WellFormed(s) && p in s.dirs
    ensures AfterMkdir(s, p) == Success(s)
  {
    var l := Lineage(p);
    DirLineage(s, p);
    UnionAbsorbs(s.entries, l);
    UnionAbsorbs(s.dirs, l);
  }

  lemma UnionAbsorbs<T>(a: set<T>, b: set<T>)
    requires b <= a
    ensures a + b == a
  {
  }

  /** mkdir is idempotent: a second identical call succeeds and changes nothing. */
  lemma MkdirIdempotent(s: FsState, p: Path)
    requires WellFormed(s) && AfterMkdir(s, p).Success?
    ensures var t := AfterMkdir(s, p).value; AfterMkdir(t, p) == Success(t)
  {
    MkdirMakesDirectory(s, p);
    MkdirOnDirectory(AfterMkdir(s, p).value, p);
  }

  /** The filesystem the program runs against. */
  class FileSystem {
    var entries: set<Path>
    var dirs: set<Path>

    function State(): FsState
      reads this
    {
      FsState(entries, dirs)
    }

    ghost predicate Valid()
      reads this
    {
      WellFormed(State())
    }

    constructor (s: FsState)
      requires WellFormed(s)
      ensures Valid() && State() == s
    {
      entries, dirs := s.entries, s.dirs;
    }

    /** `Path.is_dir()` */
    predicate IsDir(p: Path)
      reads this
    {
      p in dirs
    }

    /** `Path.mkdir(parents=True, exist_ok=True)` */
    method Mkdir(p: Path) returns (r: Outcome<Error>)
      requires Valid()
      modifies this
      ensures Valid()
      ensures r.Pass? <==> AfterMkdir(old(State()), p).Success?
      ensures r.Pass? ==> State() == AfterMkdir(old(State()), p).value && p in dirs
      ensures r.Fail? ==> State() == old(State()) && r.error == PathCreationError(p)
    {
      var l := Lineage(p);
      if l * entries <= dirs {
        MkdirMakesDirectory(State(), p);
        entries, dirs := entries + l, dirs + l;
        r := Pass;
      } else {
        r := Fail(PathCreationError(p));
      }
    }
  }
}
