/**
  An abstract filesystem: a finite map from paths (sequences of names) to
  entries, each a directory or a regular file with its bytes. Python's
  `os.path`, `os`, `shutil` and `pathlib` calls that the core makes are
  functions over this map; the order in which `os.walk`, `rglob` and
  `os.listdir` visit entries is left unspecified (methods pick elements of a
  set one at a time).
 */
module FileSystem {

  newtype byte = x: int | 0 <= x < 256

  type Name = string
  type Path = seq<Name>
  type Bytes = seq<byte>

  datatype Entry = Dir | File(data: Bytes)

  type FS = map<Path, Entry>

  /** The shared machine state: the filesystem that the classes of the core read and change. */
  class Disk {
    var files: FS

    constructor (initial: FS)
      ensures files == initial
    {
      files := initial;
    }
  }

  predicate Exists(fs: FS, p: Path) {
    p in fs
  }

  predicate IsFile(fs: FS, p: Path) {
    p in fs && fs[p].File?
  }

  predicate IsDir(fs: FS, p: Path) {
    p in fs && fs[p].Dir?
  }

  /** `os.path.getsize` of a regular file. */
  function Size(fs: FS, p: Path): nat
    requires IsFile(fs, p)
  {
    |fs[p].data|
  }

  /** `os.path.getsize` of any existing path: a file's length; the model gives a directory's own size as 0. */
  function StatSize(fs: FS, p: Path): nat {
    if IsFile(fs, p) then Size(fs, p) else 0
  }

  /** `os.path.basename`; the last component. */
  function Basename(p: Path): Name {
    if p == [] then "" else p[|p| - 1]
  }

  /** `os.path.dirname`; all but the last component. */
  function Dirname(p: Path): Path {
    if p == [] then [] else p[..|p| - 1]
  }

  /** `q` is `d` or lies below it. */
  predicate IsPrefix(d: Path, q: Path) {
    |d| <= |q| && q[..|d|] == d
  }

  /** `q` lies strictly below `d`. */
  predicate Below(d: Path, q: Path) {
    |d| < |q| && q[..|d|] == d
  }

  /** Neither path lies at or below the other. */
  predicate Apart(p: Path, q: Path) {
    !IsPrefix(p, q) && !IsPrefix(q, p)
  }

  /** The regular files at any depth below `d`: `[f for f in Path(d).rglob('*') if f.is_file()]`. */
  function FilesBelow(fs: FS, d: Path): set<Path> {
    set q | q in fs && fs[q].File? && Below(d, q)
  }

  /** The names of the regular files directly inside `d`: the `files` of an `os.walk` step. */
  function FileNames(fs: FS, d: Path): set<Name> {
    set q | q in fs && fs[q].File? && |q| == |d| + 1 && q[..|d|] == d :: q[|d|]
  }

  /** The names directly inside `d`: `os.listdir(d)` as a set. */
  function Children(fs: FS, d: Path): set<Name> {
    set q | q in fs && |q| == |d| + 1 && q[..|d|] == d :: q[|d|]
  }

  ghost predicate AllFiles(fs: FS, s: set<Path>) {
    forall q | q in s :: IsFile(fs, q)
  }

  /** Total number of bytes held by the files `s`. */
  ghost function SumSizes(fs: FS, s: set<Path>): nat
    requires AllFiles(fs, s)
    decreases s
  {
    if s == {} then 0 else var q :| q in s; Size(fs, q) + SumSizes(fs, s - {q})
  }

  /** The sum does not depend on which file is taken out first. */
  lemma {:induction false} SumSizesRemove(fs: FS, s: set<Path>, q: Path)
    requires AllFiles(fs, s) && q in s
    ensures SumSizes(fs, s) == Size(fs, q) + SumSizes(fs, s - {q})
    decreases s
  {
    var x :| x in s && SumSizes(fs, s) == Size(fs, x) + SumSizes(fs, s - {x});
    if x != q {
      SumSizesRemove(fs, s - {x}, q);
      SumSizesRemove(fs, s - {q}, x);
      assert s - {x} - {q} == s - {q} - {x};
    }
  }

  /** Lists the paths of `s` one at a time, in an order the model leaves open (as `os.walk` and `rglob` do). */
  method Enumerate<T>(s: set<T>) returns (r: seq<T>)
    ensures forall q :: q in r <==> q in s
    ensures forall i, j | 0 <= i < j < |r| :: r[i] != r[j]
    ensures |r| == |s|
  {
    r := [];
    var rest := s;
    while rest != {}
      invariant rest <= s
      invariant |r| + |rest| == |s|
      invariant forall q :: q in r <==> q in s && q !in rest
      invariant forall i, j | 0 <= i < j < |r| :: r[i] != r[j]
      decreases rest
    {
      var q :| q in rest;
      r := r + [q];
      rest := rest - {q};
    }
  }

  /** `sum(f.stat().st_size for f in Path(d).rglob('*') if f.is_file())` */
  method DirSize(fs: FS, d: Path) returns (n: nat)
    ensures n == SumSizes(fs, FilesBelow(fs, d))
  {
    var files := FilesBelow(fs, d);
    var rest := files;
    n := 0;
    while rest != {}
      invariant rest <= files
      invariant n + SumSizes(fs, rest) == SumSizes(fs, files)
      decreases rest
    {
      var q :| q in rest;
      SumSizesRemove(fs, rest, q);
      n := n + Size(fs, q);
      rest := rest - {q};
    }
  }

  /**
    What the backup counts for a setting path (backup_manager.py:43-46): a
    file's own size, or the bytes of every regular file at any depth below a
    directory.
   */
  ghost function TreeSize(fs: FS, p: Path): nat {
    if IsFile(fs, p) then Size(fs, p) else SumSizes(fs, FilesBelow(fs, p))
  }

  /** The size a setting contributes (backup_manager.py:43-46), computed. */
  method TreeSizeOf(fs: FS, p: Path) returns (n: nat)
    ensures n == TreeSize(fs, p)
  {
    if IsFile(fs, p) {
      n := Size(fs, p);
    } else {
      n := DirSize(fs, p);
    }
  }

  /** The proper prefixes of `p`, root included. */
  function Ancestors(p: Path): set<Path> {
    set i | 0 <= i < |p| :: p[..i]
  }

  /** `os.makedirs(p, exist_ok=True)`: `p` and its missing ancestors become directories. */
  function MakeDirs(fs: FS, p: Path): (r: FS)
    ensures IsPrefix(p, p) && forall q | q in fs :: q in r && r[q] == fs[q]
    ensures p in r && forall a | a in Ancestors(p) :: a in r
    ensures forall q | q in r && q !in fs :: r[q] == Dir && (q == p || q in Ancestors(p))
  {
    map q | q in fs.Keys + Ancestors(p) + {p} :: if q in fs then fs[q] else Dir
  }

  /** `os.remove(p)` for a file or `shutil.rmtree(p)` for a directory: `p` and everything below it go. */
  function RemoveTree(fs: FS, p: Path): (r: FS)
    ensures forall q :: q in r <==> q in fs && !IsPrefix(p, q)
    ensures forall q | q in r :: r[q] == fs[q]
  {
    map q | q in fs && !IsPrefix(p, q) :: fs[q]
  }

  /** The paths of `keys` at or below `src`, each moved to the same relative place below `dst`. */
  function Shifted(keys: set<Path>, src: Path, dst: Path): set<Path> {
    set q | q in keys && IsPrefix(src, q) :: dst + q[|src|..]
  }

  /** Every entry of `m` at or below `src`, moved to the same relative place below `dst`. */
  function Shift<V>(m: map<Path, V>, src: Path, dst: Path): map<Path, V> {
    map k | k in Shifted(m.Keys, src, dst) && IsPrefix(dst, k) && src + k[|dst|..] in m :: m[src + k[|dst|..]]
  }

  /** `Shift` seen entry by entry: `dst + r` is in it exactly when `src + r` is in `m`, with the same value. */
  lemma ShiftAt<V>(m: map<Path, V>, src: Path, dst: Path, r: Path)
    ensures dst + r in Shift(m, src, dst) <==> src + r in m
    ensures src + r in m ==> Shift(m, src, dst)[dst + r] == m[src + r]
  {
    var q := src + r;
    assert q[..|src|] == src && q[|src|..] == r;
    assert (dst + r)[..|dst|] == dst && (dst + r)[|dst|..] == r;
  }

  /** What lies at or below `p`, keyed by the path relative to `p`. */
  function Subtree(fs: FS, p: Path): FS {
    Shift(fs, p, [])
  }

  /** Every entry at or below `src`, moved to the same relative place below `dst`. */
  function Relocate(fs: FS, src: Path, dst: Path): FS {
    Shift(fs, src, dst)
  }

  /**
    `shutil.copytree(src, dst, dirs_exist_ok=True)` where the source tree
    may lie in another filesystem value `from`: `dst` and its ancestors are
    created, then every entry at or below `src` is copied to the same
    relative place below `dst`, overwriting files and merging directories.
   */
  function CopyTreeFrom(from: FS, src: Path, fs: FS, dst: Path): FS {
    MakeDirs(fs, dst) + Relocate(from, src, dst)
  }

  /** `shutil.copytree(src, dst, dirs_exist_ok=True)` within one filesystem. */
  function CopyTree(fs: FS, src: Path, dst: Path): FS {
    CopyTreeFrom(fs, src, fs, dst)
  }

  /** Where `shutil.copy2` writes a file named `name`: into `dst` when `dst` is a directory. */
  function CopyTarget(fs: FS, name: Name, dst: Path): Path {
    if IsDir(fs, dst) then dst + [name] else dst
  }

  /** `shutil.copy2` of a file named `name` holding `data` to `dst`. */
  function CopyInto(fs: FS, name: Name, data: Bytes, dst: Path): FS {
    fs[CopyTarget(fs, name, dst) := File(data)]
  }

  /** `shutil.copy2(src, dst)` of a regular file. */
  function CopyFile(fs: FS, src: Path, dst: Path): FS
    requires IsFile(fs, src)
  {
    CopyInto(fs, Basename(src), fs[src].data, dst)
  }

  /** `copy2` onto an existing directory writes the file inside it, under the source's name. */
  lemma CopyFileIntoDir(fs: FS, src: Path, dst: Path)
    requires IsFile(fs, src) && IsDir(fs, dst)
    ensures CopyFile(fs, src, dst) == fs[dst + [Basename(src)] := File(fs[src].data)]
    ensures dst in CopyFile(fs, src, dst) && CopyFile(fs, src, dst)[dst] == Dir
  {
  }

  /** A well-formed tree: nothing lies below a regular file. */
  ghost predicate Tree(fs: FS) {
    forall p, q | p in fs && q in fs && Below(p, q) :: fs[p].Dir?
  }

  /** The regular files of `fs` with their bytes. */
  function FilesOf(fs: FS): map<Path, Bytes> {
    map q | q in fs && fs[q].File? :: fs[q].data
  }

  /** An entry at or below `src` reappears at the same relative place below `dst`. */
  lemma RelocateAt(fs: FS, src: Path, dst: Path, q: Path)
    requires q in fs && IsPrefix(src, q)
    ensures dst + q[|src|..] in Relocate(fs, src, dst) && Relocate(fs, src, dst)[dst + q[|src|..]] == fs[q]
  {
    assert q == src + q[|src|..];
    ShiftAt(fs, src, dst, q[|src|..]);
  }

  /** After `CopyTreeFrom`, an entry at or below `src` in `from` sits at its relative place below `dst`. */
  lemma CopyTreeFromAt(from: FS, src: Path, fs: FS, dst: Path, q: Path)
    requires q in from && IsPrefix(src, q)
    ensures var r := CopyTreeFrom(from, src, fs, dst);
      dst + q[|src|..] in r && r[dst + q[|src|..]] == from[q]
  {
    RelocateAt(from, src, dst, q);
  }

  /** Nothing lies at or below `p`. */
  predicate Clear(fs: FS, p: Path) {
    forall k | k in fs :: !IsPrefix(p, k)
  }

  /** `p` exists, and when it is a regular file nothing lies below it. */
  predicate Solid(fs: FS, p: Path) {
    p in fs && (fs[p].File? ==> Subtree(fs, p) == map[[] := fs[p]])
  }

  /** `Subtree` seen entry by entry: `r` is in it exactly when `p + r` is in `fs`, with the same entry. */
  lemma SubtreeAt(fs: FS, p: Path, r: Path)
    ensures r in Subtree(fs, p) <==> p + r in fs
    ensures p + r in fs ==> Subtree(fs, p)[r] == fs[p + r]
  {
    ShiftAt(fs, p, [], r);
    assert [] + r == r;
  }

  /** `Relocate` seen entry by entry: `dst + r` is in it exactly when `src + r` is in `fs`, with the same entry. */
  lemma RelocateAtRest(fs: FS, src: Path, dst: Path, r: Path)
    ensures dst + r in Relocate(fs, src, dst) <==> src + r in fs
    ensures src + r in fs ==> Relocate(fs, src, dst)[dst + r] == fs[src + r]
  {
    ShiftAt(fs, src, dst, r);
  }

  /** A path at or below `q + r` that starts at `p` means `p` and `q` are not apart. */
  lemma PrefixOfExtension(p: Path, q: Path, r: Path)
    requires IsPrefix(p, q + r)
    ensures IsPrefix(p, q) || IsPrefix(q, p)
  {
    if |p| <= |q| {
      assert q[..|p|] == (q + r)[..|p|];
    } else {
      assert p[..|q|] == (q + r)[..|q|];
    }
  }

  /** Removing the tree at `p` leaves a tree apart from it as it was. */
  lemma RemoveTreeKeepsApart(fs: FS, p: Path, q: Path)
    requires Apart(p, q)
    ensures Subtree(RemoveTree(fs, p), q) == Subtree(fs, q)
  {
    var a, b := Subtree(RemoveTree(fs, p), q), Subtree(fs, q);
    forall r
      ensures (r in a <==> r in b) && (r in a ==> a[r] == b[r])
    {
      SubtreeAt(RemoveTree(fs, p), q, r);
      SubtreeAt(fs, q, r);
      if IsPrefix(p, q + r) {
        PrefixOfExtension(p, q, r);
      }
    }
  }

  /** Whatever `MakeDirs` adds at or below `p` forces `d` to be at or below `p`. */
  lemma MakeDirsAddsAbove(fs: FS, d: Path, p: Path, r: Path)
    requires p + r in MakeDirs(fs, d) && p + r !in fs
    ensures IsPrefix(p, d)
  {
    var k := p + r;
    if k != d {
      var i :| 0 <= i < |d| && k == d[..i];
    }
    assert d[..|k|] == k;
    assert d[..|p|] == k[..|p|];
  }

  /** Creating `d` and its ancestors leaves the tree at `p` as it was when `d` is not at or below `p`. */
  lemma MakeDirsKeepsOff(fs: FS, d: Path, p: Path)
    requires !IsPrefix(p, d)
    ensures Subtree(MakeDirs(fs, d), p) == Subtree(fs, p)
  {
    var m := MakeDirs(fs, d);
    var a, b := Subtree(m, p), Subtree(fs, p);
    forall r
      ensures (r in a <==> r in b) && (r in a ==> a[r] == b[r])
    {
      SubtreeAt(m, p, r);
      SubtreeAt(fs, p, r);
      if p + r in m && p + r !in fs {
        MakeDirsAddsAbove(fs, d, p, r);
      }
    }
  }

  /** A tree copied onto a clear place is, seen from there, the source tree. */
  lemma CopyTreeFromSubtree(from: FS, src: Path, fs: FS, dst: Path)
    requires src in from && Clear(fs, dst)
    ensures Subtree(CopyTreeFrom(from, src, fs, dst), dst) == Subtree(from, src)
  {
    var c := CopyTreeFrom(from, src, fs, dst);
    var m := MakeDirs(fs, dst);
    var a, b := Subtree(c, dst), Subtree(from, src);
    forall r
      ensures (r in a <==> r in b) && (r in a ==> a[r] == b[r])
    {
      SubtreeAt(c, dst, r);
      SubtreeAt(from, src, r);
      RelocateAtRest(from, src, dst, r);
      if r == [] {
        assert dst + r == dst && src + r == src;
      } else {
        assert (dst + r)[..|dst|] == dst && dst + r != dst && dst + r !in Ancestors(dst);
      }
    }
  }

  /** A file copied onto a clear place is, seen from there, that one file. */
  lemma CopyFileSubtree(fs: FS, src: Path, dst: Path)
    requires IsFile(fs, src) && Clear(fs, dst)
    ensures Subtree(CopyFile(fs, src, dst), dst) == map[[] := fs[src]]
  {
    var c := CopyFile(fs, src, dst);
    assert dst[..|dst|] == dst;
    assert CopyTarget(fs, Basename(src), dst) == dst;
    var a, b := Subtree(c, dst), map[[] := fs[src]];
    forall r
      ensures (r in a <==> r in b) && (r in a ==> a[r] == b[r])
    {
      SubtreeAt(c, dst, r);
      assert (dst + r)[..|dst|] == dst;
      if r != [] {
        assert dst + r != dst;
      } else {
        assert dst + r == dst;
      }
    }
  }

  /** In a well-formed tree every existing path is solid. */
  lemma TreeSolid(fs: FS, p: Path)
    requires Tree(fs) && p in fs
    ensures Solid(fs, p)
  {
    if fs[p].File? {
      var a, b := Subtree(fs, p), map[[] := fs[p]];
      forall r
        ensures (r in a <==> r in b) && (r in a ==> a[r] == b[r])
      {
        SubtreeAt(fs, p, r);
        assert p + r == p <== r == [];
        if r != [] && p + r in fs {
          assert (p + r)[..|p|] == p;
          assert Below(p, p + r);
        }
      }
    }
  }
}
