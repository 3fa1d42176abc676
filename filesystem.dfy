/** The local filesystem as an abstract map from a path (its list of components) to a file
    with its bytes or a directory. Every operation the downloaders perform on disk is a
    function from one such map to the next. */
module FileSystem {
  import opened Wrappers

  newtype Byte = b: int | 0 <= b < 256

  type Name = string
  type Path = seq<Name>

  datatype Node = File(data: seq<Byte>) | Dir

  type FS = map<Path, Node>

  predicate IsFile(fs: FS, p: Path) { p in fs && fs[p].File? }

  predicate IsDir(fs: FS, p: Path) { p in fs && fs[p].Dir? }

  /** The bytes of a file, or nothing when p is not a file. */
  function Contents(fs: FS, p: Path): seq<Byte> {
    if IsFile(fs, p) then fs[p].data else []
  }

  /** get_size: the size of the file at p if there is one, else 0. */
  function SizeOrZero(fs: FS, p: Path): (n: nat)
    ensures IsFile(fs, p) ==> n == |fs[p].data|
    ensures p !in fs ==> n == 0
  {
    |Contents(fs, p)|
  }

  /** Path.name: the last component ("" for the root). */
  function Last(p: Path): Name {
    if p == [] then "" else p[|p| - 1]
  }

  /** Path.parent. */
  function Parent(p: Path): Path {
    if p == [] then [] else p[..|p| - 1]
  }

  /** Path.with_name(name). */
  function WithName(p: Path, name: Name): Path {
    Parent(p) + [name]
  }

  /** p is root itself or lies below it. */
  predicate Under(root: Path, p: Path) {
    |root| <= |p| && p[..|root|] == root
  }

  /** Path.iterdir(): the entries directly inside d. */
  function Children(fs: FS, d: Path): set<Path> {
    set p | p in fs && |p| == |d| + 1 && p[..|d|] == d
  }

  /** Path.rglob("*"): every path strictly below d. */
  function Descendants(fs: FS, d: Path): set<Path> {
    set p | p in fs && |p| > |d| && p[..|d|] == d
  }

  /** open(p, "wb") followed by writes of data. */
  function Write(fs: FS, p: Path, data: seq<Byte>): (r: FS)
    ensures r.Keys == fs.Keys + {p} && r[p] == File(data)
  {
    fs[p := File(data)]
  }

  /** open(p, "ab") followed by writes of data. */
  function Append(fs: FS, p: Path, data: seq<Byte>): (r: FS)
    ensures r.Keys == fs.Keys + {p} && r[p] == File(Contents(fs, p) + data)
  {
    fs[p := File(Contents(fs, p) + data)]
  }

  lemma AppendTwice(fs: FS, p: Path, a: seq<Byte>, b: seq<Byte>)
    ensures Append(Append(fs, p, a), p, b) == Append(fs, p, a + b)
  {
    assert Contents(Append(fs, p, a), p) + b == Contents(fs, p) + (a + b);
  }

  lemma AppendNothing(fs: FS, p: Path)
    requires IsFile(fs, p)
    ensures Append(fs, p, []) == fs
  {
    assert Contents(fs, p) + [] == fs[p].data;
  }

  /** os.remove / Path.unlink for a file. */
  function Remove(fs: FS, p: Path): (r: FS)
    ensures r.Keys == fs.Keys - {p}
  {
    fs - {p}
  }

  /** shutil.rmtree(root): root and everything below it disappear. */
  function RemoveTree(fs: FS, root: Path): (r: FS)
    ensures forall p :: p in r <==> p in fs && !Under(root, p)
    ensures forall p :: p in r ==> r[p] == fs[p]
  {
    map p | p in fs && !Under(root, p) :: fs[p]
  }

  /** Path.mkdir(exist_ok=True) (an existing entry is left as it is). */
  function MkDir(fs: FS, p: Path): (r: FS)
    ensures IsDir(r, p) || IsFile(fs, p)
    ensures r.Keys == fs.Keys + {p}
    ensures forall q :: q in fs ==> r[q] == fs[q]
  {
    if p in fs then fs else fs[p := Dir]
  }

  /** Path.mkdir(parents=True, exist_ok=True): p and every missing ancestor. */
  function MkDirs(fs: FS, p: Path): (r: FS)
    ensures fs.Keys <= r.Keys && p in r
    ensures forall q :: q in fs ==> r[q] == fs[q]
    ensures forall q :: q in r && q !in fs ==> r[q] == Dir && |q| <= |p| && p[..|q|] == q
    decreases |p|
  {
    if p == [] then MkDir(fs, p) else MkDir(MkDirs(fs, p[..|p| - 1]), p)
  }

  /** The paths the entries below src have once src is renamed to dst. */
  function MovedKeys(fs: FS, src: Path, dst: Path): set<Path> {
    set p | p in fs && Under(src, p) :: dst + p[|src|..]
  }

  lemma MovedKeysSource(fs: FS, src: Path, dst: Path, q: Path)
    requires q in MovedKeys(fs, src, dst)
    ensures Under(dst, q) && src + q[|dst|..] in fs
  {
    var p :| p in fs && Under(src, p) && q == dst + p[|src|..];
    assert q[|dst|..] == p[|src|..];
    assert src + p[|src|..] == p;
  }

  /** Path.rename(src, dst) when dst is neither inside nor above src: the whole subtree
      at src reappears at dst and nothing is left at src. */
  function Move(fs: FS, src: Path, dst: Path): (r: FS)
    requires !Under(src, dst) && !Under(dst, src)
  {
    var keys := (set p | p in fs && !Under(src, p) && !Under(dst, p)) + MovedKeys(fs, src, dst);
    map q | q in keys ::
      if Under(dst, q) then
        MovedKeysSource(fs, src, dst, q);
        fs[src + q[|dst|..]]
      else fs[q]
  }

  lemma MoveFacts(fs: FS, src: Path, dst: Path)
    requires !Under(src, dst) && !Under(dst, src)
    ensures forall p :: (p in fs && !Under(src, p) && !Under(dst, p)
      ==> p in Move(fs, src, dst) && Move(fs, src, dst)[p] == fs[p])
    ensures forall p :: p in Move(fs, src, dst) ==> !Under(src, p)
    ensures src in fs ==> dst in Move(fs, src, dst) && Move(fs, src, dst)[dst] == fs[src]
  {
    var r := Move(fs, src, dst);
    forall p | p in r ensures !Under(src, p) {
      if Under(dst, p) {
        MovedKeysSource(fs, src, dst, p);
      }
    }
    if src in fs {
      assert Under(src, src) && dst == dst + src[|src|..];
      assert dst in MovedKeys(fs, src, dst);
      assert dst[|dst|..] == [] && src + [] == src;
    }
  }

  /** Path.rename(src, dst) / os.rename(src, dst) on a POSIX system, None when it raises:
      src is missing, or one of the two lies inside the other. An existing file at dst is
      replaced. */
  function Rename(fs: FS, src: Path, dst: Path): (r: Option<FS>)
    ensures src !in fs ==> r.None?
    ensures r.Some? && src != dst ==> src !in r.value && dst in r.value && r.value[dst] == fs[src]
  {
    if src !in fs then None
    else if src == dst then Some(fs)
    else if Under(src, dst) || Under(dst, src) then None
    else
      MoveFacts(fs, src, dst);
      assert Under(src, src);
      Some(Move(fs, src, dst))
  }

  /** The engines' guarded rename: refuse when the target exists, otherwise Path.rename;
      any exception is caught and reported as False. */
  function RenameIfFree(fs: FS, temp: Path, final: Path): (r: (bool, FS))
    ensures final in fs ==> r == (false, fs)
    ensures !r.0 ==> r.1 == fs
    ensures r.0 <==> final !in fs && Rename(fs, temp, final).Some?
    ensures r.0 ==> temp !in r.1 && final in r.1 && r.1[final] == fs[temp]
  {
    if final in fs then (false, fs)
    else match Rename(fs, temp, final)
      case None => (false, fs)
      case Some(moved) => (true, moved)
  }

  /** Two different paths of the same length never lie inside one another. */
  lemma SameLengthNotNested(a: Path, b: Path)
    requires |a| == |b| && a != b
    ensures !Under(a, b) && !Under(b, a)
  {
  }

  /** open(p, "wb") or open(p, "ab") succeeds: p is not a directory and its parent directory exists. */
  predicate Openable(fs: FS, p: Path) {
    !IsDir(fs, p) && IsDir(fs, Parent(p))
  }
}
