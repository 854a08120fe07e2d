/** The in-memory filesystem as a map from paths to what is there. Paths are lists of components,
    already normalized. */
module MemTrees {
  import opened Base

  type Path = seq<string>

  /** The contents of one file, shared by every handle opened on it. */
  class FileData {
    var bytes: seq<byte>

    constructor (bytes: seq<byte>)
      ensures this.bytes == bytes
    {
      this.bytes := bytes;
    }
  }

  datatype Node = Dir(entries: map<string, Node>) | File(data: FileData) | Link(target: string)

  /** What is at a path, what lies below it aside. */
  datatype Flat = DirHere | FileHere(data: FileData) | LinkHere(target: string)

  function Flatten(n: Node): Flat {
    match n
    case Dir(_) => DirHere
    case File(data) => FileHere(data)
    case Link(target) => LinkHere(target)
  }

  function Find(n: Node, p: Path): Option<Node> {
    if |p| == 0 then Some(n)
    else if n.Dir? && p[0] in n.entries then Find(n.entries[p[0]], p[1..])
    else None
  }

  /** The tree as a map from paths. */
  function At(n: Node, p: Path): Option<Flat> {
    match Find(n, p)
    case Some(found) => Some(Flatten(found))
    case None => None
  }

  predicate IsDirAt(n: Node, p: Path) {
    At(n, p) == Some(DirHere)
  }

  function Parent(p: Path): Path
    requires |p| > 0
  {
    p[..|p| - 1]
  }

  /** The tree with `x` at `p`, whose parent is a directory. */
  function Put(n: Node, p: Path, x: Node): Node
    requires |p| > 0 && IsDirAt(n, Parent(p))
  {
    if |p| == 1 then Dir(n.entries[p[0] := x])
    else
      assert Parent(p)[1..] == Parent(p[1..]);
      Dir(n.entries[p[0] := Put(n.entries[p[0]], p[1..], x)])
  }

  /** The tree without what is at `p`. */
  function Cut(n: Node, p: Path): Node
    requires |p| > 0 && IsDirAt(n, Parent(p))
  {
    if |p| == 1 then Dir(n.entries - {p[0]})
    else
      assert Parent(p)[1..] == Parent(p[1..]);
      Dir(n.entries[p[0] := Cut(n.entries[p[0]], p[1..])])
  }

  // ----- the map and the tree ------------------------------------------------------------

  lemma {:induction false} FindBelow(n: Node, p: Path, q: Path)
    ensures Find(n, p + q) == if Find(n, p).Some? then Find(Find(n, p).value, q) else None
  {
    if |p| == 0 {
      assert p + q == q;
    } else if n.Dir? && p[0] in n.entries {
      assert (p + q)[1..] == p[1..] + q;
      FindBelow(n.entries[p[0]], p[1..], q);
    }
  }

  /** The map is closed under prefixes: whatever has something below it is a directory. */
  lemma PrefixClosed(n: Node, p: Path, q: Path)
    requires |q| > 0 && At(n, p + q).Some?
    ensures IsDirAt(n, p)
  {
    FindBelow(n, p, q);
  }

  /** Putting changes the paths at and below `p`, and those alone. */
  lemma {:induction false} PutAt(n: Node, p: Path, x: Node, q: Path)
    requires |p| > 0 && IsDirAt(n, Parent(p))
    ensures At(Put(n, p, x), q) == if p <= q then At(x, q[|p|..]) else At(n, q)
  {
    if |p| == 1 {
      HeadPrefix(p, q);
    } else {
      assert Parent(p)[1..] == Parent(p[1..]);
      if |q| > 0 && q[0] == p[0] {
        PutAt(n.entries[p[0]], p[1..], x, q[1..]);
        TailPrefix(p, q);
        if p <= q {
          assert q[1..][|p| - 1..] == q[|p|..];
        }
      }
    }
  }

  lemma HeadPrefix(p: Path, q: Path)
    requires |p| == 1
    ensures p <= q <==> |q| > 0 && q[0] == p[0]
  {
    assert |q| > 0 ==> q[..1] == [q[0]];
    assert p == [p[0]];
  }

  lemma TailPrefix(p: Path, q: Path)
    requires |p| > 0 && |q| > 0 && p[0] == q[0]
    ensures p <= q <==> p[1..] <= q[1..]
  {
    if p[1..] <= q[1..] {
      assert p == [p[0]] + p[1..] && q == [q[0]] + q[1..];
    }
  }

  /** Cutting removes the paths at and below `p`, and those alone. */
  lemma {:induction false} CutAt(n: Node, p: Path, q: Path)
    requires |p| > 0 && IsDirAt(n, Parent(p))
    ensures At(Cut(n, p), q) == if p <= q then None else At(n, q)
  {
    if |p| == 1 {
      HeadPrefix(p, q);
    } else {
      assert Parent(p)[1..] == Parent(p[1..]);
      if |q| > 0 && q[0] == p[0] {
        CutAt(n.entries[p[0]], p[1..], q[1..]);
        TailPrefix(p, q);
      }
    }
  }

  /** What was cut out and put back leaves the tree as it was. */
  lemma {:induction false} PutBack(n: Node, p: Path)
    requires |p| > 0 && IsDirAt(n, Parent(p)) && Find(n, p).Some?
    ensures IsDirAt(Cut(n, p), Parent(p)) && Put(Cut(n, p), p, Find(n, p).value) == n
  {
    CutAt(n, p, Parent(p));
    if |p| == 1 {
      assert (n.entries - {p[0]})[p[0] := n.entries[p[0]]] == n.entries;
    } else {
      assert Parent(p)[1..] == Parent(p[1..]);
      var below := n.entries[p[0]];
      PutBack(below, p[1..]);
      assert n.entries[p[0] := Cut(below, p[1..])][p[0] := below] == n.entries;
    }
  }

  lemma FoundAt(n: Node, p: Path, q: Path)
    ensures Find(n, p).Some? ==> At(Find(n, p).value, q) == At(n, p + q)
    ensures Find(n, p).Some? <==> At(n, p).Some?
  {
    FindBelow(n, p, q);
  }

  lemma ParentIsDir(n: Node, p: Path)
    requires |p| > 0 && At(n, p).Some?
    ensures IsDirAt(n, Parent(p))
  {
    assert p == Parent(p) + [p[|p| - 1]];
    PrefixClosed(n, Parent(p), [p[|p| - 1]]);
  }

  // ----- directories made along the way --------------------------------------------------

  /** Every missing directory along `p`, stopping at anything that is not a directory. */
  function MadeDirs(n: Node, p: Path): Node
    decreases |p|
  {
    if |p| == 0 || !n.Dir? then n
    else
      var child := if p[0] in n.entries then n.entries[p[0]] else Dir(map[]);
      Dir(n.entries[p[0] := MadeDirs(child, p[1..])])
  }

  /** Making directories adds those missing on the way and changes nothing that was there. */
  lemma {:induction false} MadeDirsAt(n: Node, p: Path, q: Path)
    ensures At(n, q).Some? ==> At(MadeDirs(n, p), q) == At(n, q)
    ensures At(n, q).None? && At(MadeDirs(n, p), q).Some? ==> q <= p && At(MadeDirs(n, p), q) == Some(DirHere)
    decreases |p|
  {
    if |p| > 0 && n.Dir? && |q| > 0 && q[0] == p[0] {
      var child := if p[0] in n.entries then n.entries[p[0]] else Dir(map[]);
      MadeDirsAt(child, p[1..], q[1..]);
      TailPrefix(q, p);
    }
  }

  /** Afterwards `p` is a directory, unless something else stands in the way, and then nothing changed. */
  lemma {:induction false} MadeDirsReach(n: Node, p: Path)
    ensures IsDirAt(MadeDirs(n, p), p) || MadeDirs(n, p) == n
    ensures IsDirAt(MadeDirs(n, p), p) <==> forall k :: 0 <= k <= |p| ==> At(n, p[..k]).None? || IsDirAt(n, p[..k])
    decreases |p|
  {
    if |p| == 0 {
      assert p[..0] == p;
    } else if n.Dir? {
      var child := if p[0] in n.entries then n.entries[p[0]] else Dir(map[]);
      MadeDirsReach(child, p[1..]);
      if p[0] in n.entries {
        assert n.entries[p[0] := child] == n.entries;
      }
      forall k | 0 < k <= |p|
        ensures p[0] in n.entries ==> At(n, p[..k]) == At(child, p[1..][..k - 1])
        ensures p[0] !in n.entries ==> At(n, p[..k]).None?
      {
        assert p[..k][1..] == p[1..][..k - 1];
      }
      if p[0] !in n.entries {
        EmptyHasNothing(p[1..]);
      }
      ReachIff(n, child, p);
    } else {
      assert At(n, p[..0]) == Some(Flatten(n));
    }
  }

  lemma EmptyHasNothing(p: Path)
    ensures forall k :: 0 <= k <= |p| ==> At(Dir(map[]), p[..k]).None? || IsDirAt(Dir(map[]), p[..k])
  {
  }

  lemma ReachIff(n: Node, child: Node, p: Path)
    requires |p| > 0 && n.Dir? && child == (if p[0] in n.entries then n.entries[p[0]] else Dir(map[]))
    ensures (forall k :: 0 <= k <= |p| ==> At(n, p[..k]).None? || IsDirAt(n, p[..k]))
       <==> (forall k :: 0 <= k <= |p[1..]| ==> At(child, p[1..][..k]).None? || IsDirAt(child, p[1..][..k]))
  {
    if p[0] in n.entries {
      forall k | 0 <= k < |p| ensures At(n, p[..k + 1]) == At(child, p[1..][..k]) {
        assert p[..k + 1][1..] == p[1..][..k];
      }
      if forall k :: 0 <= k <= |p| ==> At(n, p[..k]).None? || IsDirAt(n, p[..k]) {
        forall k | 0 <= k <= |p[1..]| ensures At(child, p[1..][..k]).None? || IsDirAt(child, p[1..][..k]) {
          assert At(n, p[..k + 1]) == At(child, p[1..][..k]);
        }
      }
      if forall k :: 0 <= k <= |p[1..]| ==> At(child, p[1..][..k]).None? || IsDirAt(child, p[1..][..k]) {
        forall k | 0 <= k <= |p| ensures At(n, p[..k]).None? || IsDirAt(n, p[..k]) {
          if k > 0 {
            assert At(n, p[..k - 1 + 1]) == At(child, p[1..][..k - 1]);
          }
        }
      }
    } else {
      EmptyHasNothing(p[1..]);
      forall k | 0 < k <= |p| ensures At(n, p[..k]).None? {
        assert p[..k][0] == p[0];
      }
    }
  }

  // ----- the filesystem ------------------------------------------------------------------

  /** The error of a directory that cannot be used: nothing there, or something else. */
  function NoDir(n: Node, p: Path): Errno {
    if At(n, p).None? then NOENT else NOTDIR
  }

  /** The file at a path, as the set of data an operation on it may touch. */
  function DataAt(n: Node, p: Path): set<FileData> {
    match At(n, p)
    case Some(FileHere(data)) => {data}
    case _ => {}
  }

  /** The bytes of the file at a path, if there is one. */
  function Contents(n: Node, p: Path): Option<seq<byte>>
    reads DataAt(n, p)
  {
    match At(n, p)
    case Some(FileHere(data)) => Some(data.bytes)
    case _ => None
  }

  datatype OpenOptions = OpenOptions(write: bool, create: bool, createNew: bool, truncate: bool, append: bool)

  class MemVfs {
    var root: Node

    constructor ()
      ensures root == Dir(map[])
    {
      root := Dir(map[]);
    }

    /** Walk from the root, one component at a time. */
    method Locate(path: Path) returns (r: Option<Node>)
      ensures r == Find(root, path)
    {
      var cur := root;
      var i := 0;
      while i < |path|
        invariant i <= |path| && Find(root, path) == Find(cur, path[i..])
      {
        if !cur.Dir? || path[i] !in cur.entries {
          return None;
        }
        cur := cur.entries[path[i]];
        assert path[i..][1..] == path[i + 1..];
        i := i + 1;
      }
      r := Some(cur);
    }

    /** Put a new entry where there is none, in a directory that is there. */
    method Enter(path: Path, x: Node) returns (r: Result<(), Errno>)
      requires |path| > 0 && At(root, path).None?
      requires x.Dir? ==> x.entries == map[]
      modifies this
      ensures r == if IsDirAt(old(root), Parent(path)) then Ok(()) else Err(NoDir(old(root), Parent(path)))
      ensures r.Ok? ==> forall q: Path :: At(root, q) == if q == path then Some(Flatten(x)) else At(old(root), q)
      ensures r.Err? ==> root == old(root)
    {
      var dir := Locate(Parent(path));
      if dir.None? {
        return Err(NOENT);
      }
      if !dir.value.Dir? {
        return Err(NOTDIR);
      }
      ghost var before := root;
      root := Put(root, path, x);
      forall q: Path ensures At(root, q) == if q == path then Some(Flatten(x)) else At(before, q) {
        PutAt(before, path, x, q);
        if path <= q {
          var rest := q[|path|..];
          assert q == path + rest;
          FoundAt(before, path, rest);
          FindBelow(before, path, rest);
          assert rest != [] ==> Find(x, rest).None?;
        }
      }
      r := Ok(());
    }

    method Mkdir(path: Path) returns (r: Result<(), Errno>)
      modifies this
      ensures r.Ok? <==> path != [] && At(old(root), path).None? && IsDirAt(old(root), Parent(path))
      ensures r.Ok? ==> forall q: Path :: At(root, q) == if q == path then Some(DirHere) else At(old(root), q)
      ensures r.Err? ==> root == old(root)
      ensures r.Err? ==> r.error == if path == [] || At(root, path).Some? then EXIST else NoDir(root, Parent(path))
    {
      if path == [] {
        return Err(EXIST);
      }
      var there := Locate(path);
      if there.Some? {
        return Err(EXIST);
      }
      r := Enter(path, Dir(map[]));
    }

    method Symlink(target: string, path: Path) returns (r: Result<(), Errno>)
      modifies this
      ensures r.Ok? <==> path != [] && At(old(root), path).None? && IsDirAt(old(root), Parent(path))
      ensures r.Ok? ==> forall q: Path :: At(root, q) == if q == path then Some(LinkHere(target)) else At(old(root), q)
      ensures r.Err? ==> root == old(root)
      ensures r.Err? ==> r.error == if path == [] || At(root, path).Some? then EXIST else NoDir(root, Parent(path))
    {
      if path == [] {
        return Err(EXIST);
      }
      var there := Locate(path);
      if there.Some? {
        return Err(EXIST);
      }
      r := Enter(path, Link(target));
    }

    /** Take away one entry with nothing below it. */
    method Remove(path: Path)
      requires |path| > 0 && At(root, path).Some? && forall q: Path :: path < q ==> At(root, q).None?
      modifies this
      ensures forall q: Path :: At(root, q) == if q == path then None else At(old(root), q)
    {
      ParentIsDir(root, path);
      ghost var before := root;
      root := Cut(root, path);
      forall q: Path ensures At(root, q) == if q == path then None else At(before, q) {
        CutAt(before, path, q);
        assert path <= q && q != path ==> path < q;
      }
    }

    method Unlink(path: Path) returns (r: Result<(), Errno>)
      modifies this
      ensures r.Ok? <==> path != [] && At(old(root), path).Some? && !IsDirAt(old(root), path)
      ensures r.Ok? ==> forall q: Path :: At(root, q) == if q == path then None else At(old(root), q)
      ensures r.Err? ==> root == old(root)
      ensures r.Err? && path != [] ==>
        r.error == if IsDirAt(root, path) then ISDIR else if IsDirAt(root, Parent(path)) then NOENT
          else NoDir(root, Parent(path))
    {
      if path == [] {
        return Err(NOENT);
      }
      var dir := Locate(Parent(path));
      var there := Locate(path);
      if there.Some? {
        ParentIsDir(root, path);
      }
      if dir.None? {
        return Err(NOENT);
      }
      if !dir.value.Dir? {
        return Err(NOTDIR);
      }
      if there.None? {
        return Err(NOENT);
      }
      if there.value.Dir? {
        return Err(ISDIR);
      }
      forall q: Path | path < q ensures At(root, q).None? {
        assert q == path + q[|path|..];
        FindBelow(root, path, q[|path|..]);
      }
      Remove(path);
      r := Ok(());
    }

    method Rmdir(path: Path) returns (r: Result<(), Errno>)
      modifies this
      ensures r.Ok? <==> path != [] && IsDirAt(old(root), path) && forall q: Path :: path < q ==> At(old(root), q).None?
      ensures r.Ok? ==> forall q: Path :: At(root, q) == if q == path then None else At(old(root), q)
      ensures r.Err? ==> root == old(root)
      ensures r.Err? && path != [] ==>
        r.error == if IsDirAt(root, path) then NOTEMPTY
                   else if At(root, path).Some? then NOTDIR
                   else if IsDirAt(root, Parent(path)) then NOENT else NoDir(root, Parent(path))
    {
      if path == [] {
        return Err(NOENT);
      }
      var dir := Locate(Parent(path));
      var there := Locate(path);
      if there.Some? {
        ParentIsDir(root, path);
      }
      if dir.None? {
        return Err(NOENT);
      }
      if !dir.value.Dir? {
        return Err(NOTDIR);
      }
      if there.None? {
        return Err(NOENT);
      }
      if !there.value.Dir? {
        return Err(NOTDIR);
      }
      if there.value.entries != map[] {
        ghost var name :| name in there.value.entries;
        FindBelow(root, path, [name]);
        assert path < path + [name] && At(root, path + [name]).Some?;
        return Err(NOTEMPTY);
      }
      forall q: Path | path < q ensures At(root, q).None? {
        assert q == path + q[|path|..];
        FindBelow(root, path, q[|path|..]);
      }
      Remove(path);
      r := Ok(());
    }

    /** Move what is at `from`, everything below it included, to `to`, over whatever is there. It
        fails, changing nothing, without a source, without a directory to move into, and when that
        directory is inside what would be moved. */
    method Rename(from: Path, to: Path) returns (r: Result<(), Errno>)
      modifies this
      ensures r.Ok? <==>
        from != [] && to != [] && At(old(root), from).Some? && IsDirAt(old(root), Parent(to)) && !(from <= Parent(to))
      ensures r.Ok? ==> forall q: Path ::
        At(root, q) == if to <= q then At(old(root), from + q[|to|..]) else if from <= q then None else At(old(root), q)
      ensures r.Err? ==> root == old(root)
    {
      if from == [] || to == [] {
        return Err(INVAL);
      }
      var dir := Locate(Parent(from));
      var there := Locate(from);
      if there.Some? {
        ParentIsDir(root, from);
      }
      if dir.None? {
        return Err(NOENT);
      }
      if !dir.value.Dir? {
        return Err(NOTDIR);
      }
      if there.None? {
        return Err(NOENT);
      }
      ghost var before := root;
      root := Cut(root, from);
      CutAt(before, from, Parent(to));
      var into := Locate(Parent(to));
      if into.None? || !into.value.Dir? {
        PutBack(before, from);
        root := Put(root, from, there.value);
        return Err(if into.None? then NOENT else NOTDIR);
      }
      ghost var without := root;
      root := Put(root, to, there.value);
      forall q: Path
        ensures At(root, q) == if to <= q then At(before, from + q[|to|..]) else if from <= q then None
          else At(before, q)
      {
        PutAt(without, to, there.value, q);
        CutAt(before, from, q);
        if to <= q {
          FoundAt(before, from, q[|to|..]);
        }
      }
      r := Ok(());
    }

    /** Every missing directory along `path`. */
    method MkdirAll(path: Path)
      modifies this
      ensures root == MadeDirs(old(root), path)
      ensures forall q: Path :: At(old(root), q).Some? ==> At(root, q) == At(old(root), q)
      ensures forall q: Path :: At(old(root), q).None? && At(root, q).Some? ==> q <= path && IsDirAt(root, q)
    {
      root := MadeDirs(root, path);
      forall q: Path
        ensures At(old(root), q).Some? ==> At(root, q) == At(old(root), q)
        ensures At(old(root), q).None? && At(root, q).Some? ==> q <= path && IsDirAt(root, q)
      {
        MadeDirsAt(old(root), path, q);
      }
    }

    method ReadFile(path: Path) returns (r: Result<seq<byte>, Errno>)
      ensures match At(root, path)
        case Some(FileHere(data)) => r == Ok(data.bytes)
        case Some(DirHere) => r == Err(ISDIR)
        case _ => r == Err(NOENT)
    {
      var there := Locate(path);
      match there
      case Some(File(data)) => r := Ok(data.bytes);
      case Some(Dir(_)) => r := Err(ISDIR);
      case _ => r := Err(NOENT);
    }

    /** The names in a directory: exactly the components that lead somewhere from it. */
    method Readdir(path: Path) returns (r: Result<set<string>, Errno>)
      ensures if IsDirAt(root, path) then r.Ok? else r == Err(NoDir(root, path))
      ensures r.Ok? ==> forall name :: name in r.value <==> At(root, path + [name]).Some?
    {
      var there := Locate(path);
      match there
      case None => r := Err(NOENT);
      case Some(File(_)) => r := Err(NOTDIR);
      case Some(Link(_)) => r := Err(NOTDIR);
      case Some(Dir(entries)) =>
        r := Ok(entries.Keys);
        forall name ensures name in entries.Keys <==> At(root, path + [name]).Some? {
          FindBelow(root, path, [name]);
        }
    }

    /** A handle on a file, made if asked for; a file already there keeps its identity. */
    method Open(path: Path, o: OpenOptions) returns (r: Result<MemFile, Errno>)
      modifies this, DataAt(root, path)
      ensures r.Ok? <==>
        path != [] && match At(old(root), path)
          case Some(FileHere(_)) => !o.createNew
          case Some(_) => false
          case None => (o.create || o.createNew) && IsDirAt(old(root), Parent(path))
      ensures r.Ok? ==>
        var f := r.value;
        && fresh(f) && f.append == o.append && f.writable == (o.write || o.append)
        && f.pos == (if o.append then |f.data.bytes| else 0)
        && (match At(old(root), path)
            case Some(FileHere(data)) =>
              f.data == data && root == old(root)
              && data.bytes == if o.truncate && o.write then [] else old(Contents(root, path)).value
            case _ =>
              fresh(f.data) && f.data.bytes == []
              && forall q: Path :: At(root, q) == if q == path then Some(FileHere(f.data)) else At(old(root), q))
      ensures r.Err? ==> root == old(root) && Contents(root, path) == old(Contents(root, path))
    {
      if path == [] {
        return Err(ISDIR);
      }
      var there := Find(root, path);
      var data;
      match there {
        case Some(Dir(_)) => return Err(ISDIR);
        case Some(Link(_)) => return Err(LOOP);
        case Some(File(existing)) =>
          if o.createNew {
            return Err(EXIST);
          }
          if o.truncate && o.write {
            existing.bytes := [];
          }
          data := existing;
        case None =>
          if !o.create && !o.createNew {
            return Err(NOENT);
          }
          data := new FileData([]);
          var entered := Enter(path, File(data));
          if entered.Err? {
            return Err(entered.error);
          }
      }
      var f := new MemFile(data, if o.append then |data.bytes| else 0, o.append, o.write || o.append);
      r := Ok(f);
    }

    /** Replace a file's contents, making the file and its directories if they are missing; an open
        handle on it sees the change. */
    method WriteFile(path: Path, contents: seq<byte>) returns (r: Result<(), Errno>)
      modifies this, DataAt(root, path)
      ensures r.Ok? <==>
        && path != [] && (At(old(root), path).None? || At(old(root), path).value.FileHere?)
        && forall k :: 0 <= k < |path| ==> At(old(root), path[..k]).None? || IsDirAt(old(root), path[..k])
      ensures r.Ok? ==>
        && At(root, path).Some? && At(root, path).value.FileHere? && At(root, path).value.data.bytes == contents
        && (At(old(root), path).Some? ==> root == old(root))
        && (forall q: Path :: At(old(root), q).Some? ==> At(root, q) == At(old(root), q))
        && (forall q: Path :: q != path && At(old(root), q).None? && At(root, q).Some? ==> q < path && IsDirAt(root, q))
      ensures r.Err? ==> root == old(root) && Contents(root, path) == old(Contents(root, path))
    {
      if path == [] {
        return Err(ISDIR);
      }
      ghost var before := root;
      var there := Find(root, path);
      Reaches(root, path);
      root := MadeDirs(root, Parent(path));
      forall q: Path ensures At(before, q).Some? ==> At(root, q) == At(before, q)
                     ensures At(before, q).None? && At(root, q).Some? ==> q <= Parent(path) && IsDirAt(root, q)
      {
        MadeDirsAt(before, Parent(path), q);
      }
      var dir := Find(root, Parent(path));
      if dir.None? {
        return Err(NOENT);
      }
      if !dir.value.Dir? {
        return Err(NOTDIR);
      }
      match there {
        case Some(File(data)) =>
          data.bytes := contents;
        case Some(_) => return Err(ISDIR);
        case None =>
          var data := new FileData(contents);
          assert !(path <= Parent(path));
          var entered := Enter(path, File(data));
      }
      r := Ok(());
    }
  }

  /** Directories along a path can be made, or are all there already, or nothing is made. */
  lemma Reaches(n: Node, path: Path)
    requires |path| > 0
    ensures var made := MadeDirs(n, Parent(path));
      && (IsDirAt(made, Parent(path)) || made == n)
      && (At(n, path).Some? ==> made == n)
      && (IsDirAt(made, Parent(path)) <==>
            forall k :: 0 <= k < |path| ==> At(n, path[..k]).None? || IsDirAt(n, path[..k]))
  {
    MadeDirsReach(n, Parent(path));
    assert forall k :: 0 <= k <= |Parent(path)| ==> Parent(path)[..k] == path[..k];
    if At(n, path).Some? {
      ParentIsDir(n, path);
      MadeDirsThere(n, Parent(path));
    }
  }

  lemma {:induction false} MadeDirsThere(n: Node, p: Path)
    requires IsDirAt(n, p)
    ensures MadeDirs(n, p) == n
    decreases |p|
  {
    if |p| > 0 {
      MadeDirsThere(n.entries[p[0]], p[1..]);
      assert n.entries[p[0] := n.entries[p[0]]] == n.entries;
    }
  }

  // ----- open files ----------------------------------------------------------------------

  function Zeros(n: nat): (r: seq<byte>)
    ensures |r| == n && forall i :: 0 <= i < n ==> r[i] == 0
  {
    seq(n, _ => 0)
  }

  /** `bytes` written over `data` from `start`, the gap before it, if any, filled with zeros. */
  function Overwritten(data: seq<byte>, start: nat, bytes: seq<byte>): (r: seq<byte>)
    ensures |r| == Max(|data|, start + |bytes|)
    ensures forall i :: 0 <= i < |r| ==>
      r[i] == if start <= i < start + |bytes| then bytes[i - start] else if i < |data| then data[i] else 0
  {
    var end := start + |bytes|;
    var wide := if |data| < end then data + Zeros(end - |data|) else data;
    wide[..start] + bytes + wide[end..]
  }

  class MemFile {
    const data: FileData
    const append: bool
    const writable: bool
    var pos: nat

    constructor (data: FileData, pos: nat, append: bool, writable: bool)
      ensures this.data == data && this.pos == pos && this.append == append && this.writable == writable
    {
      this.data, this.pos, this.append, this.writable := data, pos, append, writable;
    }

    /** The next bytes, as many as are left and asked for. */
    method Read(len: nat) returns (bytes: seq<byte>)
      modifies this
      ensures bytes <= data.bytes[Min(old(pos), |data.bytes|)..]
      ensures |bytes| == Min(len, |data.bytes| - Min(old(pos), |data.bytes|)) && pos == old(pos) + |bytes|
    {
      var start := Min(pos, |data.bytes|);
      var n := Min(|data.bytes| - start, len);
      bytes := data.bytes[start..start + n];
      pos := pos + n;
    }

    /** Bytes at the position, or at the end for an appending handle, whatever the position was. */
    method Write(bytes: seq<byte>) returns (r: Result<nat, Errno>)
      modifies this, data
      ensures !writable ==> r == Err(BADF) && data.bytes == old(data.bytes) && pos == old(pos)
      ensures writable ==>
        var start := if append then |old(data.bytes)| else old(pos);
        r == Ok(|bytes|) && data.bytes == Overwritten(old(data.bytes), start, bytes) && pos == start + |bytes|
    {
      if !writable {
        return Err(BADF);
      }
      if append {
        pos := |data.bytes|;
      }
      var end := pos + |bytes|;
      if |data.bytes| < end {
        data.bytes := data.bytes + Zeros(end - |data.bytes|);
      }
      data.bytes := data.bytes[..pos] + bytes + data.bytes[end..];
      pos := end;
      r := Ok(|bytes|);
    }

    /** Move the position; a negative one is refused. */
    method SeekTo(target: int) returns (r: Result<nat, Errno>)
      modifies this
      ensures if target < 0 then r == Err(INVAL) && pos == old(pos) else r == Ok(target) && pos == target
    {
      if target < 0 {
        return Err(INVAL);
      }
      pos := target;
      r := Ok(pos);
    }
  }
}
