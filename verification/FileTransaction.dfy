/** The multi-file write of `ears-manager`: all governed paths are written, or all are put
    back, under any pattern of I/O failures. */
module FileTransaction {
  import Text

  datatype Option<+T> = None | Some(value: T)

  datatype Node = Dir | File(data: string, mode: nat)

  type Tree = map<string, Node>

  const NEW_MODE: nat := 0x1A4 // 0o644

  const TEMPORARY: string := ".ears-manager-txn-"

  // ----- paths -----

  /** `d` is a directory on the way to `p`. */
  predicate Above(d: string, p: string) {
    d != "." && |d| < |p| && p[..|d|] == d && p[|d|] == '/'
  }

  function LastSlash(p: string, to: nat): (i: Option<nat>)
    requires to <= |p|
    ensures i.Some? ==> i.value < to && p[i.value] == '/' && forall k | i.value < k < to :: p[k] != '/'
    ensures i.None? ==> forall k | 0 <= k < to :: p[k] != '/'
  {
    if to == 0 then None else if p[to - 1] == '/' then Some(to - 1) else LastSlash(p, to - 1)
  }

  function Parent(p: string): (d: string)
    ensures d == "." || |d| < |p|
  {
    var i := LastSlash(p, |p|);
    if i.None? then "." else p[..i.value]
  }

  function Depth(p: string): (n: nat) {
    if p == "" then 0 else Depth(p[1..]) + if p[0] == '/' then 1 else 0
  }

  /** A name of the form temporary files take. */
  predicate IsTemporary(p: string) {
    HasName(p, TEMPORARY)
  }

  /** Some component of the path starts with `name`. */
  predicate HasName(p: string, name: string) {
    name <= p || exists i | 0 <= i < |p| :: p[i] == '/' && name <= p[i + 1..]
  }

  function TemporaryIn(d: string, suffix: string): (p: string) {
    if d == "." then TEMPORARY + suffix else d + "/" + (TEMPORARY + suffix)
  }

  lemma TemporaryInIsTemporary(d: string, suffix: string)
    ensures IsTemporary(TemporaryIn(d, suffix))
  {
    var p := TemporaryIn(d, suffix);
    if d != "." {
      assert p[|d|] == '/' && p[|d| + 1..] == TEMPORARY + suffix;
    }
  }

  /** The directories above a path are its parent and those above its parent. */
  lemma AboveParent(d: string, p: string)
    ensures Above(d, p) <==> (d != "." && d == Parent(p) && LastSlash(p, |p|).Some?) || (LastSlash(p, |p|).Some? && Above(d, Parent(p)))
  {
    var i := LastSlash(p, |p|);
    if i.Some? {
      var q := p[..i.value];
      assert |d| <= i.value ==> q[..|d|] == p[..|d|];
    }
  }

  lemma AboveTransitive(a: string, b: string, c: string)
    requires Above(a, b) && Above(b, c)
    ensures Above(a, c)
  {
    assert c[..|b|][..|a|] == c[..|a|];
  }

  // ----- the disk -----

  function At(tree: Tree, p: string): (node: Option<Node>) {
    if p in tree then Some(tree[p]) else None
  }

  /** Everything lies in directories. */
  ghost predicate Rooted(tree: Tree) {
    && "." in tree && tree["."] == Dir
    && forall p, d | p in tree && Above(d, p) :: d in tree && tree[d] == Dir
  }

  /** A directory that is not empty. */
  predicate Occupied(tree: Tree, p: string) {
    At(tree, p) == Some(Dir) && exists q | q in tree :: Above(p, q)
  }

  /** No file is in the way of a path. */
  ghost predicate ClearWay(tree: Tree, p: string) {
    forall d | Above(d, p) && d in tree :: tree[d] == Dir
  }

  /** The root and what holds something cannot be removed, nor anything below a file. */
  ghost predicate Removable(tree: Tree, p: string) {
    p != "." && !Occupied(tree, p) && ClearWay(tree, p)
  }

  /** A file can be made there. */
  ghost predicate Enterable(tree: Tree, p: string) {
    At(tree, Parent(p)) == Some(Dir) && ClearWay(tree, p)
  }

  datatype Found = Present(node: Node) | Absent | Unreadable

  datatype Reply = Done | NotThere | Failed

  /** A file system. An operation that fails may or may not have taken effect; `faults`
      counts the failures the state of the tree does not account for. */
  class Disk {
    var tree: Tree
    ghost var faults: nat

    ghost predicate Valid()
      reads this
    {
      "." in tree && tree["."] == Dir
    }

    /** Below a file there is nothing to look at: that is an error, not an absence. */
    method Lstat(p: string) returns (found: Found)
      modifies this`faults
      ensures found.Present? ==> At(tree, p) == Some(found.node)
      ensures found.Absent? ==> At(tree, p) == None
      ensures !ClearWay(tree, p) ==> found.Unreadable?
      ensures faults >= old(faults) && (found.Unreadable? && faults == old(faults) ==> !ClearWay(tree, p))
    {
      var fails: bool := *;
      if fails {
        faults := faults + 1;
      }
      var barred := exists q | q in Way(p) :: q != p && q in tree && tree[q] != Dir;
      found := if fails || barred then Unreadable else if p in tree then Present(tree[p]) else Absent;
    }

    method Read(p: string) returns (data: Option<string>)
      modifies this`faults
      ensures data.Some? ==> p in tree && tree[p].File? && tree[p].data == data.value
      ensures faults >= old(faults) && (data.None? && faults == old(faults) ==> !(p in tree && tree[p].File?))
    {
      var fails: bool := *;
      if fails {
        faults := faults + 1;
      }
      data := if fails || p !in tree || tree[p].Dir? then None else Some(tree[p].data);
    }

    /** Makes a directory and those above it that are missing; a failure may leave some of
        them made. */
    method MkdirAll(d: string) returns (reply: Reply)
      requires Valid()
      modifies this
      ensures Valid()
      ensures forall q :: At(tree, q) == At(old(tree), q)
                          || (At(old(tree), q) == None && At(tree, q) == Some(Dir) && (q == d || Above(q, d)))
      ensures reply == Done ==> At(tree, d) == Some(Dir) && forall q | Above(q, d) :: At(tree, q) == Some(Dir)
      ensures faults >= old(faults)
      ensures reply != Done && faults == old(faults) ==>
                tree == old(tree) && exists q | q in tree :: tree[q].File? && (q == d || Above(q, d))
    {
      var way := Way(d);
      var missing := set q | q in way && q !in tree;
      var fails: bool := *;
      if fails {
        faults := faults + 1;
        var made :| made <= missing;
        tree := tree + map q | q in made :: Dir;
        reply := Failed;
      } else if exists q | q in way :: q in tree && tree[q] != Dir {
        reply := Failed;
      } else {
        tree := tree + map q | q in missing :: Dir;
        reply := Done;
      }
    }

    /** Removes a file or an empty directory. What lies below a file cannot be removed, which
        is not the same as not being there. */
    method Remove(p: string) returns (reply: Reply)
      requires Valid()
      modifies this
      ensures Valid()
      ensures reply == Done || reply == NotThere ==> tree == old(tree) - {p}
      ensures tree == old(tree) || tree == old(tree) - {p}
      ensures faults >= old(faults)
      ensures !Removable(old(tree), p) ==> reply == Failed && tree == old(tree)
      ensures reply == Failed && faults == old(faults) ==> !Removable(old(tree), p)
    {
      var fails: bool, applies: bool := *, *;
      if fails {
        faults := faults + 1;
      }
      if exists q | q in Way(p) :: q != p && q in tree && tree[q] != Dir {
        return Failed;
      }
      if p !in tree {
        return if fails then Failed else NotThere;
      }
      if p == "." || (tree[p] == Dir && exists q | q in tree :: Above(p, q)) {
        return Failed;
      }
      if applies || !fails {
        tree := tree - {p};
      }
      reply := if fails then Failed else Done;
    }

    /** Opens a file that must not exist, in a directory that must. */
    method CreateNew(p: string) returns (reply: Reply)
      requires Valid()
      modifies this
      ensures Valid()
      ensures reply == Done ==> p !in old(tree) && tree == old(tree)[p := File("", NEW_MODE)]
      ensures tree == old(tree) || (p !in old(tree) && tree == old(tree)[p := File("", NEW_MODE)])
      ensures faults >= old(faults)
      ensures reply != Done && faults == old(faults) ==> At(tree, Parent(p)) != Some(Dir)
    {
      var fails: bool, applies: bool := *, *;
      if fails || p in tree {
        faults := faults + 1;
      }
      if p in tree || Parent(p) !in tree || tree[Parent(p)] != Dir {
        return Failed;
      }
      if applies || !fails {
        tree := tree[p := File("", NEW_MODE)];
      }
      reply := if fails then Failed else Done;
    }

    /** Sets the mode, writes, syncs and closes an open file. */
    method Fill(p: string, data: string) returns (reply: Reply)
      requires Valid() && p in tree && tree[p].File?
      modifies this
      ensures Valid()
      ensures reply == Done ==> tree == old(tree)[p := File(data, NEW_MODE)]
      ensures exists partial: string, mode: nat :: tree == old(tree)[p := File(partial, mode)]
      ensures faults >= old(faults) && (reply != Done ==> faults > old(faults))
    {
      var fails: bool, partial: string, mode: nat := *, *, *;
      if fails {
        faults := faults + 1;
        tree := tree[p := File(partial, mode)];
        reply := Failed;
      } else {
        tree := tree[p := File(data, NEW_MODE)];
        reply := Done;
      }
    }

    /** Moves a file over another path in one step. */
    method Rename(from: string, to: string) returns (reply: Reply)
      requires Valid() && from in tree && tree[from].File? && from != to
      modifies this
      ensures Valid()
      ensures reply == Done ==> tree == (old(tree) - {from})[to := old(tree)[from]]
      ensures tree == old(tree) || tree == (old(tree) - {from})[to := old(tree)[from]]
      ensures faults >= old(faults)
      ensures reply != Done && faults == old(faults) ==> tree == old(tree) && At(tree, to) == Some(Dir)
      ensures At(old(tree), to) == Some(Dir) ==> reply == Failed && tree == old(tree)
    {
      var fails: bool, applies: bool := *, *;
      if fails {
        faults := faults + 1;
      }
      if to in tree && tree[to] == Dir {
        return Failed;
      }
      if applies || !fails {
        tree := (tree - {from})[to := tree[from]];
      }
      reply := if fails then Failed else Done;
    }

    method Chmod(p: string, mode: nat) returns (reply: Reply)
      requires Valid()
      modifies this
      ensures Valid()
      ensures reply == Done ==> p in old(tree) && old(tree)[p].File? && tree == old(tree)[p := old(tree)[p].(mode := mode)]
      ensures tree == old(tree) || (p in old(tree) && old(tree)[p].File? && tree == old(tree)[p := old(tree)[p].(mode := mode)])
      ensures faults >= old(faults)
      ensures reply != Done && faults == old(faults) ==> !(p in tree && tree[p].File?)
    {
      var fails: bool, applies: bool := *, *;
      if fails {
        faults := faults + 1;
      }
      if p !in tree || tree[p] == Dir {
        return Failed;
      }
      if applies || !fails {
        tree := tree[p := tree[p].(mode := mode)];
      }
      reply := if fails then Failed else Done;
    }
  }

  /** A path and the directories above it. */
  function Way(p: string): (way: set<string>)
    ensures forall q :: q in way <==> q == p || Above(q, p)
  {
    var way := (set k | 0 <= k < |p| && p[k] == '/' && p[..k] != "." :: p[..k]) + {p};
    assert forall q | Above(q, p) :: q == p[..|q|];
    way
  }

  // ----- one file -----

  /** Nothing but temporary files, and perhaps `p`, differs. */
  ghost predicate OnlyAt(before: Tree, after: Tree, p: string) {
    forall q | !IsTemporary(q) && q != p :: At(after, q) == At(before, q)
  }

  /** No temporary file was left behind or lost. */
  ghost predicate SameTemporaries(before: Tree, after: Tree) {
    forall q | IsTemporary(q) :: At(after, q) == At(before, q)
  }

  lemma NameBelow(d: string, p: string, name: string)
    requires Above(d, p) && HasName(d, name)
    ensures HasName(p, name)
  {
    if name <= d {
      assert p[..|d|][..|name|] == p[..|name|];
    } else {
      var i :| 0 <= i < |d| && d[i] == '/' && name <= d[i + 1..];
      assert p[..|d|][i] == p[i];
      assert forall k | 0 <= k < |name| :: name[k] == d[i + 1..][k] == p[..|d|][i + 1 + k] == p[i + 1..][k];
    }
  }

  /** The temporary file is in the directory of the path. */
  lemma TemporaryBeside(p: string, suffix: string)
    requires '/' !in suffix
    ensures var t := TemporaryIn(Parent(p), suffix);
            && Parent(t) == Parent(p) && t != "."
            && (forall d :: Above(d, t) <==> Above(d, p)) && (forall q :: !Above(t, q) || IsTemporary(q))
  {
    var d, t := Parent(p), TemporaryIn(Parent(p), suffix);
    var name := TEMPORARY + suffix;
    assert '/' !in name;
    TemporaryInIsTemporary(d, suffix);
    if d == "." {
      assert LastSlash(t, |t|).None?;
    } else {
      assert t[|d|] == '/' && t[..|d|] == d && forall k | |d| < k < |t| :: t[k] == name[k - |d| - 1];
      assert LastSlash(t, |t|) == Some(|d|);
    }
    forall q
      ensures Above(q, t) <==> Above(q, p)
    {
      AboveParent(q, t);
      AboveParent(q, p);
    }
    forall q | Above(t, q)
      ensures IsTemporary(q)
    {
      NameBelow(t, q, TEMPORARY);
    }
  }

  /** Makes and fills a temporary file, and removes it if it cannot be filled. */
  method WriteTemporary(disk: Disk, temporary: string, data: string) returns (ok: bool)
    requires disk.Valid()
    modifies disk
    ensures disk.Valid()
    ensures ok ==> temporary !in old(disk.tree) && disk.tree == old(disk.tree)[temporary := File(data, NEW_MODE)]
    ensures forall q | q != temporary :: At(disk.tree, q) == At(old(disk.tree), q)
    ensures disk.faults >= old(disk.faults)
    ensures disk.faults == old(disk.faults) && At(old(disk.tree), Parent(temporary)) == Some(Dir) ==> ok
  {
    hide Above;
    var made := disk.CreateNew(temporary);
    if made != Done {
      return false;
    }
    var filled := disk.Fill(temporary, data);
    if filled != Done {
      var _ := disk.Remove(temporary);
      return false;
    }
    ok := true;
  }

  /** Writes a file by way of a temporary one beside it. */
  method ReplaceFile(disk: Disk, path: string, data: string) returns (ok: bool)
    requires disk.Valid() && !IsTemporary(path)
    modifies disk
    ensures disk.Valid()
    ensures OnlyAt(old(disk.tree), disk.tree, path)
    ensures ok ==> At(disk.tree, path) == Some(File(data, NEW_MODE))
    ensures At(disk.tree, path) == At(old(disk.tree), path) || At(disk.tree, path) == Some(File(data, NEW_MODE))
    ensures disk.faults >= old(disk.faults)
    ensures disk.faults == old(disk.faults) && Enterable(old(disk.tree), path) ==>
              && SameTemporaries(old(disk.tree), disk.tree)
              && (ok <==> At(old(disk.tree), path) != Some(Dir))
              && (!ok ==> At(disk.tree, path) == Some(Dir))
  {
    var suffix: string :| '/' !in suffix;
    var temporary := TemporaryIn(Parent(path), suffix);
    TemporaryInIsTemporary(Parent(path), suffix);
    TemporaryBeside(path, suffix);
    hide IsTemporary, TemporaryIn, Above;
    var prepared := WriteTemporary(disk, temporary, data);
    if !prepared {
      return false;
    }
    var renamed := disk.Rename(temporary, path);
    var _ := disk.Remove(temporary);
    ok := renamed == Done;
  }

  /** The directories missing on the way to a path, nearest first. */
  method MissingParents(disk: Disk, path: string) returns (missing: Option<seq<string>>)
    requires Rooted(disk.tree)
    modifies disk`faults
    ensures missing.Some? ==>
              && (forall d | d in missing.value :: d !in disk.tree && Above(d, path))
              && (forall d | Above(d, path) :: d in missing.value || At(disk.tree, d) == Some(Dir))
    ensures disk.faults >= old(disk.faults) && (missing.None? && disk.faults == old(disk.faults) ==> !ClearWay(disk.tree, path))
  {
    var directories: seq<string>, current := [], Parent(path);
    AboveParent(current, path);
    while true
      invariant forall d | d in directories :: d !in disk.tree && Above(d, path)
      invariant forall d | Above(d, path) :: d in directories || d == current || Above(d, current)
      invariant current == "." || Above(current, path)
      invariant disk.faults >= old(disk.faults)
      decreases if current == "." then 0 else |current| + 1
    {
      var found := disk.Lstat(current);
      match found {
        case Present(node) =>
          if node != Dir {
            return None;
          }
          return Some(directories);
        case Unreadable =>
          return None;
        case Absent =>
          directories := directories + [current];
          var parent := Parent(current);
          if parent == current {
            return Some(directories);
          }
          forall d | Above(d, current)
            ensures d == parent || Above(d, parent)
          {
            AboveParent(d, current);
          }
          AboveParent(parent, current);
          if parent != "." {
            AboveTransitive(parent, current, path);
          }
          current := parent;
      }
    }
  }

  // ----- the writes -----

  datatype FileWrite = FileWrite(path: string, data: string, delete: bool)

  /** The last write to a path. */
  function LastWrite(writes: seq<FileWrite>, p: string): (w: Option<FileWrite>)
    ensures w.Some? ==> w.value in writes && w.value.path == p
    ensures w.None? ==> forall v | v in writes :: v.path != p
  {
    if writes == [] then None
    else if writes[|writes| - 1].path == p then Some(writes[|writes| - 1])
    else LastWrite(writes[..|writes| - 1], p)
  }

  predicate InOrder(writes: seq<FileWrite>) {
    forall i, j | 0 <= i < j < |writes| :: Text.Less(writes[i].path, writes[j].path)
  }

  function Insert(w: FileWrite, sorted: seq<FileWrite>): (r: seq<FileWrite>)
    ensures forall v :: v in r <==> v == w || v in sorted
  {
    if sorted == [] || Text.Less(w.path, sorted[0].path) then [w] + sorted
    else
      var rest := Insert(w, sorted[1..]);
      assert sorted == [sorted[0]] + sorted[1..];
      [sorted[0]] + rest
  }

  lemma {:induction false} InsertKeepsOrder(w: FileWrite, sorted: seq<FileWrite>)
    requires InOrder(sorted) && forall v | v in sorted :: v.path != w.path
    ensures InOrder(Insert(w, sorted))
  {
    var r := Insert(w, sorted);
    if sorted != [] {
      Text.LessTotal(w.path, sorted[0].path);
      if Text.Less(w.path, sorted[0].path) {
        forall j | 0 <= j < |sorted|
          ensures Text.Less(w.path, sorted[j].path)
        {
          if j > 0 {
            Text.LessTransitive(w.path, sorted[0].path, sorted[j].path);
          }
        }
      } else {
        InsertKeepsOrder(w, sorted[1..]);
        var rest := Insert(w, sorted[1..]);
        forall j | 0 <= j < |rest|
          ensures Text.Less(sorted[0].path, rest[j].path)
        {
          assert rest[j] in rest;
        }
      }
    }
  }

  /** One write per path, the last one, in path order. */
  method Deduplicate(writes: seq<FileWrite>) returns (result: seq<FileWrite>)
    ensures InOrder(result)
    ensures forall w | w in result :: LastWrite(writes, w.path) == Some(w)
    ensures forall w | w in writes :: LastWrite(writes, w.path).Some? && LastWrite(writes, w.path).value in result
  {
    var byPath: map<string, FileWrite> := map[];
    for i := 0 to |writes|
      invariant forall p :: (if p in byPath then Some(byPath[p]) else None) == LastWrite(writes[..i], p)
    {
      assert writes[..i + 1][..i] == writes[..i];
      byPath := byPath[writes[i].path := writes[i]];
    }
    assert writes[..|writes|] == writes;
    result := [];
    var rest := byPath.Keys;
    while rest != {}
      invariant rest <= byPath.Keys
      invariant InOrder(result)
      invariant forall w | w in result :: w.path in byPath && w.path !in rest && byPath[w.path] == w
      invariant forall p | p in byPath && p !in rest :: byPath[p] in result
      decreases rest
    {
      var p :| p in rest;
      InsertKeepsOrder(byPath[p], result);
      result := Insert(byPath[p], result);
      rest := rest - {p};
    }
  }

  // ----- what is saved before anything is written -----

  /** A governed path as it was found, and the directories that were missing above it. */
  datatype Original = Original(path: string, was: Option<Node>, parents: seq<string>)

  ghost predicate Saved(tree: Tree, o: Original) {
    && !IsTemporary(o.path)
    && At(tree, o.path) == o.was
    && o.was != Some(Dir)
    && (forall d | d in o.parents :: d !in tree && Above(d, o.path))
    && (forall d | Above(d, o.path) :: d in o.parents || At(tree, d) == Some(Dir))
  }

  datatype Outcome = Applied | Refused(code: string) | Unknown

  /** A path that may be written: a file that holds what the caller expects, or nothing where
      nothing is expected, with no file in the way. */
  ghost predicate Ready(tree: Tree, path: string, expected: Option<string>) {
    && At(tree, path) != Some(Dir)
    && expected == (if path in tree then Some(tree[path].data) else None)
    && ClearWay(tree, path)
  }

  method Inspect(disk: Disk, path: string, expected: Option<string>) returns (o: Option<Original>, code: string)
    requires Rooted(disk.tree) && !IsTemporary(path)
    modifies disk`faults
    ensures o.Some? ==> o.value.path == path && Saved(disk.tree, o.value) && Ready(disk.tree, path, expected)
    ensures disk.faults >= old(disk.faults)
    ensures o.None? && disk.faults == old(disk.faults) ==>
              && !Ready(disk.tree, path, expected)
              && code == if !ClearWay(disk.tree, path) then "storage.write_failed"
                         else if At(disk.tree, path) == Some(Dir) then "storage.write_not_allowed"
                         else "change_set.concurrent_update"
  {
    hide IsTemporary, Rooted;
    var found := disk.Lstat(path);
    if found.Unreadable? {
      return None, "storage.write_failed";
    }
    if found.Present? && found.node == Dir {
      return None, "storage.write_not_allowed";
    }
    if found.Present? {
      var data := disk.Read(path);
      if data.None? {
        return None, "storage.write_failed";
      }
      if expected != data {
        return None, "change_set.concurrent_update";
      }
    } else if expected.Some? {
      return None, "change_set.concurrent_update";
    }
    var parents := MissingParents(disk, path);
    if parents.None? {
      return None, "storage.write_failed";
    }
    o, code := Some(Original(path, if found.Present? then Some(found.node) else None, parents.value)), "";
  }

  // ----- rollback -----

  /** Some saved path, or a directory missing above one. */
  predicate Governed(originals: seq<Original>, q: string) {
    exists i | 0 <= i < |originals| :: originals[i].path == q || q in originals[i].parents
  }

  // What is put back when nothing fails.

  /** A directory below `q`, on the way to one of the first `i` writes, is not itself a governed
      path. */
  ghost predicate Held(writes: seq<FileWrite>, i: nat, q: string)
    requires i <= |writes|
  {
    exists m, d | 0 <= m < i && Above(q, d) && Above(d, writes[m].path) :: forall k | 0 <= k < |writes| :: writes[k].path != d
  }

  /** One of the first `i` writes makes a file above `q`. */
  ghost predicate Under(writes: seq<FileWrite>, i: nat, q: string)
    requires i <= |writes|
  {
    exists j | 0 <= j < i :: Above(writes[j].path, q) && !writes[j].delete
  }

  /** A path that cannot be put back in its turn: something is left in it, or a file is still
      in its way. */
  ghost predicate Stuck(writes: seq<FileWrite>, i: nat, q: string)
    requires i <= |writes|
  {
    Held(writes, i, q) || Under(writes, i, q)
  }

  ghost predicate NoneBlocked(writes: seq<FileWrite>, i: nat)
    requires i <= |writes|
  {
    forall k | 0 <= k < i :: !Blocked(writes, writes[k].path)
  }

  /** What a path holds when the writes from `k` on have been put back, the first `i` having
      been made: the path of a held directory cannot be cleared yet. */
  ghost function Restored(saved: Tree, writes: seq<FileWrite>, i: nat, k: nat, q: string): (node: Option<Node>)
    requires i <= |writes|
  {
    if exists j | k <= j < |writes| :: writes[j].path == q
    then if Held(writes, i, q) then Some(Dir) else At(saved, q)
    else Final(saved, writes[..i], q)
  }

  ghost predicate PutBack(saved: Tree, tree: Tree, writes: seq<FileWrite>, i: nat, k: nat)
    requires i <= |writes|
  {
    SameTemporaries(saved, tree) && forall q | !IsTemporary(q) :: At(tree, q) == Restored(saved, writes, i, k, q)
  }

  /** The first `i` writes were made, and nothing else. */
  ghost predicate Wrote(saved: Tree, tree: Tree, originals: seq<Original>, writes: seq<FileWrite>, i: nat) {
    && Rooted(saved) && AllSaved(saved, originals, writes) && i <= |writes| && NoneBlocked(writes, i)
    && Reached(saved, tree, writes[..i]) && SameTemporaries(saved, tree)
  }

  lemma NothingPutBack(saved: Tree, tree: Tree, originals: seq<Original>, writes: seq<FileWrite>, i: nat)
    requires Wrote(saved, tree, originals, writes, i)
    ensures PutBack(saved, tree, writes, i, |writes|)
  {
    hide IsTemporary, Rooted, AllSaved, Final;
  }

  /** One path put back, when nothing fails. */
  ghost predicate RestoredOne(before: Tree, after: Tree, o: Original, ok: bool) {
    (o.was.Some? ==> Enterable(before, o.path)) ==>
      && OnlyAt(before, after, o.path) && SameTemporaries(before, after)
      && At(after, o.path) == (if ok then o.was else At(before, o.path))
      && (ok <==> if o.was.Some? then At(before, o.path) != Some(Dir) else Removable(before, o.path))
  }

  /** A governed file has nothing governed below it. */
  lemma NothingBelowFile(saved: Tree, originals: seq<Original>, writes: seq<FileWrite>, k: nat, m: nat)
    requires AllSaved(saved, originals, writes) && k < |writes| && m < |writes| && originals[k].was.Some?
    ensures !Above(writes[k].path, writes[m].path)
  {
    assert Saved(saved, originals[k]) && Saved(saved, originals[m]);
  }

  /** What is below a path that was absent was absent. */
  lemma NothingWasBelow(saved: Tree, p: string, q: string)
    requires Rooted(saved) && p !in saved && Above(p, q)
    ensures q !in saved
  {
  }

  /** When a path that was absent is to be cleared, something is left in it exactly if it is
      held. */
  lemma OccupiedExactly(saved: Tree, tree: Tree, originals: seq<Original>, writes: seq<FileWrite>, i: nat, k: nat)
    requires Rooted(saved) && AllSaved(saved, originals, writes) && i <= |writes| && k < |writes| && originals[k].was.None?
    requires PutBack(saved, tree, writes, i, k + 1)
    ensures Occupied(tree, writes[k].path) <==> Held(writes, i, writes[k].path)
    ensures Held(writes, i, writes[k].path) ==> At(tree, writes[k].path) == Some(Dir)
  {
    var p := writes[k].path;
    assert Saved(saved, originals[k]);
    if Held(writes, i, p) {
      HeldIsOccupied(saved, tree, originals, writes, i, k);
    }
    if q :| q in tree && Above(p, q) {
      LeftIsHeld(saved, tree, originals, writes, i, k, q);
    }
  }

  lemma NotTemporaryAbove(d: string, p: string)
    requires Above(d, p) && !IsTemporary(p)
    ensures !IsTemporary(d)
  {
    if IsTemporary(d) {
      NameBelow(d, p, TEMPORARY);
    }
  }

  lemma HeldIsOccupied(saved: Tree, tree: Tree, originals: seq<Original>, writes: seq<FileWrite>, i: nat, k: nat)
    requires AllSaved(saved, originals, writes) && i <= |writes| && k < |writes|
    requires PutBack(saved, tree, writes, i, k + 1) && Held(writes, i, writes[k].path)
    ensures Occupied(tree, writes[k].path)
  {
    var p := writes[k].path;
    var m, d :| 0 <= m < i && Above(p, d) && Above(d, writes[m].path) && forall j | 0 <= j < |writes| :: writes[j].path != d;
    assert Saved(saved, originals[m]) && Saved(saved, originals[k]);
    NotTemporaryAbove(d, writes[m].path);
    AboveTransitive(p, d, writes[m].path);
    assert writes[..i][m] == writes[m];
    assert At(tree, d) == Some(Dir);
    OnlyEarlier(writes, k, p);
    assert At(tree, p) == Some(Dir);
  }

  lemma OnlyEarlier(writes: seq<FileWrite>, k: nat, p: string)
    requires InOrder(writes) && k < |writes| && writes[k].path == p
    ensures forall j | k < j < |writes| :: writes[j].path != p
  {
    Text.LessTotal(p, p);
  }

  lemma LeftIsHeld(saved: Tree, tree: Tree, originals: seq<Original>, writes: seq<FileWrite>, i: nat, k: nat, q: string)
    requires Rooted(saved) && AllSaved(saved, originals, writes) && i <= |writes| && k < |writes| && originals[k].was.None?
    requires PutBack(saved, tree, writes, i, k + 1) && q in tree && Above(writes[k].path, q)
    ensures Held(writes, i, writes[k].path)
  {
    var p := writes[k].path;
    assert Saved(saved, originals[k]);
    NothingWasBelow(saved, p, q);
    assert !IsTemporary(q) by {
      assert IsTemporary(q) ==> At(saved, q) == At(tree, q);
    }
    hide IsTemporary, Rooted;
    if j :| 0 <= j < |writes| && writes[j].path == q {
      PrefixIsLess(p, q);
      Text.LessTotal(p, q);
      LaterIndex(writes, k, j);
      var m, d :| 0 <= m < i && Above(q, d) && Above(d, writes[m].path) && forall j | 0 <= j < |writes| :: writes[j].path != d;
      AboveTransitive(p, q, d);
    } else {
      assert At(tree, q) == Final(saved, writes[..i], q);
      assert LastWrite(writes[..i], q).None?;
      var w :| w in writes[..i] && Above(q, w.path);
      var m :| 0 <= m < i && writes[m] == w;
    }
  }

  lemma LaterIndex(writes: seq<FileWrite>, k: nat, j: nat)
    requires InOrder(writes) && k < |writes| && j < |writes| && Text.Less(writes[k].path, writes[j].path)
    ensures k < j
  {
    Text.LessTotal(writes[k].path, writes[j].path);
    Text.LessTotal(writes[k].path, writes[k].path);
  }

  /** Nothing was written below a file that was written. */
  lemma NothingBelowWritten(writes: seq<FileWrite>, i: nat, j: nat, m: nat)
    requires InOrder(writes) && i <= |writes| && NoneBlocked(writes, i) && j < i && m < i && !writes[j].delete
    ensures !Above(writes[j].path, writes[m].path)
  {
    OneWrite(writes, j);
    assert writes[j] in writes && !Blocked(writes, writes[m].path);
  }

  /** A file that was written is there until its turn to be put back. */
  lemma WrittenFile(saved: Tree, writes: seq<FileWrite>, i: nat, j: nat)
    requires InOrder(writes) && i <= |writes| && NoneBlocked(writes, i) && j < i && !writes[j].delete
    ensures Final(saved, writes[..i], writes[j].path) == Some(File(writes[j].data, NEW_MODE))
  {
    assert InOrder(writes[..i]) && writes[..i][j] == writes[j];
    OneWrite(writes[..i], j);
    forall w | w in writes[..i]
      ensures !Above(writes[j].path, w.path)
    {
      var m :| 0 <= m < i && writes[m] == w;
      NothingBelowWritten(writes, i, j, m);
    }
  }

  /** Below a file that was written a path is as it was, absent, and its way is barred. */
  lemma UnderIsBarred(saved: Tree, tree: Tree, originals: seq<Original>, writes: seq<FileWrite>, i: nat, k: nat)
    requires AllSaved(saved, originals, writes) && i <= |writes| && NoneBlocked(writes, i) && k < |writes|
    requires PutBack(saved, tree, writes, i, k + 1) && Under(writes, i, writes[k].path)
    ensures !ClearWay(tree, writes[k].path) && !Held(writes, i, writes[k].path)
    ensures At(tree, writes[k].path) == At(saved, writes[k].path)
  {
    var p := writes[k].path;
    var j :| 0 <= j < i && Above(writes[j].path, p) && !writes[j].delete;
    assert Saved(saved, originals[j]) && Saved(saved, originals[k]);
    PrefixIsLess(writes[j].path, p);
    LaterIndex(writes, j, k);
    OnlyEarlier(writes, j, writes[j].path);
    OnlyEarlier(writes, k, p);
    WrittenFile(saved, writes, i, j);
    forall m | 0 <= m < i
      ensures !Above(p, writes[m].path) && writes[m].path != p
    {
      NothingBelowWritten(writes, i, j, m);
      if Above(p, writes[m].path) {
        AboveTransitive(writes[j].path, p, writes[m].path);
      }
    }
    forall m, d | 0 <= m < i && Above(p, d)
      ensures !Above(d, writes[m].path)
    {
      if Above(d, writes[m].path) {
        AboveTransitive(p, d, writes[m].path);
      }
    }
    hide IsTemporary, Above, InOrder, NoneBlocked;
    assert At(tree, writes[j].path) == Some(File(writes[j].data, NEW_MODE));
    assert LastWrite(writes[..i], p).None?;
  }

  /** Otherwise nothing is in the way of a path in its turn. */
  lemma WayIsClear(saved: Tree, tree: Tree, originals: seq<Original>, writes: seq<FileWrite>, i: nat, k: nat)
    requires AllSaved(saved, originals, writes) && i <= |writes| && k < |writes|
    requires PutBack(saved, tree, writes, i, k + 1) && !Under(writes, i, writes[k].path)
    ensures ClearWay(tree, writes[k].path)
  {
    var p := writes[k].path;
    assert Saved(saved, originals[k]);
    forall d | Above(d, p) && d in tree
      ensures tree[d] == Dir
    {
      NotTemporaryAbove(d, p);
      NotLater(writes, k, d);
      hide IsTemporary, InOrder, Held;
      assert At(tree, d) == Final(saved, writes[..i], d);
      var w := LastWrite(writes[..i], d);
      if w.Some? {
        var j :| 0 <= j < i && writes[j] == w.value;
        assert writes[j].delete;
      }
    }
  }

  lemma NotLater(writes: seq<FileWrite>, k: nat, d: string)
    requires InOrder(writes) && k < |writes| && Above(d, writes[k].path)
    ensures forall j | k < j < |writes| :: writes[j].path != d
  {
    forall j | k < j < |writes|
      ensures writes[j].path != d
    {
      if writes[j].path == d {
        PrefixIsLess(d, writes[k].path);
        LaterIndex(writes, j, k);
      }
    }
  }

  /** The directory of a file that existed is still there. */
  lemma FileIsEnterable(saved: Tree, tree: Tree, originals: seq<Original>, writes: seq<FileWrite>, i: nat, k: nat)
    requires Rooted(saved) && AllSaved(saved, originals, writes) && i <= |writes| && k < |writes| && originals[k].was.Some?
    requires PutBack(saved, tree, writes, i, k + 1)
    ensures Enterable(tree, writes[k].path) && !Under(writes, i, writes[k].path)
  {
    var p := writes[k].path;
    assert Saved(saved, originals[k]);
    forall j | 0 <= j < i
      ensures !Above(writes[j].path, p)
    {
      assert Saved(saved, originals[j]);
    }
    WayIsClear(saved, tree, originals, writes, i, k);
    var d := Parent(p);
    OnTheWay(d, p);
    assert saved[d] == Dir;
    forall j | 0 <= j < |writes|
      ensures writes[j].path != d
    {
      assert Saved(saved, originals[j]);
    }
    RootOrAbove(p);
    hide Rooted, InOrder, Held;
    assert LastWrite(writes[..i], d).None?;
  }

  lemma RootOrAbove(p: string)
    requires !IsTemporary(p)
    ensures !IsTemporary(Parent(p))
  {
    OnTheWay(Parent(p), p);
    if Parent(p) != "." {
      NotTemporaryAbove(Parent(p), p);
    }
  }

  /** Each path is put back unless it is stuck. */
  lemma RestoreStep(
    saved: Tree, before: Tree, after: Tree, originals: seq<Original>, writes: seq<FileWrite>, i: nat, k: nat, ok: bool
  )
    requires Rooted(saved) && AllSaved(saved, originals, writes) && i <= |writes| && NoneBlocked(writes, i) && k < |writes|
    requires PutBack(saved, before, writes, i, k + 1) && RestoredOne(before, after, originals[k], ok)
    ensures PutBack(saved, after, writes, i, k)
    ensures ok <==> !Stuck(writes, i, writes[k].path)
  {
    hide Held, Under, Final, IsTemporary, Rooted, InOrder, Above, Occupied, NoneBlocked, ClearWay, Blocked;
    var p := writes[k].path;
    assert Saved(saved, originals[k]);
    OnlyEarlier(writes, k, p);
    NotTheRoot(saved, originals, writes, k);
    if originals[k].was.None? {
      OccupiedExactly(saved, before, originals, writes, i, k);
      if Under(writes, i, p) {
        UnderIsBarred(saved, before, originals, writes, i, k);
      } else {
        WayIsClear(saved, before, originals, writes, i, k);
      }
    } else {
      FileIsNotHeld(saved, before, originals, writes, i, k);
      FileIsEnterable(saved, before, originals, writes, i, k);
    }
    TemporariesStay(saved, before, after);
  }

  lemma FileIsNotHeld(saved: Tree, tree: Tree, originals: seq<Original>, writes: seq<FileWrite>, i: nat, k: nat)
    requires AllSaved(saved, originals, writes) && i <= |writes| && k < |writes| && originals[k].was.Some?
    requires PutBack(saved, tree, writes, i, k + 1)
    ensures !Held(writes, i, writes[k].path) && At(tree, writes[k].path) != Some(Dir)
  {
    var p := writes[k].path;
    assert Saved(saved, originals[k]);
    forall m | 0 <= m < i
      ensures !Above(p, writes[m].path)
    {
      NothingBelowFile(saved, originals, writes, k, m);
    }
    OnlyEarlier(writes, k, p);
    forall d, m | 0 <= m < i && Above(p, d)
      ensures !Above(d, writes[m].path)
    {
      if Above(d, writes[m].path) {
        AboveTransitive(p, d, writes[m].path);
      }
    }
  }

  /** Puts one path back. */
  method Restore(disk: Disk, o: Original) returns (ok: bool)
    requires disk.Valid() && !IsTemporary(o.path) && o.was != Some(Dir)
    modifies disk
    ensures disk.Valid() && OnlyAt(old(disk.tree), disk.tree, o.path)
    ensures ok ==> At(disk.tree, o.path) == o.was
    ensures disk.faults >= old(disk.faults)
    ensures disk.faults == old(disk.faults) ==> RestoredOne(old(disk.tree), disk.tree, o, ok)
  {
    hide IsTemporary, Above;
    if o.was.Some? {
      ok := ReplaceFile(disk, o.path, o.was.value.data);
      if ok {
        var reply := disk.Chmod(o.path, o.was.value.mode);
        ok := reply == Done;
      }
    } else {
      var reply := disk.Remove(o.path);
      ok := reply != Failed;
    }
  }

  /** Puts every saved path back, last first; one failure does not stop the rest. */
  method RestoreAll(disk: Disk, originals: seq<Original>, ghost saved: Tree, ghost writes: seq<FileWrite>, ghost made: nat) returns (ok: bool)
    requires disk.Valid() && forall o | o in originals :: Saved(saved, o)
    modifies disk
    ensures disk.Valid()
    ensures forall q | !IsTemporary(q) && (forall o | o in originals :: o.path != q) :: At(disk.tree, q) == At(old(disk.tree), q)
    ensures ok ==> forall o | o in originals :: At(disk.tree, o.path) == At(saved, o.path)
    ensures disk.faults >= old(disk.faults)
    ensures disk.faults == old(disk.faults) && Wrote(saved, old(disk.tree), originals, writes, made) ==>
              && PutBack(saved, disk.tree, writes, made, 0)
              && (ok <==> forall k | 0 <= k < |writes| :: !Stuck(writes, made, writes[k].path))
  {
    hide IsTemporary, Above, Stuck, PutBack, Rooted, Reached, RestoredOne, SameTemporaries, InOrder, NoneBlocked;
    ok := true;
    ghost var exact := Wrote(saved, disk.tree, originals, writes, made);
    if exact {
      NothingPutBack(saved, disk.tree, originals, writes, made);
    }
    var i := |originals|;
    while i > 0
      invariant 0 <= i <= |originals| && disk.Valid()
      invariant disk.faults >= old(disk.faults)
      invariant disk.faults == old(disk.faults) && exact ==>
                  && PutBack(saved, disk.tree, writes, made, i)
                  && (ok <==> forall k | i <= k < |writes| :: !Stuck(writes, made, writes[k].path))
      invariant forall q | !IsTemporary(q) && (forall o | o in originals :: o.path != q) :: At(disk.tree, q) == At(old(disk.tree), q)
      invariant ok ==> forall k | i <= k < |originals| :: At(disk.tree, originals[k].path) == At(saved, originals[k].path)
    {
      i := i - 1;
      assert forall k | i <= k < |originals| :: Saved(saved, originals[k]);
      ghost var before := disk.tree;
      var restored := Restore(disk, originals[i]);
      if disk.faults == old(disk.faults) && exact {
        RestoreStep(saved, before, disk.tree, originals, writes, made, i, restored);
      }
      ok := ok && restored;
    }
  }

  /** Deeper directories first, in name order where they are equally deep. */
  predicate Precedes(a: string, b: string) {
    Depth(a) > Depth(b) || (Depth(a) == Depth(b) && Text.Less(a, b))
  }

  predicate DeepestFirst(directories: seq<string>) {
    forall i, j | 0 <= i < j < |directories| :: Precedes(directories[i], directories[j])
  }

  lemma PrecedesOrders(a: string, b: string, c: string)
    ensures a == b || Precedes(a, b) || Precedes(b, a)
    ensures Precedes(a, b) && Precedes(b, c) ==> Precedes(a, c)
  {
    Text.LessTotal(a, b);
    if Text.Less(a, b) && Text.Less(b, c) {
      Text.LessTransitive(a, b, c);
    }
  }

  function Place(d: string, sorted: seq<string>): (r: seq<string>)
    ensures forall e :: e in r <==> e == d || e in sorted
  {
    if sorted == [] || Precedes(d, sorted[0]) then [d] + sorted
    else
      var rest := Place(d, sorted[1..]);
      assert sorted == [sorted[0]] + sorted[1..];
      [sorted[0]] + rest
  }

  lemma {:induction false} PlaceKeepsOrder(d: string, sorted: seq<string>)
    requires DeepestFirst(sorted) && d !in sorted
    ensures DeepestFirst(Place(d, sorted))
  {
    hide Precedes;
    if sorted != [] {
      PrecedesOrders(d, sorted[0], d);
      if Precedes(d, sorted[0]) {
        forall j | 0 <= j < |sorted|
          ensures Precedes(d, sorted[j])
        {
          if j > 0 {
            PrecedesOrders(d, sorted[0], sorted[j]);
          }
        }
      } else {
        PlaceKeepsOrder(d, sorted[1..]);
        var rest := Place(d, sorted[1..]);
        forall j | 0 <= j < |rest|
          ensures Precedes(sorted[0], rest[j])
        {
          assert rest[j] in rest;
        }
      }
    }
  }

  /** The directories missing above the saved paths, deepest first, each once. */
  method CreatedDirectories(originals: seq<Original>) returns (directories: seq<string>)
    ensures DeepestFirst(directories)
    ensures forall d :: d in directories <==> exists o | o in originals :: d in o.parents
  {
    var all: set<string> := {};
    for i := 0 to |originals|
      invariant forall d :: d in all <==> exists k | 0 <= k < i :: d in originals[k].parents
    {
      all := all + set d | d in originals[i].parents;
    }
    assert forall d :: d in all <==> exists o | o in originals :: d in o.parents;
    directories := [];
    var rest := all;
    while rest != {}
      invariant rest <= all && DeepestFirst(directories)
      invariant forall d :: d in directories <==> d in all && d !in rest
      decreases rest
    {
      var d :| d in rest;
      PlaceKeepsOrder(d, directories);
      directories := Place(d, directories);
      rest := rest - {d};
    }
  }

  /** Whatever lies in one of the directories is one of them. */
  ghost predicate Enclosed(tree: Tree, directories: seq<string>) {
    && (forall d, q | d in directories && q in tree :: d != "." && (Above(d, q) ==> q in directories))
    && (forall d | d in directories :: ClearWay(tree, d))
  }

  lemma {:induction false} DepthOfPrefix(d: string, p: string)
    requires |d| <= |p| && p[..|d|] == d
    ensures Depth(p) == Depth(d) + Depth(p[|d|..])
  {
    if d != "" {
      assert p[..|d|][0] == p[0] && p[..|d|][1..] == p[1..][..|d| - 1];
      assert p[|d|..] == p[1..][|d| - 1..];
      DepthOfPrefix(d[1..], p[1..]);
    }
  }

  lemma DeeperBelow(d: string, p: string)
    requires Above(d, p)
    ensures Depth(d) < Depth(p)
  {
    DepthOfPrefix(d, p);
    assert p[|d|..][0] == '/';
  }

  /** The first of the directories left is empty, the deeper ones being gone. */
  lemma NextIsEmpty(tree: Tree, directories: seq<string>, i: nat)
    requires i < |directories| && DeepestFirst(directories) && Enclosed(tree, directories[i..])
    ensures forall q | q in tree :: !Above(directories[i], q)
    ensures Enclosed(tree - {directories[i]}, directories[i + 1..])
    ensures tree != map[] ==> Removable(tree, directories[i])
  {
    var d := directories[i];
    assert directories[i..][0] == d;
    forall j | i < j < |directories|
      ensures !Above(d, directories[j])
    {
      assert Precedes(d, directories[j]);
      if Above(d, directories[j]) {
        DeeperBelow(d, directories[j]);
      }
    }
    var rest := directories[i + 1..];
    assert directories[i..] == [d] + rest;
    assert forall e | e in directories[i..] :: !Above(d, e);
    hide Above, Precedes;
    assert forall q | q in tree && Above(d, q) :: q in directories[i..];
    forall e, q | e in rest && q in tree - {d}
      ensures e != "." && (Above(e, q) ==> q in rest)
    {
      assert e in directories[i..];
    }
    forall e | e in rest
      ensures ClearWay(tree - {d}, e)
    {
      assert ClearWay(tree, e);
    }
    if q :| q in tree {
      assert d in directories[i..] && ClearWay(tree, d);
    }
  }

  method RemoveAll(disk: Disk, directories: seq<string>) returns (ok: bool)
    requires disk.Valid()
    modifies disk
    ensures disk.Valid()
    ensures forall q | q !in directories :: At(disk.tree, q) == At(old(disk.tree), q)
    ensures forall q :: At(disk.tree, q) == At(old(disk.tree), q) || At(disk.tree, q) == None
    ensures ok ==> forall d | d in directories :: At(disk.tree, d) == None
    ensures disk.faults >= old(disk.faults)
    ensures disk.faults == old(disk.faults) && DeepestFirst(directories) && Enclosed(old(disk.tree), directories) ==> ok
  {
    hide Above, Precedes;
    ok := true;
    for i := 0 to |directories|
      invariant disk.Valid()
      invariant disk.faults >= old(disk.faults)
      invariant disk.faults == old(disk.faults) && DeepestFirst(directories) && Enclosed(old(disk.tree), directories) ==>
                  ok && Enclosed(disk.tree, directories[i..])
      invariant forall q | q !in directories[..i] :: At(disk.tree, q) == At(old(disk.tree), q)
      invariant forall q :: At(disk.tree, q) == At(old(disk.tree), q) || At(disk.tree, q) == None
      invariant ok ==> forall d | d in directories[..i] :: At(disk.tree, d) == None
    {
      assert directories[..i + 1] == directories[..i] + [directories[i]];
      ghost var before := disk.tree;
      var reply := disk.Remove(directories[i]);
      if DeepestFirst(directories) && Enclosed(before, directories[i..]) {
        NextIsEmpty(before, directories, i);
      }
      ok := ok && reply != Failed;
    }
    assert directories[..|directories|] == directories;
  }

  /** Everything but temporary files is as it was, here and on disk. */
  ghost predicate Same(a: Tree, b: Tree) {
    forall q | !IsTemporary(q) :: At(a, q) == At(b, q)
  }

  /** Everything but temporary files and governed paths is as it was. */
  ghost predicate SameOutside(a: Tree, b: Tree, originals: seq<Original>) {
    forall q | !IsTemporary(q) && !Governed(originals, q) :: At(a, q) == At(b, q)
  }

  /** If it succeeds, nothing is left of what was done to the saved paths and the directories
      made for them. If no operation fails nothing is left in any case, but it reports
      success exactly if no path is stuck. */
  method RollbackFiles(disk: Disk, originals: seq<Original>, ghost saved: Tree, ghost writes: seq<FileWrite>, ghost made: nat) returns (ok: bool)
    requires disk.Valid() && (forall o | o in originals :: Saved(saved, o))
    requires SameOutside(saved, disk.tree, originals)
    modifies disk
    ensures disk.Valid()
    ensures ok ==> Same(saved, disk.tree)
    ensures disk.faults >= old(disk.faults)
    ensures disk.faults == old(disk.faults) && Wrote(saved, old(disk.tree), originals, writes, made) ==>
              && Same(saved, disk.tree) && SameTemporaries(saved, disk.tree)
              && (ok <==> forall k | 0 <= k < |writes| :: !Stuck(writes, made, writes[k].path))
  {
    hide IsTemporary, Above, Stuck, PutBack, Rooted, Reached, SameTemporaries, InOrder, DeepestFirst, Same, SameOutside, Enclosed, AllSaved,
         NoneBlocked;
    ghost var exact := Wrote(saved, disk.tree, originals, writes, made);
    ok := RestoreAll(disk, originals, saved, writes, made);
    ghost var restored, faults := disk.tree, disk.faults;
    var directories := CreatedDirectories(originals);
    if exact && faults == old(disk.faults) {
      OnlyOursLeft(saved, restored, originals, writes, made, directories);
    }
    var removed := RemoveAll(disk, directories);
    if exact && disk.faults == old(disk.faults) {
      AllPutBack(saved, restored, disk.tree, originals, writes, made, directories);
    }
    if ok && removed {
      Undone(saved, old(disk.tree), restored, disk.tree, originals, directories);
    }
    ok := ok && removed;
  }

  /** A directory made for one of the writes was found missing. */
  lemma MadeWasMissing(saved: Tree, originals: seq<Original>, writes: seq<FileWrite>, directories: seq<string>, m: nat, q: string)
    requires AllSaved(saved, originals, writes) && m < |writes| && Above(q, writes[m].path)
    requires forall d :: d in directories <==> exists o | o in originals :: d in o.parents
    ensures q in directories || At(saved, q) == Some(Dir)
  {
    assert Saved(saved, originals[m]) && originals[m] in originals;
  }

  lemma HeldWasMissing(saved: Tree, originals: seq<Original>, writes: seq<FileWrite>, i: nat, directories: seq<string>, j: nat)
    requires AllSaved(saved, originals, writes) && i <= |writes| && j < |writes|
    requires forall d :: d in directories <==> exists o | o in originals :: d in o.parents
    ensures Held(writes, i, writes[j].path) ==> writes[j].path in directories
  {
    var q := writes[j].path;
    assert Saved(saved, originals[j]);
    if m, d :| 0 <= m < i && Above(q, d) && Above(d, writes[m].path) && forall k | 0 <= k < |writes| :: writes[k].path != d {
      AboveTransitive(q, d, writes[m].path);
      MadeWasMissing(saved, originals, writes, directories, m, q);
    }
  }

  /** What a path holds once every path has been put back, the directories made aside. */
  lemma LeftOver(
    saved: Tree, restored: Tree, originals: seq<Original>, writes: seq<FileWrite>, i: nat, directories: seq<string>, q: string
  )
    requires AllSaved(saved, originals, writes) && i <= |writes| && PutBack(saved, restored, writes, i, 0)
    requires forall d :: d in directories <==> exists o | o in originals :: d in o.parents
    ensures q in directories || At(restored, q) == At(saved, q)
  {
    if !IsTemporary(q) && q !in directories {
      hide IsTemporary;
      if j :| 0 <= j < |writes| && writes[j].path == q {
        HeldWasMissing(saved, originals, writes, i, directories, j);
      } else {
        assert LastWrite(writes[..i], q).None?;
        if w :| w in writes[..i] && Above(q, w.path) {
          var m :| 0 <= m < i && writes[m] == w;
          MadeWasMissing(saved, originals, writes, directories, m, q);
        }
      }
    }
  }

  /** Once the files are back, all that is left in the directories made is the directories. */
  lemma OnlyOursLeft(
    saved: Tree, restored: Tree, originals: seq<Original>, writes: seq<FileWrite>, i: nat, directories: seq<string>
  )
    requires Rooted(saved) && AllSaved(saved, originals, writes) && i <= |writes| && PutBack(saved, restored, writes, i, 0)
    requires forall d :: d in directories <==> exists o | o in originals :: d in o.parents
    ensures Enclosed(restored, directories)
  {
    forall d, q | d in directories && q in restored
      ensures d != "." && (Above(d, q) ==> q in directories)
    {
      var o :| o in originals && d in o.parents;
      var k :| 0 <= k < |originals| && originals[k] == o;
      assert Saved(saved, originals[k]);
      if Above(d, q) {
        NothingWasBelow(saved, d, q);
        LeftOver(saved, restored, originals, writes, i, directories, q);
      }
    }
    forall d, q | d in directories && Above(q, d) && q in restored
      ensures restored[q] == Dir
    {
      var o :| o in originals && d in o.parents;
      var k :| 0 <= k < |originals| && originals[k] == o;
      assert Saved(saved, originals[k]);
      AboveTransitive(q, d, o.path);
      MadeIsDir(saved, restored, originals, writes, i, k, q);
    }
  }

  /** What is left on the way to a governed path is a directory. */
  lemma MadeIsDir(saved: Tree, restored: Tree, originals: seq<Original>, writes: seq<FileWrite>, i: nat, k: nat, q: string)
    requires AllSaved(saved, originals, writes) && i <= |writes| && PutBack(saved, restored, writes, i, 0) && k < |writes|
    requires Above(q, writes[k].path) && q in restored
    ensures restored[q] == Dir
  {
    assert Saved(saved, originals[k]);
    NotTemporaryAbove(q, writes[k].path);
    hide IsTemporary, InOrder, Held;
    if j :| 0 <= j < |writes| && writes[j].path == q {
      assert Saved(saved, originals[j]);
    } else {
      assert LastWrite(writes[..i], q).None?;
    }
  }

  lemma AllPutBack(
    saved: Tree, restored: Tree, after: Tree, originals: seq<Original>, writes: seq<FileWrite>, i: nat, directories: seq<string>
  )
    requires AllSaved(saved, originals, writes) && i <= |writes| && PutBack(saved, restored, writes, i, 0)
    requires forall d :: d in directories <==> exists o | o in originals :: d in o.parents
    requires forall q | q !in directories :: At(after, q) == At(restored, q)
    requires forall d | d in directories :: At(after, d) == None
    ensures Same(saved, after) && SameTemporaries(saved, after)
  {
    forall q
      ensures At(saved, q) == At(after, q)
    {
      if q in directories {
        var o :| o in originals && q in o.parents;
        var k :| 0 <= k < |originals| && originals[k] == o;
        assert Saved(saved, originals[k]);
      } else {
        LeftOver(saved, restored, originals, writes, i, directories, q);
      }
    }
  }

  lemma Undone(saved: Tree, before: Tree, restored: Tree, after: Tree, originals: seq<Original>, directories: seq<string>)
    requires forall o | o in originals :: Saved(saved, o)
    requires SameOutside(saved, before, originals)
    requires forall q | !IsTemporary(q) && (forall o | o in originals :: o.path != q) :: At(restored, q) == At(before, q)
    requires forall o | o in originals :: At(restored, o.path) == At(saved, o.path)
    requires forall d :: d in directories <==> exists o | o in originals :: d in o.parents
    requires forall q | q !in directories :: At(after, q) == At(restored, q)
    requires forall d | d in directories :: At(after, d) == None
    ensures Same(saved, after)
  {
    hide IsTemporary;
    forall q | !IsTemporary(q)
      ensures At(saved, q) == At(after, q)
    {
      if q in directories {
        var o :| o in originals && q in o.parents;
        assert Saved(saved, o);
      } else if exists o | o in originals :: o.path == q {
        assert At(restored, q) == At(saved, q);
      } else {
        assert forall i | 0 <= i < |originals| :: originals[i] in originals;
        assert !Governed(originals, q);
      }
    }
  }

  // ----- the transaction -----

  /** What a path holds once the writes are made: a directory if one of them lies below it,
      else what the last write to it says, else what it held. */
  ghost function Final(saved: Tree, writes: seq<FileWrite>, q: string): (node: Option<Node>) {
    if exists w | w in writes :: Above(q, w.path) then Some(Dir)
    else
      match LastWrite(writes, q)
      case Some(w) => if w.delete then None else Some(File(w.data, NEW_MODE))
      case None => At(saved, q)
  }

  ghost predicate Reached(saved: Tree, tree: Tree, writes: seq<FileWrite>) {
    forall q | !IsTemporary(q) :: At(tree, q) == Final(saved, writes, q)
  }

  ghost predicate AllSaved(saved: Tree, originals: seq<Original>, writes: seq<FileWrite>) {
    && |originals| == |writes|
    && InOrder(writes)
    && forall i | 0 <= i < |originals| :: originals[i].path == writes[i].path && Saved(saved, originals[i])
  }

  lemma {:induction false} PrefixIsLess(d: string, p: string)
    requires |d| < |p| && p[..|d|] == d
    ensures Text.Less(d, p)
  {
    if d != "" {
      assert p[..|d|][0] == p[0];
      assert p[1..][..|d| - 1] == p[..|d|][1..];
      PrefixIsLess(d[1..], p[1..]);
    }
  }

  /** A write comes before every write below its path. */
  lemma NothingBelowYet(writes: seq<FileWrite>, i: nat, w: FileWrite)
    requires InOrder(writes) && i < |writes| && w in writes[..i + 1]
    ensures !Above(writes[i].path, w.path)
  {
    if Above(writes[i].path, w.path) {
      PrefixIsLess(writes[i].path, w.path);
      Text.LessTotal(writes[i].path, w.path);
    }
  }

  /** Only the governed paths are touched by the first writes. */
  lemma FinalOutside(saved: Tree, tree: Tree, originals: seq<Original>, writes: seq<FileWrite>, i: nat, n: nat)
    requires AllSaved(saved, originals, writes) && i <= n <= |writes|
    requires Reached(saved, tree, writes[..i])
    ensures SameOutside(saved, tree, originals[..n])
  {
    hide IsTemporary, InOrder;
    forall q | !IsTemporary(q) && !Governed(originals[..n], q)
      ensures At(saved, q) == At(tree, q)
    {
      assert forall k | 0 <= k < i :: originals[..n][k] == originals[k];
      assert forall k | 0 <= k < i :: q != writes[k].path;
      assert LastWrite(writes[..i], q).None?;
      if exists w | w in writes[..i] :: Above(q, w.path) {
        var k :| 0 <= k < i && Above(q, writes[k].path);
        assert Saved(saved, originals[k]);
        assert q !in originals[..n][k].parents;
      }
    }
  }

  /** Directories made above a path are among those found missing, unless it failed before. */
  lemma MadeInside(saved: Tree, tree: Tree, made: Tree, originals: seq<Original>, writes: seq<FileWrite>, i: nat)
    requires AllSaved(saved, originals, writes) && i < |writes|
    requires Reached(saved, tree, writes[..i])
    requires forall q :: At(made, q) == At(tree, q)
                         || (At(tree, q) == None && At(made, q) == Some(Dir) && Above(q, writes[i].path))
    ensures SameOutside(saved, made, originals[..i + 1]) && SameOutside(saved, made, originals)
  {
    hide InOrder, Reached;
    FinalOutside(saved, tree, originals, writes, i, i + 1);
    FinalOutside(saved, tree, originals, writes, i, |writes|);
    assert originals[..|writes|] == originals;
    assert originals[..i + 1][i] == originals[i] && Saved(saved, originals[i]);
    forall q | At(made, q) != At(tree, q) && !IsTemporary(q)
      ensures q in originals[i].parents
    {
      hide IsTemporary;
      if At(saved, q) == Some(Dir) {
        StaysDir(saved, tree, originals, writes, i, q);
      }
    }
    hide IsTemporary;
  }

  /** A directory that was there is still there. */
  lemma StaysDir(saved: Tree, tree: Tree, originals: seq<Original>, writes: seq<FileWrite>, i: nat, q: string)
    requires AllSaved(saved, originals, writes) && i <= |writes|
    requires Reached(saved, tree, writes[..i]) && At(saved, q) == Some(Dir) && !IsTemporary(q)
    ensures At(tree, q) == Some(Dir)
  {
    hide IsTemporary, InOrder;
    forall k | 0 <= k < i
      ensures writes[k].path != q
    {
      assert Saved(saved, originals[k]);
    }
  }

  /** One more write, made in full. */
  lemma OneMore(saved: Tree, tree: Tree, made: Tree, after: Tree, originals: seq<Original>, writes: seq<FileWrite>, i: nat)
    requires AllSaved(saved, originals, writes) && i < |writes|
    requires Reached(saved, tree, writes[..i])
    requires forall q :: At(made, q) == At(tree, q)
                         || (At(tree, q) == None && At(made, q) == Some(Dir) && Above(q, writes[i].path))
    requires forall q | Above(q, writes[i].path) :: At(made, q) == Some(Dir)
    requires OnlyAt(made, after, writes[i].path)
    requires At(after, writes[i].path) == if writes[i].delete then None else Some(File(writes[i].data, NEW_MODE))
    ensures Reached(saved, after, writes[..i + 1])
  {
    hide IsTemporary, Final;
    forall q | !IsTemporary(q)
      ensures At(after, q) == Final(saved, writes[..i + 1], q)
    {
      FinalGrows(saved, writes, i, q);
    }
  }

  lemma FinalGrows(saved: Tree, writes: seq<FileWrite>, i: nat, q: string)
    requires InOrder(writes) && i < |writes|
    ensures Final(saved, writes[..i + 1], q) ==
            if Above(q, writes[i].path) then Some(Dir)
            else if q == writes[i].path then if writes[i].delete then None else Some(File(writes[i].data, NEW_MODE))
            else Final(saved, writes[..i], q)
  {
    var w, grown := writes[i], writes[..i + 1];
    assert grown[..i] == writes[..i] && grown[i] == w;
    assert forall v | v in grown :: v in writes[..i] || v == w;
    if q == w.path {
      forall v | v in grown
        ensures !Above(q, v.path)
      {
        NothingBelowYet(writes, i, v);
      }
    } else {
      assert LastWrite(grown, q) == LastWrite(writes[..i], q);
      assert w in grown && forall v | v in writes[..i] :: v in grown;
    }
  }

  /** One governed path: the directories above it, then the file itself. */
  method WriteOne(disk: Disk, w: FileWrite) returns (made: bool, ok: bool, ghost between: Tree)
    requires disk.Valid() && !IsTemporary(w.path)
    modifies disk
    ensures disk.Valid()
    ensures forall q :: At(between, q) == At(old(disk.tree), q)
                        || (At(old(disk.tree), q) == None && At(between, q) == Some(Dir) && Above(q, w.path))
    ensures !made ==> disk.tree == between && !ok
    ensures made ==> OnlyAt(between, disk.tree, w.path) && forall q | Above(q, w.path) :: At(between, q) == Some(Dir)
    ensures ok ==> At(disk.tree, w.path) == if w.delete then None else Some(File(w.data, NEW_MODE))
    ensures disk.faults >= old(disk.faults)
    ensures disk.faults == old(disk.faults) ==>
              && SameTemporaries(old(disk.tree), disk.tree)
              && (made <==> ClearWay(old(disk.tree), w.path))
              && (!made ==> disk.tree == old(disk.tree))
              && (made && w.path != "." && At(old(disk.tree), w.path) != Some(Dir) ==> ok)
  {
    forall q | Above(q, w.path)
      ensures !IsTemporary(q)
    {
      if IsTemporary(q) {
        NameBelow(q, w.path, TEMPORARY);
      }
    }
    forall q
      ensures Above(q, w.path) <==> (q == Parent(w.path) && q != ".") || Above(q, Parent(w.path))
    {
      OnTheWay(q, w.path);
    }
    hide IsTemporary, Above;
    var reply := disk.MkdirAll(Parent(w.path));
    made, between := reply == Done, disk.tree;
    if !made {
      return false, false, between;
    }
    if w.delete {
      reply := disk.Remove(w.path);
      ok := reply != Failed;
    } else {
      ok := ReplaceFile(disk, w.path, w.data);
    }
  }

  lemma OnTheWay(q: string, p: string)
    ensures Above(q, p) <==> (q == Parent(p) && q != ".") || Above(q, Parent(p))
  {
    AboveParent(q, p);
  }

  /** Saves every governed path as it is, or refuses; nothing is touched. */
  method InspectAll(disk: Disk, writes: seq<FileWrite>, expected: map<string, Option<string>>)
    returns (originals: seq<Original>, refused: Option<string>)
    requires Rooted(disk.tree) && InOrder(writes) && forall w | w in writes :: !IsTemporary(w.path)
    modifies disk`faults
    ensures refused.None? ==> AllSaved(disk.tree, originals, writes) && AllReady(disk.tree, writes, expected)
    ensures disk.faults >= old(disk.faults)
    ensures refused.Some? && disk.faults == old(disk.faults) ==> !AllReady(disk.tree, writes, expected)
  {
    hide IsTemporary, Rooted, InOrder, Saved, Ready;
    originals := [];
    for i := 0 to |writes|
      invariant |originals| == i && disk.faults >= old(disk.faults)
      invariant forall k | 0 <= k < i :: originals[k].path == writes[k].path && Saved(disk.tree, originals[k])
      invariant AllReady(disk.tree, writes[..i], expected)
    {
      var path := writes[i].path;
      var expectation := Expectation(expected, path);
      var o, code := Inspect(disk, path, expectation);
      if o.None? {
        return originals, Some(code);
      }
      assert writes[..i + 1] == writes[..i] + [writes[i]];
      originals := originals + [o.value];
    }
    assert writes[..|writes|] == writes;
    refused := None;
  }

  function Expectation(expected: map<string, Option<string>>, path: string): (content: Option<string>) {
    if path in expected then expected[path] else None
  }

  /** Every governed path may be written. */
  ghost predicate AllReady(tree: Tree, writes: seq<FileWrite>, expected: map<string, Option<string>>) {
    forall w | w in writes :: Ready(tree, w.path, Expectation(expected, w.path))
  }

  /** A file is written on the way to `p`, so that the directories it needs cannot be made. */
  ghost predicate Blocked(writes: seq<FileWrite>, p: string) {
    exists v | v in writes && Above(v.path, p) :: LastWrite(writes, v.path).Some? && !LastWrite(writes, v.path).value.delete
  }

  /** The first `i` writes can be made, and the one after them cannot. */
  ghost predicate FirstBlocked(writes: seq<FileWrite>, i: nat) {
    && i <= |writes| && NoneBlocked(writes, i)
    && (i < |writes| ==> Blocked(writes, writes[i].path))
  }

  lemma {:induction false} OneWrite(writes: seq<FileWrite>, j: nat)
    requires InOrder(writes) && j < |writes|
    ensures LastWrite(writes, writes[j].path) == Some(writes[j])
  {
    var last := writes[|writes| - 1];
    if j < |writes| - 1 {
      Text.LessTotal(writes[j].path, last.path);
      Text.LessTotal(last.path, last.path);
      assert last.path != writes[j].path;
      OneWrite(writes[..|writes| - 1], j);
    }
  }

  /** When the writes before it are made, a file is in the way of a write exactly if it is
      blocked; and its own path holds no directory. */
  lemma BlockedExactly(saved: Tree, tree: Tree, originals: seq<Original>, writes: seq<FileWrite>, i: nat)
    requires AllSaved(saved, originals, writes) && i < |writes| && Reached(saved, tree, writes[..i])
    requires NoneBlocked(writes, i)
    ensures ClearWay(tree, writes[i].path) <==> !Blocked(writes, writes[i].path)
    ensures At(tree, writes[i].path) != Some(Dir)
  {
    var p := writes[i].path;
    assert Saved(saved, originals[i]);
    if Blocked(writes, p) {
      var v :| v in writes && Above(v.path, p) && LastWrite(writes, v.path).Some? && !LastWrite(writes, v.path).value.delete;
      InTheWay(saved, tree, originals, writes, i, v);
    }
    forall d | Above(d, p) && d in tree && tree[d] != Dir
      ensures Blocked(writes, p)
    {
      NotTemporaryAbove(d, p);
      FileIsWritten(saved, tree, originals, writes, i, d);
    }
    NoDirectoryYet(saved, writes, i);
  }

  lemma InTheWay(saved: Tree, tree: Tree, originals: seq<Original>, writes: seq<FileWrite>, i: nat, v: FileWrite)
    requires AllSaved(saved, originals, writes) && i < |writes| && Reached(saved, tree, writes[..i]) && NoneBlocked(writes, i)
    requires v in writes && Above(v.path, writes[i].path) && LastWrite(writes, v.path).Some? && !LastWrite(writes, v.path).value.delete
    ensures v.path in tree && tree[v.path].File?
  {
    var j := WriteAbove(writes, i, v);
    assert Saved(saved, originals[j]);
    WrittenFile(saved, writes, i, j);
    hide IsTemporary, Above, InOrder, NoneBlocked, Final;
  }

  /** What blocks a write comes before it. */
  lemma WriteAbove(writes: seq<FileWrite>, i: nat, v: FileWrite) returns (j: nat)
    requires InOrder(writes) && i < |writes|
    requires v in writes && Above(v.path, writes[i].path) && LastWrite(writes, v.path).Some? && !LastWrite(writes, v.path).value.delete
    ensures j < i && writes[j].path == v.path && !writes[j].delete
  {
    j :| 0 <= j < |writes| && writes[j] == v;
    OneWrite(writes, j);
    PrefixIsLess(v.path, writes[i].path);
    LaterIndex(writes, j, i);
  }

  lemma FileIsWritten(saved: Tree, tree: Tree, originals: seq<Original>, writes: seq<FileWrite>, i: nat, d: string)
    requires AllSaved(saved, originals, writes) && i < |writes| && Reached(saved, tree, writes[..i])
    requires Above(d, writes[i].path) && !IsTemporary(d) && d in tree && tree[d].File?
    ensures Blocked(writes, writes[i].path)
  {
    assert Saved(saved, originals[i]);
    hide IsTemporary;
    var w := LastWrite(writes[..i], d);
    assert w.Some? && !w.value.delete;
    var j :| 0 <= j < i && writes[j] == w.value;
    OneWrite(writes, j);
    assert writes[j] in writes;
  }

  lemma NoDirectoryYet(saved: Tree, writes: seq<FileWrite>, i: nat)
    requires InOrder(writes) && i < |writes|
    ensures Final(saved, writes[..i], writes[i].path) == At(saved, writes[i].path)
  {
    var p := writes[i].path;
    forall w | w in writes[..i]
      ensures !Above(p, w.path) && w.path != p
    {
      var k :| 0 <= k < i && writes[k] == w;
      assert writes[k] in writes[..i + 1];
      NothingBelowYet(writes, i, w);
      Text.LessTotal(p, p);
    }
  }

  lemma AllAreSaved(saved: Tree, originals: seq<Original>, writes: seq<FileWrite>)
    requires AllSaved(saved, originals, writes)
    ensures forall o | o in originals :: Saved(saved, o)
  {
    hide Saved, InOrder;
  }

  /** Makes the writes one after the other; `touched` is what has to be put back if they, or
      what is checked after them, fail. If no operation fails, it stops at the first write
      that is blocked. */
  method WriteAll(disk: Disk, writes: seq<FileWrite>, originals: seq<Original>, ghost saved: Tree)
    returns (written: bool, touched: seq<Original>, ghost made: nat)
    requires disk.Valid() && disk.tree == saved && Rooted(saved) && AllSaved(saved, originals, writes)
    requires forall w | w in writes :: !IsTemporary(w.path)
    modifies disk
    ensures disk.Valid() && disk.faults >= old(disk.faults)
    ensures written ==> Reached(saved, disk.tree, writes)
    ensures SameOutside(saved, disk.tree, touched) && forall o | o in touched :: o in originals
    ensures disk.faults == old(disk.faults) ==>
              && touched == originals && FirstBlocked(writes, made) && Wrote(saved, disk.tree, originals, writes, made)
              && (written <==> made == |writes|)
  {
    hide IsTemporary, Above, Rooted, Reached, Saved, SameOutside, OnlyAt, InOrder, Disk.Valid, SameTemporaries, ClearWay, Blocked;
    AtFirst(saved, writes);
    SameItself(saved);
    for i := 0 to |writes|
      invariant disk.Valid() && Reached(saved, disk.tree, writes[..i])
      invariant disk.faults >= old(disk.faults)
      invariant disk.faults == old(disk.faults) ==>
                  SameTemporaries(saved, disk.tree) && forall k | 0 <= k < i :: !Blocked(writes, writes[k].path)
    {
      ghost var tree := disk.tree;
      NotTheRoot(saved, originals, writes, i);
      var prepared, ok, between := WriteOne(disk, writes[i]);
      MadeInside(saved, tree, between, originals, writes, i);
      if disk.faults == old(disk.faults) {
        BlockedExactly(saved, tree, originals, writes, i);
        TemporariesStay(saved, tree, disk.tree);
      }
      if !ok {
        Contained(saved, between, disk.tree, originals, i);
        return false, if prepared then originals[..i + 1] else originals, i;
      }
      OneMore(saved, tree, between, disk.tree, originals, writes, i);
    }
    assert writes[..|writes|] == writes && originals[..|writes|] == originals;
    FinalOutside(saved, disk.tree, originals, writes, |writes|, |writes|);
    written, touched, made := true, originals, |writes|;
  }

  lemma NotTheRoot(saved: Tree, originals: seq<Original>, writes: seq<FileWrite>, i: nat)
    requires Rooted(saved) && AllSaved(saved, originals, writes) && i < |writes|
    ensures writes[i].path != "."
  {
    assert Saved(saved, originals[i]);
  }

  /** Between two governed paths lies a directory that is none. */
  ghost predicate Entangled(writes: seq<FileWrite>) {
    exists v, d, w | v in writes && w in writes && Above(v.path, d) && Above(d, w.path) :: forall u | u in writes :: u.path != d
  }

  ghost predicate SomeBlocked(writes: seq<FileWrite>) {
    exists u | u in writes :: Blocked(writes, u.path)
  }

  /** Some path is stuck exactly if a write was blocked or the writes are entangled. */
  lemma StuckExactly(writes: seq<FileWrite>, i: nat)
    requires InOrder(writes) && FirstBlocked(writes, i)
    ensures (exists k | 0 <= k < |writes| :: Stuck(writes, i, writes[k].path)) <==> SomeBlocked(writes) || Entangled(writes)
  {
    FirstBlockedBound(writes, i);
    hide InOrder, NoneBlocked, Above;
    if i < |writes| {
      BlockedIsStuck(writes, i);
    } else {
      HeldIsEntangled(writes);
      forall k | 0 <= k < |writes|
        ensures !Under(writes, i, writes[k].path)
      {
        NotUnder(writes, k);
      }
    }
  }

  lemma BlockedIsStuck(writes: seq<FileWrite>, i: nat)
    requires InOrder(writes) && i < |writes| && Blocked(writes, writes[i].path)
    ensures Stuck(writes, i, writes[i].path)
  {
    var v :| v in writes && Above(v.path, writes[i].path) && LastWrite(writes, v.path).Some? && !LastWrite(writes, v.path).value.delete;
    var j := WriteAbove(writes, i, v);
  }

  lemma NotUnder(writes: seq<FileWrite>, k: nat)
    requires InOrder(writes) && NoneBlocked(writes, |writes|) && k < |writes|
    ensures !Under(writes, |writes|, writes[k].path)
  {
    forall j | 0 <= j < |writes| && !writes[j].delete
      ensures !Above(writes[j].path, writes[k].path)
    {
      NothingBelowWritten(writes, |writes|, j, k);
    }
  }

  lemma HeldIsEntangled(writes: seq<FileWrite>)
    ensures (exists k | 0 <= k < |writes| :: Held(writes, |writes|, writes[k].path)) <==> Entangled(writes)
  {
    hide Above;
    if k :| 0 <= k < |writes| && Held(writes, |writes|, writes[k].path) {
      var m, d :| 0 <= m < |writes| && Above(writes[k].path, d) && Above(d, writes[m].path) && forall j | 0 <= j < |writes| :: writes[j].path != d;
      assert writes[k] in writes && writes[m] in writes;
    }
    if v, d, w :| v in writes && w in writes && Above(v.path, d) && Above(d, w.path) && forall u | u in writes :: u.path != d {
      var k :| 0 <= k < |writes| && writes[k] == v;
      var m :| 0 <= m < |writes| && writes[m] == w;
      assert Held(writes, |writes|, writes[k].path);
    }
  }

  lemma FirstBlockedBound(writes: seq<FileWrite>, i: nat)
    requires FirstBlocked(writes, i)
    ensures i <= |writes| && (i == |writes| <==> !SomeBlocked(writes))
  {
    hide Blocked;
    if i < |writes| {
      assert writes[i] in writes;
    }
  }

  /** The whole mutation, or none of it; `valid` is what the check after the writes answers.
      When no operation fails it is applied exactly if there is something to write, every
      path may be written, none is blocked and the check passes; and otherwise everything is
      as it was, although that is reported as unknown exactly if a write was blocked, or the
      check failed and the writes are entangled. */
  method ApplyTransaction(disk: Disk, given: seq<FileWrite>, expected: map<string, Option<string>>, valid: bool) returns (outcome: Outcome)
    requires Rooted(disk.tree) && forall w | w in given :: !IsTemporary(w.path)
    modifies disk
    ensures outcome.Applied? ==> Reached(old(disk.tree), disk.tree, given) && AllReady(old(disk.tree), given, expected) && valid
    ensures outcome.Refused? ==> Same(old(disk.tree), disk.tree)
    ensures disk.faults >= old(disk.faults)
    ensures disk.faults == old(disk.faults) ==>
              && SameTemporaries(old(disk.tree), disk.tree)
              && (outcome.Applied? <==> given != [] && AllReady(old(disk.tree), given, expected) && !SomeBlocked(given) && valid)
              && (outcome.Unknown? <==>
                    && given != [] && AllReady(old(disk.tree), given, expected)
                    && (SomeBlocked(given) || (!valid && Entangled(given))))
              && (!outcome.Applied? ==> Same(old(disk.tree), disk.tree))
  {
    hide IsTemporary, Above, Rooted, Reached, Saved, SameOutside, Same, AllReady, InOrder, Disk.Valid, SameTemporaries, Blocked, Entangled,
         SomeBlocked, FirstBlocked, AllSaved, Stuck, NoneBlocked;
    ghost var saved := disk.tree;
    RootedIsValid(disk);
    SameItself(saved);
    var writes := Deduplicate(given);
    SameWrites(given, writes);
    SameReadiness(saved, given, writes, expected);
    if writes == [] {
      return Refused("internal");
    }
    var originals, refused := InspectAll(disk, writes, expected);
    if refused.Some? {
      return Refused(refused.value);
    }
    AllAreSaved(saved, originals, writes);
    RootedIsValid(disk);
    var written, touched, made := WriteAll(disk, writes, originals, saved);
    if disk.faults == old(disk.faults) {
      FirstBlockedBound(writes, made);
      StuckExactly(writes, made);
    }
    if !written || !valid {
      var restored := RollbackFiles(disk, touched, saved, writes, made);
      return if restored then Refused(if written then "storage.post_write_failed" else "storage.write_failed") else Unknown;
    }
    SameReach(saved, disk.tree, given, writes);
    outcome := Applied;
  }

  /** Deleting `a` while writing `a/c/d`, where nothing existed, and failing the check: the
      rollback finds `a` occupied by `a/c`, which is put back only after it. */
  lemma NestedDeleteIsEntangled()
    ensures var given := [FileWrite("a", "", true), FileWrite("a/c/d", "x", false)];
            Entangled(given) && AllReady(map["." := Dir], given, map[]) && !SomeBlocked(given)
  {
    var given := [FileWrite("a", "", true), FileWrite("a/c/d", "x", false)];
    var v, w, d := given[0], given[1], "a/c";
    assert Above("a", d) && Above(d, "a/c/d") && Above("a", "a/c/d");
    assert !Above("a", "a") && !Above("a/c/d", "a") && !Above("a/c/d", "a/c/d");
    assert v in given && w in given && forall u | u in given :: u == v || u == w;
    assert LastWrite(given, "a") == Some(v) by {
      assert given[..1] == [v];
    }
    assert forall u | u in given :: !Blocked(given, u.path);
  }

  /** Writing `a` and `a/b`, where nothing existed: the second is blocked by the first, and the
      rollback cannot remove `a/b` while `a` is a file. */
  lemma NestedWriteIsBlocked()
    ensures var given := [FileWrite("a", "x", false), FileWrite("a/b", "y", false)];
            SomeBlocked(given) && !Entangled(given) && AllReady(map["." := Dir], given, map[])
  {
    var given := [FileWrite("a", "x", false), FileWrite("a/b", "y", false)];
    var v, w := given[0], given[1];
    assert v in given && w in given && Above("a", "a/b") && !Above("a", "a");
    assert LastWrite(given, "a") == Some(v) by {
      assert given[..1] == [v];
    }
    assert Blocked(given, w.path);
    forall x, d, y | x in given && y in given
      ensures !(Above(x.path, d) && Above(d, y.path))
    {
      assert x.path != "" && forall k | 0 <= k < |y.path| && y.path[k] == '/' :: k == 1;
    }
  }

  /** Deleting `a` while writing `a/b` is not: there is nothing between them. */
  lemma PlainNestedDeleteIsNot()
    ensures !Entangled([FileWrite("a", "", true), FileWrite("a/b", "x", false)])
  {
    var given := [FileWrite("a", "", true), FileWrite("a/b", "x", false)];
    forall v, d, w | v in given && w in given
      ensures !(Above(v.path, d) && Above(d, w.path))
    {
      assert v.path != "" && forall k | 0 <= k < |w.path| && w.path[k] == '/' :: k == 1;
    }
  }

  /** A governed path holds the last write to it, unless that deletes it and another governed
      path lies below: then it is the directory that path needs. */
  lemma LastWriteHolds(saved: Tree, writes: seq<FileWrite>, w: FileWrite)
    requires LastWrite(writes, w.path) == Some(w)
    ensures Final(saved, writes, w.path) == (if w.delete then None else Some(File(w.data, NEW_MODE)))
       <==> forall v | v in writes :: !Above(w.path, v.path)
  {
  }

  /** Deleting `a` while writing `a/b`, where neither existed, leaves a directory at `a`. */
  lemma DeletedPathHoldsDirectory()
    ensures var writes := [FileWrite("a", "", true), FileWrite("a/b", "x", false)];
            Final(map["." := Dir], writes, "a") == Some(Dir)
  {
    var writes := [FileWrite("a", "", true), FileWrite("a/b", "x", false)];
    assert writes[1] in writes && Above("a", "a/b");
  }

  /** A path no write names or needs is left as it was. */
  lemma OthersUntouched(saved: Tree, writes: seq<FileWrite>, q: string)
    requires forall w | w in writes :: w.path != q && !Above(q, w.path)
    ensures Final(saved, writes, q) == At(saved, q)
  {
  }

  lemma RootedIsValid(disk: Disk)
    requires Rooted(disk.tree)
    ensures disk.Valid()
  {
  }

  lemma SameItself(tree: Tree)
    ensures Same(tree, tree) && SameTemporaries(tree, tree)
  {
  }

  lemma TemporariesStay(a: Tree, b: Tree, c: Tree)
    requires SameTemporaries(a, b) && SameTemporaries(b, c)
    ensures SameTemporaries(a, c)
  {
    hide IsTemporary;
  }

  lemma AtFirst(saved: Tree, writes: seq<FileWrite>)
    ensures Reached(saved, saved, writes[..0])
  {
  }

  /** A failed write of one path touches that path alone. */
  lemma Contained(saved: Tree, between: Tree, after: Tree, originals: seq<Original>, i: nat)
    requires i < |originals|
    requires SameOutside(saved, between, originals[..i + 1]) && SameOutside(saved, between, originals)
    requires OnlyAt(between, after, originals[i].path) || after == between
    ensures SameOutside(saved, after, originals[..i + 1]) && SameOutside(saved, after, originals)
  {
    hide IsTemporary;
    assert originals[..i + 1][i] == originals[i];
    assert Governed(originals, originals[i].path) && Governed(originals[..i + 1], originals[i].path);
  }

  /** The writes in order say what the writes as given said. */
  lemma SameWrites(given: seq<FileWrite>, writes: seq<FileWrite>)
    requires forall w | w in writes :: LastWrite(given, w.path) == Some(w)
    requires forall w | w in given :: LastWrite(given, w.path).Some? && LastWrite(given, w.path).value in writes
    ensures forall q :: LastWrite(given, q) == LastWrite(writes, q)
    ensures forall p :: Blocked(given, p) <==> Blocked(writes, p)
    ensures SomeBlocked(given) <==> SomeBlocked(writes)
    ensures Entangled(given) <==> Entangled(writes)
    ensures given == [] <==> writes == []
  {
    hide Above;
    forall q
      ensures LastWrite(given, q) == LastWrite(writes, q)
    {
    }
    SamePaths(given, writes);
    SameBlocked(given, writes);
    SameTangles(given, writes);
    assert given != [] ==> LastWrite(given, given[0].path).value in writes by {
      assert given != [] ==> given[0] in given;
    }
    assert writes != [] ==> writes[0] in writes;
  }

  lemma SamePaths(given: seq<FileWrite>, writes: seq<FileWrite>)
    requires forall q :: LastWrite(given, q) == LastWrite(writes, q)
    ensures forall q :: HasPath(given, q) <==> HasPath(writes, q)
  {
    forall q
      ensures HasPath(given, q) <==> LastWrite(given, q).Some?
      ensures HasPath(writes, q) <==> LastWrite(writes, q).Some?
    {
    }
  }

  predicate HasPath(writes: seq<FileWrite>, q: string) {
    exists w | w in writes :: w.path == q
  }

  lemma WriteTo(writes: seq<FileWrite>, q: string) returns (w: FileWrite)
    requires HasPath(writes, q)
    ensures w in writes && w.path == q
  {
    w :| w in writes && w.path == q;
  }

  lemma ItsPath(writes: seq<FileWrite>, w: FileWrite)
    requires w in writes
    ensures HasPath(writes, w.path)
  {
  }

  lemma SameBlocked(given: seq<FileWrite>, writes: seq<FileWrite>)
    requires forall q :: LastWrite(given, q) == LastWrite(writes, q)
    ensures forall p :: Blocked(given, p) <==> Blocked(writes, p)
    ensures SomeBlocked(given) <==> SomeBlocked(writes)
  {
    hide Above;
    SamePaths(given, writes);
    forall p
      ensures Blocked(given, p) <==> Blocked(writes, p)
    {
      BlockedBy(given, writes, p);
      BlockedBy(writes, given, p);
    }
    hide Blocked, HasPath, LastWrite;
    if u :| u in given && Blocked(given, u.path) {
      ItsPath(given, u);
      var w := WriteTo(writes, u.path);
    }
    if u :| u in writes && Blocked(writes, u.path) {
      ItsPath(writes, u);
      var w := WriteTo(given, u.path);
    }
  }

  lemma BlockedBy(a: seq<FileWrite>, b: seq<FileWrite>, p: string)
    requires forall q :: LastWrite(a, q) == LastWrite(b, q)
    ensures Blocked(a, p) ==> Blocked(b, p)
  {
    hide Above;
    SamePaths(a, b);
    if v :| v in a && Above(v.path, p) && LastWrite(a, v.path).Some? && !LastWrite(a, v.path).value.delete {
      ItsPath(a, v);
      var w := WriteTo(b, v.path);
    }
  }

  lemma SameTangles(given: seq<FileWrite>, writes: seq<FileWrite>)
    requires forall q :: LastWrite(given, q) == LastWrite(writes, q)
    ensures Entangled(given) <==> Entangled(writes)
  {
    TangledIn(given, writes);
    TangledIn(writes, given);
  }

  lemma TangledIn(a: seq<FileWrite>, b: seq<FileWrite>)
    requires forall q :: LastWrite(a, q) == LastWrite(b, q)
    ensures Entangled(a) ==> Entangled(b)
  {
    hide Above, LastWrite, HasPath;
    SamePaths(a, b);
    if v, d, w :| v in a && w in a && Above(v.path, d) && Above(d, w.path) && forall u | u in a :: u.path != d {
      ItsPath(a, v);
      ItsPath(a, w);
      var x := WriteTo(b, v.path);
      var y := WriteTo(b, w.path);
      forall u | u in b
        ensures u.path != d
      {
        ItsPath(b, u);
        var t := WriteTo(a, u.path);
      }
    }
  }

  lemma SameReadiness(tree: Tree, given: seq<FileWrite>, writes: seq<FileWrite>, expected: map<string, Option<string>>)
    requires forall q :: LastWrite(given, q) == LastWrite(writes, q)
    ensures AllReady(tree, given, expected) <==> AllReady(tree, writes, expected)
  {
    hide Ready, HasPath, LastWrite;
    SamePaths(given, writes);
    if AllReady(tree, given, expected) {
      forall w | w in writes
        ensures Ready(tree, w.path, Expectation(expected, w.path))
      {
        ItsPath(writes, w);
        var v := WriteTo(given, w.path);
      }
    }
    if AllReady(tree, writes, expected) {
      forall w | w in given
        ensures Ready(tree, w.path, Expectation(expected, w.path))
      {
        ItsPath(given, w);
        var v := WriteTo(writes, w.path);
      }
    }
  }

  lemma SameReach(saved: Tree, tree: Tree, given: seq<FileWrite>, writes: seq<FileWrite>)
    requires forall q :: LastWrite(given, q) == LastWrite(writes, q)
    requires Reached(saved, tree, writes)
    ensures Reached(saved, tree, given)
  {
    hide IsTemporary, Above, LastWrite, HasPath;
    SamePaths(given, writes);
    forall q
      ensures Final(saved, given, q) == Final(saved, writes, q)
    {
      if w :| w in given && Above(q, w.path) {
        ItsPath(given, w);
        var v := WriteTo(writes, w.path);
      }
      if w :| w in writes && Above(q, w.path) {
        ItsPath(writes, w);
        var v := WriteTo(given, w.path);
      }
    }
  }
}
