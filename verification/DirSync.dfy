/** Three-way apply of a remote copy's changes to a host directory
    (internal/dirsync/dirsync.go). A name is the list of its segments between
    slashes; SHA-256 is taken to be injective, so a digest is the content. */
module DirSync {
  import opened Wrappers

  type Name = seq<string>
  type Content = string
  type Tree = map<Name, Content>

  datatype SyncError = UnsafePath(name: Name) | ReadFailed(name: Name) | StillContains(name: Name) | CreateFailed(name: Name)

  /** safeName, over segments. */
  predicate Safe(name: Name) {
    && name != []
    && forall i | 0 <= i < |name| :: name[i] != "" && name[i] != "." && name[i] != ".." && '\0' !in name[i]
  }

  /** `a` is a directory on the way to `p`. */
  predicate Above(a: Name, p: Name) {
    0 < |a| < |p| && p[..|a|] == a
  }

  lemma AboveTrans(a: Name, b: Name, c: Name)
    requires Above(a, b) && (Above(b, c) || b == c)
    ensures Above(a, c)
  {
    if b != c {
      assert a == b[..|a|] == c[..|b|][..|a|] == c[..|a|];
    }
  }

  lemma BelowBelow(a: Name, b: Name, c: Name)
    ensures (a == b || Above(a, b)) && Above(b, c) ==> Above(a, c)
  {
    if Above(a, b) && Above(b, c) { AboveTrans(a, b, c); }
  }

  /** No file lies below another. */
  ghost predicate PrefixFree(names: set<Name>) {
    forall a, p | a in names && p in names :: !Above(a, p)
  }

  // ------------------------------------------------------- what Apply means

  /** The run added or changed the file. */
  predicate Written(base: Tree, result: Tree, p: Name) {
    p in result && (p !in base || base[p] != result[p])
  }

  /** The run deleted the file, and nobody else changed it. */
  predicate Retired(base: Tree, result: Tree, host: Tree, p: Name) {
    p in base && p !in result && p in host && host[p] == base[p]
  }

  /** The three-way merge: what a successful Apply leaves. */
  function Merge(base: Tree, host: Tree, result: Tree): Tree {
    map p | p in host.Keys + result.Keys
            && (Written(base, result, p) || (p in host && !Retired(base, result, host, p)))
          :: if Written(base, result, p) then result[p] else host[p]
  }

  function At(t: Tree, p: Name): Option<Content> {
    if p in t then Some(t[p]) else None
  }

  predicate Readable(host: Tree, dirs: set<Name>, p: Name) {
    p !in dirs && forall a | a in host :: !Above(a, p)
  }

  /** What a caller can check before Apply: the names are safe, no deleted
      name has become a directory or lies below a file, and the merge is a tree. */
  ghost predicate Ready(base: Tree, host: Tree, dirs: set<Name>, result: Tree) {
    && (forall p | p in result :: Safe(p))
    && (forall p | p in base && p !in result && Safe(p) :: Readable(host, dirs, p))
    && PrefixFree(Merge(base, host, result).Keys)
  }

  /** Directories after the files in `written` were installed: those that had
      to give way are gone, and those on the way are there. */
  ghost predicate DirectoryAfter(dirs: set<Name>, written: set<Name>, d: Name) {
    || (d in dirs && d !in written && forall w | w in written :: !Above(w, d))
    || exists w :: w in written && Above(d, w)
  }

  ghost predicate DirectoriesAfter(before: set<Name>, written: set<Name>, dirs: set<Name>) {
    forall d :: d in dirs <==> DirectoryAfter(before, written, d)
  }

  lemma OneMoreInstalled(before: set<Name>, written: set<Name>, dirs: set<Name>, name: Name, dirs': set<Name>)
    requires DirectoriesAfter(before, written, dirs)
    requires forall d :: d in dirs' <==> (d in dirs && d != name && !Above(name, d)) || Above(d, name)
    requires forall w | w in written :: !Above(name, w)
    ensures DirectoriesAfter(before, written + {name}, dirs')
  {
    forall d ensures d in dirs' <==> DirectoryAfter(before, written + {name}, d) {
      assert d in dirs <==> DirectoryAfter(before, written, d);
      forall w | w in written ensures Above(d, w) ==> d != name && !Above(name, d) {
        BelowBelow(name, d, w);
      }
      assert name in written + {name};
      assert forall w | w in written :: w in written + {name};
    }
  }

  function Overlaid(files: Tree, written: set<Name>, result: Tree): Tree
    requires written <= result.Keys
  {
    files + map p | p in written :: result[p]
  }

  lemma OneMoreOverlaid(files: Tree, written: set<Name>, result: Tree, name: Name)
    requires written <= result.Keys && name in result
    ensures Overlaid(files, written + {name}, result) == Overlaid(files, written, result)[name := result[name]]
    ensures Overlaid(files, {}, result) == files
  {
  }

  // ------------------------------------------------------- merge properties

  /** A host that did not move since the snapshot becomes the result, and the
      only things that can go wrong are in the result itself. */
  lemma UnmovedHostBecomesResult(base: Tree, result: Tree, dirs: set<Name>)
    requires PrefixFree(base.Keys) && base.Keys !! dirs
    ensures Merge(base, base, result) == result
    ensures Ready(base, base, dirs, result) <==> (forall p | p in result :: Safe(p)) && PrefixFree(result.Keys)
  {
    assert Merge(base, base, result).Keys == result.Keys;
  }

  /** Files the run did not touch stay as they are now, and a file it deleted
      survives a concurrent edit; every other deletion and every write arrives. */
  lemma MergeKeepsConcurrentEdits(base: Tree, host: Tree, result: Tree, p: Name)
    ensures At(base, p) == At(result, p) ==> At(Merge(base, host, result), p) == At(host, p)
    ensures p in base && p !in result && At(host, p) != At(base, p) ==> At(Merge(base, host, result), p) == At(host, p)
    ensures p in base && p !in result && At(host, p) == At(base, p) ==> p !in Merge(base, host, result)
    ensures p in result && At(base, p) != At(result, p) ==> At(Merge(base, host, result), p) == At(result, p)
  {
    assert p in Merge(base, host, result) <==>
           Written(base, result, p) || (p in host && !Retired(base, result, host, p));
  }

  /** Concurrent runs collide only on files that both changed: from the same
      base, the order of the two applies does not matter, and each run's
      changes are there at the end. */
  lemma DisjointRunsCommute(base: Tree, host: Tree, one: Tree, two: Tree)
    requires forall p | p in base.Keys + one.Keys + two.Keys :: At(one, p) == At(base, p) || At(two, p) == At(base, p)
    ensures Merge(base, Merge(base, host, one), two) == Merge(base, Merge(base, host, two), one)
    ensures forall p | p in one && At(one, p) != At(base, p) :: At(Merge(base, Merge(base, host, one), two), p) == At(one, p)
  {
    var left, right := Merge(base, Merge(base, host, one), two), Merge(base, Merge(base, host, two), one);
    forall p ensures At(left, p) == At(right, p) {
      MergeAt(base, host, one, p);
      MergeAt(base, host, two, p);
      MergeAt(base, Merge(base, host, one), two, p);
      MergeAt(base, Merge(base, host, two), one, p);
      assert p in base.Keys + one.Keys + two.Keys || (At(one, p) == At(base, p) && At(two, p) == At(base, p));
    }
    SameAt(left, right);
    forall p | p in one && At(one, p) != At(base, p) ensures At(left, p) == At(one, p) {
      assert p in base.Keys + one.Keys + two.Keys;
      MergeAt(base, host, one, p);
      MergeAt(base, Merge(base, host, one), two, p);
    }
  }

  /** Applying the same result again changes nothing. */
  lemma ApplyingTwiceIsOnce(base: Tree, host: Tree, result: Tree)
    ensures Merge(base, Merge(base, host, result), result) == Merge(base, host, result)
  {
    var once := Merge(base, host, result);
    forall p ensures At(Merge(base, once, result), p) == At(once, p) {
      MergeAt(base, host, result, p);
      MergeAt(base, once, result, p);
    }
    SameAt(Merge(base, once, result), once);
  }

  lemma MergeAt(base: Tree, host: Tree, result: Tree, p: Name)
    ensures At(Merge(base, host, result), p)
         == if At(base, p) == At(result, p) then At(host, p)
            else if p in result then At(result, p)
            else if At(host, p) == At(base, p) then None
            else At(host, p)
  {
    MergeKeepsConcurrentEdits(base, host, result, p);
  }

  lemma SameAt(s: Tree, t: Tree)
    requires forall p :: At(s, p) == At(t, p)
    ensures s == t
  {
    forall p ensures p in s <==> p in t {
      assert At(s, p) == At(t, p);
    }
    forall p | p in s ensures s[p] == t[p] {
      assert At(s, p) == At(t, p);
    }
  }

  /** 0600, the mode of every file that Apply writes. */
  const FileMode := 0x180

  /** The permission bits after the files in `written` were installed; nothing
      else changes them. */
  function Stamped(modes: map<Name, nat>, written: set<Name>): map<Name, nat> {
    modes + map p | p in written :: FileMode
  }

  lemma OneMoreStamped(modes: map<Name, nat>, written: set<Name>, name: Name)
    ensures Stamped(modes, written + {name}) == Stamped(modes, written)[name := FileMode]
    ensures Stamped(modes, {}) == modes
  {
  }

  function WrittenNames(base: Tree, result: Tree): set<Name> {
    set p | p in result && Written(base, result, p)
  }

  function RetiredNames(base: Tree, host: Tree, result: Tree): set<Name> {
    set p | p in base && Retired(base, result, host, p)
  }

  /** The first loop of Apply, with the names in `left` still to come. */
  ghost predicate RetiredSoFar(base: Tree, result: Tree, host: Tree, changed: set<Name>, left: set<Name>) {
    && left <= base.Keys && changed <= base.Keys && changed !! left
    && (forall p | p in changed :: Retired(base, result, host, p))
    && (forall p | Retired(base, result, host, p) :: p in changed || p in left)
  }

  ghost predicate ReadSoFar(base: Tree, result: Tree, host: Tree, dirs: set<Name>, left: set<Name>) {
    PrefixFree(base.Keys) ==> forall p | p in base && p !in result && Safe(p) && p !in left :: Readable(host, dirs, p)
  }

  lemma RetiredNext(base: Tree, result: Tree, host: Tree, changed: set<Name>, left: set<Name>, name: Name, removed: bool)
    requires RetiredSoFar(base, result, host, changed, left) && name in left && (removed <==> Retired(base, result, host, name))
    ensures RetiredSoFar(base, result, host, changed + (if removed then {name} else {}), left - {name})
  {
  }

  lemma ReadNext(base: Tree, result: Tree, host: Tree, dirs: set<Name>, left: set<Name>, name: Name)
    requires ReadSoFar(base, result, host, dirs, left)
    requires name in result || !Safe(name) || !PrefixFree(base.Keys) || Readable(host, dirs, name)
    ensures ReadSoFar(base, result, host, dirs, left - {name})
  {
  }

  /** What was retired is not in the way of another name of the base. */
  lemma StillReadable(base: Tree, host: Tree, retired: set<Name>, dirs: set<Name>, name: Name)
    requires PrefixFree(base.Keys) && retired <= base.Keys && name in base && Readable(host - retired, dirs, name)
    ensures Readable(host, dirs, name)
  {
  }

  /** The host after the first loop, when it retired `retired`. */
  lemma RetiredState(base: Tree, host: Tree, result: Tree, retired: set<Name>)
    requires forall p | p in retired :: Retired(base, result, host, p)
    ensures forall p :: At(host - retired, p) == At(if p in retired then Merge(base, host, result) else host, p)
  {
    forall p ensures At(host - retired, p) == At(if p in retired then Merge(base, host, result) else host, p) {
      if p in retired { MergeAt(base, host, result, p); }
    }
  }

  lemma WrittenState(base: Tree, host: Tree, result: Tree, retired: set<Name>, written: set<Name>)
    requires forall p | p in retired :: Retired(base, result, host, p)
    requires written <= result.Keys && forall p | p in written :: Written(base, result, p)
    ensures forall p :: At(Overlaid(host - retired, written, result), p)
                     == At(if p in retired + written then Merge(base, host, result) else host, p)
    ensures retired == RetiredNames(base, host, result) && written == WrittenNames(base, result) ==>
              Overlaid(host - retired, written, result) == Merge(base, host, result)
  {
    var files, merge := Overlaid(host - retired, written, result), Merge(base, host, result);
    forall p ensures At(files, p) == At(if p in retired + written then merge else host, p) {
      MergeAt(base, host, result, p);
    }
    if retired == RetiredNames(base, host, result) && written == WrittenNames(base, result) {
      forall p ensures At(files, p) == At(merge, p) {
        MergeAt(base, host, result, p);
      }
      SameAt(files, merge);
    }
  }

  /** A file that stopped the second loop is in the merge as well. */
  lemma ConflictIsInTheMerge(base: Tree, host: Tree, result: Tree, retired: set<Name>, written: set<Name>)
    requires forall p | Retired(base, result, host, p) :: p in retired
    requires written <= result.Keys && forall p | p in written :: Written(base, result, p)
    requires exists w, f :: Written(base, result, w) && f in Overlaid(host - retired, written, result) && (Above(f, w) || Above(w, f))
    ensures !PrefixFree(Merge(base, host, result).Keys)
  {
    var w, f :| Written(base, result, w) && f in Overlaid(host - retired, written, result) && (Above(f, w) || Above(w, f));
    assert w in Merge(base, host, result) && f in Merge(base, host, result);
  }

  // -------------------------------------------------------------- directory

  datatype ReadResult = Data(content: Content) | NotExist | Unreadable

  /** The part of a file system that os.Root shows: regular files and the
      directories that hold them. Links and special files are not modelled. */
  class Root {
    var files: Tree
    var dirs: set<Name>
    /** Permission bits; what they are for a name that is no file means nothing. */
    var modes: map<Name, nat>

    ghost predicate Valid()
      reads this
    {
      && files.Keys <= modes.Keys
      && files.Keys !! dirs
      && (forall p | p in files.Keys + dirs :: Safe(p))
      && (forall a, p | p in files.Keys + dirs && Above(a, p) :: a in dirs)
    }

    /** A path below a file gives ENOTDIR and a directory EISDIR; neither is
        the "does not exist" that Apply skips. */
    method ReadFile(name: Name) returns (r: ReadResult)
      requires Valid() && Safe(name)
      ensures r == (if name in files then Data(files[name])
                    else if name in dirs || (exists a | a in files :: Above(a, name)) then Unreadable
                    else NotExist)
    {
      if name in files {
        return Data(files[name]);
      }
      if name in dirs || (exists a :: a in files && Above(a, name)) {
        return Unreadable;
      }
      return NotExist;
    }

    method Remove(name: Name)
      requires Valid() && name in files
      modifies `files
      ensures Valid() && files == old(files) - {name}
    {
      files := files - {name};
    }

    /** Rmdir: only an empty directory goes. */
    method RemoveDirectory(name: Name) returns (ok: bool)
      requires Valid() && name in dirs
      modifies `dirs
      ensures Valid()
      ensures ok <==> forall p | p in files.Keys + old(dirs) :: !Above(name, p)
      ensures dirs == if ok then old(dirs) - {name} else old(dirs)
    {
      if exists p :: p in files.Keys + dirs && Above(name, p) {
        return false;
      }
      dirs := dirs - {name};
      return true;
    }

    static lemma DeepestExists(names: set<Name>) returns (d: Name)
      requires names != {}
      ensures d in names && forall e | e in names :: |e| <= |d|
      decreases |names|
    {
      var x: Name :| x in names;
      if names == {x} {
        return x;
      }
      var y := DeepestExists(names - {x});
      d := if |x| <= |y| then y else x;
      forall e | e in names ensures |e| <= |d| {
        assert e == x || e in names - {x};
      }
    }

    /** removeEmptyDirectories: refuses when a file is below, and otherwise
        takes the directory and those below it away, children first. */
    method RemoveEmptyDirectories(name: Name) returns (r: Option<SyncError>)
      requires Valid() && name in dirs
      modifies `dirs
      ensures Valid()
      ensures r.Some? <==> exists f :: f in files && Above(name, f)
      ensures r.Some? ==> dirs == old(dirs)
      ensures r.None? ==> forall d :: d in dirs <==> d in old(dirs) && d != name && !Above(name, d)
    {
      if exists f :: f in files && Above(name, f) {
        return Some(StillContains(name));
      }
      var left: set<Name> := set d | d in dirs && (d == name || Above(name, d));
      while left != {}
        invariant Valid() && left <= dirs <= old(dirs)
        invariant forall d | d in left :: d == name || Above(name, d)
        invariant forall d | d in dirs && (d == name || Above(name, d)) :: d in left
        invariant forall d | d in old(dirs) && d !in dirs :: d == name || Above(name, d)
        decreases |left|
      {
        ghost var deepest := DeepestExists(left);
        var d: Name :| d in left && forall e | e in left :: |e| <= |d|;
        forall p | p in files.Keys + dirs ensures !Above(d, p) {
          BelowBelow(name, d, p);
        }
        var ok := RemoveDirectory(d);
        left := left - {d};
      }
      return None;
    }

    /** writeFile: parents are created, then the temporary file is renamed
        over the name. A file on the way to the name makes it fail. */
    method WriteFile(name: Name, data: Content) returns (r: Option<SyncError>)
      requires Valid() && Safe(name) && name !in dirs
      modifies this
      ensures Valid()
      ensures r.Some? <==> exists a :: a in old(files) && Above(a, name)
      ensures r.Some? ==> files == old(files) && dirs == old(dirs) && modes == old(modes)
      ensures r.None? ==> files == old(files)[name := data] && modes == old(modes)[name := FileMode]
      ensures r.None? ==> forall d :: d in dirs <==> d in old(dirs) || Above(d, name)
    {
      if exists a :: a in files && Above(a, name) {
        return Some(CreateFailed(name));
      }
      var parents: set<Name> := set i | 0 < i < |name| :: name[..i];
      forall d ensures d in parents <==> Above(d, name) {
        if Above(d, name) {
          assert d == name[..|d|];
        }
      }
      files, modes := files[name := data], modes[name := FileMode];
      dirs := dirs + parents;
      forall a, p | p in files.Keys + dirs && Above(a, p) ensures a in dirs {
        if Above(p, name) || p == name {
          AboveTrans(a, p, name);
        }
      }
      return None;
    }

    /** One turn of the second loop of Apply: an empty directory gives way to
        the file; a file below the name or on the way to it does not. */
    method Install(name: Name, data: Content) returns (r: Option<SyncError>)
      requires Valid() && Safe(name)
      modifies this
      ensures Valid()
      ensures r.Some? <==> exists f :: f in old(files) && (Above(f, name) || Above(name, f))
      ensures r.Some? ==> files == old(files) && dirs == old(dirs) && modes == old(modes)
      ensures r.None? ==> files == old(files)[name := data] && modes == old(modes)[name := FileMode]
      ensures r.None? ==> forall d :: d in dirs <==> (d in old(dirs) && d != name && !Above(name, d)) || Above(d, name)
    {
      if name in dirs {
        r := RemoveEmptyDirectories(name);
        if r.Some? {
          return;
        }
      }
      r := WriteFile(name, data);
    }

    /** One turn of the first loop of Apply: the deleted file goes, unless it
        changed since. */
    method RetireOne(name: Name, was: Content) returns (removed: bool, r: Option<SyncError>)
      requires Valid() && Safe(name)
      modifies `files
      ensures Valid() && files == old(files) - (if removed then {name} else {})
      ensures removed <==> name in old(files) && old(files)[name] == was
      ensures r.None? <==> Readable(old(files), dirs, name)
      ensures r.Some? ==> !removed
    {
      var current := ReadFile(name);
      match current {
        case NotExist => return false, None;
        case Unreadable => return false, Some(ReadFailed(name));
        case Data(content) =>
          if content == was {
            Remove(name);
            return true, None;
          }
          return false, None;
      }
    }

    /** The turn of a name of the base; `host` is what the loop started from. */
    method RetireTurn(base: Tree, result: Tree, name: Name, ghost host: Tree, ghost changed: set<Name>)
      returns (removed: bool, r: Option<SyncError>)
      requires Valid() && files == host - changed && (forall p | p in host :: Safe(p))
      requires name in base && name !in changed && changed <= base.Keys
      modifies `files
      ensures Valid() && files == host - (changed + (if removed then {name} else {}))
      ensures removed <==> Retired(base, result, host, name) && r.None?
      ensures r.Some? ==> !removed && name !in result && Safe(name) && !Readable(host, dirs, name)
      ensures r.None? ==> name in result || !Safe(name) || !PrefixFree(base.Keys) || Readable(host, dirs, name)
    {
      if name in result || !Safe(name) {
        return false, None;
      }
      removed, r := RetireOne(name, base[name]);
      if r.None? && PrefixFree(base.Keys) {
        StillReadable(base, host, changed, dirs, name);
      }
    }

    /** The first loop of Apply, over the names in any order. */
    method RetireDeleted(base: Tree, result: Tree) returns (changed: set<Name>, r: Option<SyncError>)
      requires Valid()
      modifies `files
      ensures Valid() && files == old(files) - changed
      ensures forall p | p in changed :: Retired(base, result, old(files), p)
      ensures r.None? ==> forall p | Retired(base, result, old(files), p) :: p in changed
      ensures r.Some? ==> exists p :: p in base && p !in result && Safe(p) && !Readable(old(files), dirs, p)
      ensures r.None? && PrefixFree(base.Keys) ==>
                forall p | p in base && p !in result && Safe(p) :: Readable(old(files), dirs, p)
    {
      changed := {};
      var left := base.Keys;
      while left != {}
        invariant Valid() && files == old(files) - changed
        invariant RetiredSoFar(base, result, old(files), changed, left) && ReadSoFar(base, result, old(files), dirs, left)
        decreases |left|
      {
        var name: Name :| name in left;
        var removed: bool;
        removed, r := RetireTurn(base, result, name, old(files), changed);
        if r.Some? {
          return;
        }
        RetiredNext(base, result, old(files), changed, left, name, removed);
        ReadNext(base, result, old(files), dirs, left, name);
        changed := changed + (if removed then {name} else {});
        left := left - {name};
      }
      return changed, None;
    }

    /** The second loop of Apply, over the names in any order. */
    method WriteChanged(base: Tree, result: Tree) returns (changed: set<Name>, r: Option<SyncError>)
      requires Valid() && forall p | p in result :: Safe(p)
      modifies this
      ensures Valid() && changed <= result.Keys
      ensures files == Overlaid(old(files), changed, result) && modes == Stamped(old(modes), changed)
      ensures forall p | p in changed :: Written(base, result, p)
      ensures r.None? ==> forall p | Written(base, result, p) :: p in changed
      ensures r.Some? ==> exists w, f :: Written(base, result, w) && f in files && (Above(f, w) || Above(w, f))
      ensures DirectoriesAfter(old(dirs), changed, dirs)
    {
      changed := {};
      OneMoreStamped(modes, {}, []);
      var left := result.Keys;
      while left != {}
        invariant left <= result.Keys && changed <= result.Keys && changed !! left && Valid()
        invariant files == Overlaid(old(files), changed, result) && modes == Stamped(old(modes), changed)
        invariant forall p | p in changed :: Written(base, result, p)
        invariant forall p | Written(base, result, p) :: p in changed || p in left
        invariant DirectoriesAfter(old(dirs), changed, dirs)
        decreases |left|
      {
        var name: Name :| name in left;
        left := left - {name};
        if name in base && base[name] == result[name] {
          continue;
        }
        ghost var before := dirs;
        r := Install(name, result[name]);
        if r.Some? {
          return;
        }
        OneMoreOverlaid(old(files), changed, result, name);
        OneMoreStamped(old(modes), changed, name);
        OneMoreInstalled(old(dirs), changed, before, name, dirs);
        changed := changed + {name};
      }
      return changed, None;
    }

    /** Apply: on success exactly the merge; after an error, the names in
        `changed` have their merged state and all others their own. */
    method Apply(base: Tree, result: Tree) returns (changed: set<Name>, r: Option<SyncError>)
      requires Valid()
      modifies this
      ensures Valid()
      ensures forall p :: At(files, p) == At(if p in changed then Merge(base, old(files), result) else old(files), p)
      ensures modes == Stamped(old(modes), changed * result.Keys)
      ensures r.None? ==> files == Merge(base, old(files), result)
      ensures r.None? ==> DirectoriesAfter(old(dirs), WrittenNames(base, result), dirs)
      ensures r.None? ==> changed == WrittenNames(base, result) + RetiredNames(base, old(files), result)
      ensures PrefixFree(base.Keys) ==> (r.None? <==> Ready(base, old(files), old(dirs), result))
      ensures old(files) == base ==> (r.None? <==> (forall p | p in result :: Safe(p)) && PrefixFree(result.Keys))
      ensures old(files) == base && r.None? ==> files == result
    {
      NoFileBelowAFile();
      if base == files {
        UnmovedHostBecomesResult(base, result, dirs);
      }
      if p: Name :| p in result && !Safe(p) {
        OneMoreStamped(modes, {}, []);
        return {}, Some(UnsafePath(p));
      }
      changed, r := ApplyChanges(base, result);
    }

    /** The two loops. */
    method ApplyChanges(base: Tree, result: Tree) returns (changed: set<Name>, r: Option<SyncError>)
      requires Valid() && forall p | p in result :: Safe(p)
      modifies this
      ensures Valid()
      ensures forall p :: At(files, p) == At(if p in changed then Merge(base, old(files), result) else old(files), p)
      ensures modes == Stamped(old(modes), changed * result.Keys)
      ensures r.None? ==> files == Merge(base, old(files), result)
      ensures r.None? ==> DirectoriesAfter(old(dirs), WrittenNames(base, result), dirs)
      ensures r.None? ==> changed == WrittenNames(base, result) + RetiredNames(base, old(files), result)
      ensures PrefixFree(base.Keys) ==> (r.None? <==> Ready(base, old(files), old(dirs), result))
    {
      ghost var host := files;
      var retired;
      retired, r := RetireDeleted(base, result);
      RetiredState(base, host, result, retired);
      if r.Some? {
        assert retired * result.Keys == {};
        OneMoreStamped(modes, {}, []);
        return retired, r;
      }
      var written;
      written, r := WriteChanged(base, result);
      WrittenState(base, host, result, retired, written);
      changed := retired + written;
      assert changed * result.Keys == written;
      if r.Some? {
        ConflictIsInTheMerge(base, host, result, retired, written);
      } else {
        assert written == WrittenNames(base, result);
        assert retired == RetiredNames(base, host, result);
        NoFileBelowAFile();
      }
    }

    lemma NoFileBelowAFile()
      requires Valid()
      ensures PrefixFree(files.Keys)
    {
    }
  }
}
