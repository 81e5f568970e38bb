/**
 * The image cache: objects are kept in files under a cache directory, and an index file maps each
 * name to the signature the object was stored under and the file that holds it. The file system is
 * a `FileStore`: pickled objects by path, and index files by path.
 */
module PickleJar {
  import opened Wrappers
  import opened Strings
  import opened Errors

  /** The signature tuple an object is stored under; only equality of signatures matters. */
  type Sig = seq<string>

  /** A pickled object. */
  type Image = seq<int>

  datatype CacheEntry = CacheEntry(sig: Sig, loc: string)

  type Index = map<string, CacheEntry>

  /** `os.path.join(a, b)`: an absolute `b` replaces `a`; otherwise one '/' separates them. */
  function PathJoin(a: string, b: string): (r: string)
    ensures StartsWith(b, "/") ==> r == b
    ensures !StartsWith(b, "/") ==> EndsWith(r, b) && StartsWith(r, a)
  {
    if StartsWith(b, "/") then b
    else if a == [] || a[|a| - 1] == '/' then
      assert (a + b)[..|a|] == a && (a + b)[|a|..] == b;
      a + b
    else
      assert (a + "/" + b)[..|a|] == a && (a + "/" + b)[|a| + 1..] == b;
      a + "/" + b
  }

  /** Where the index of a cache directory lives (`cache_directory_index`). */
  function IndexPath(dir: Option<string>): (r: Option<string>)
    ensures r.Some? <==> dir.Some?
  {
    if dir.Some? then Some(PathJoin(dir.value, "index")) else None
  }

  /** Joining a relative directory twice does not give the joined path back. */
  lemma RelativeJoinTwice()
    ensures PathJoin("cache", PathJoin("cache", "u1")) == "cache/cache/u1"
    ensures PathJoin("cache", "u1") == "cache/u1"
  {
    assert "u1"[..1] == ['u'] && "cache"[4] != '/';
    assert PathJoin("cache", "u1") == "cache/u1";
    assert "cache/u1"[..1] != "/";
  }

  /**
   * The file system under the cache: pickled objects and index files, each by path. The two maps
   * share one path space, yet a jar never puts both kinds at one path: images are written at the
   * directory joined with a fresh `uuid4` text, and the index only at the directory joined with
   * "index", which no `uuid4` text is. `Exists` and `Remove` treat a path in either map as the
   * one file there.
   */
  class FileStore {
    var objects: map<string, Image>
    var indexes: map<string, Index>

    constructor (objects0: map<string, Image>, indexes0: map<string, Index>)
      ensures objects == objects0 && indexes == indexes0
    {
      objects := objects0;
      indexes := indexes0;
    }

    predicate Exists(path: string)
      reads this
    {
      path in objects || path in indexes
    }

    /** `os.remove`: FileNotFoundError when nothing is at `path`. */
    method Remove(path: string) returns (r: Option<PyError>)
      modifies this
      ensures old(Exists(path)) ==> r.None? && objects == old(objects) - {path} && indexes == old(indexes) - {path}
      ensures !old(Exists(path)) ==> r == Some(FileNotFoundError) && objects == old(objects) && indexes == old(indexes)
    {
      if Exists(path) {
        objects := objects - {path};
        indexes := indexes - {path};
        r := None;
      } else {
        r := Some(FileNotFoundError);
      }
    }
  }

  /** `_PickleJar`: a cache bound to one directory, or to none. */
  class Jar {
    const cacheDirectory: Option<string>
    const cacheDirectoryIndex: Option<string>
    var cache: Index
    const store: FileStore

    ghost predicate Valid()
      reads this
    {
      && cacheDirectoryIndex == IndexPath(cacheDirectory)
      && (cacheDirectory.None? ==> cache == map[])
    }

    /**
     * A jar for `dir`: it starts from the index already stored under `dir`, or from an empty index,
     * which it then writes out.
     */
    constructor (dir: Option<string>, store: FileStore)
      modifies store
      ensures Valid()
      ensures this.cacheDirectory == dir && this.store == store
      ensures dir.Some? && IndexPath(dir).value in old(store.indexes) ==>
        cache == old(store.indexes)[IndexPath(dir).value] && store.indexes == old(store.indexes)
      ensures !(dir.Some? && IndexPath(dir).value in old(store.indexes)) ==> cache == map[]
      ensures dir.Some? && IndexPath(dir).value !in old(store.indexes) ==>
        store.indexes == old(store.indexes)[IndexPath(dir).value := map[]]
      ensures dir.None? ==> store.indexes == old(store.indexes)
      ensures store.objects == old(store.objects)
    {
      cacheDirectory := dir;
      cacheDirectoryIndex := IndexPath(dir);
      this.store := store;
      if dir.Some? && IndexPath(dir).value in store.indexes {
        cache := store.indexes[IndexPath(dir).value];
      } else {
        cache := map[];
        if dir.Some? {
          store.indexes := store.indexes[IndexPath(dir).value := map[]];
        }
      }
    }

    /** `_update`: write the index out, when there is a cache directory. */
    method Update()
      requires Valid()
      modifies store
      ensures cacheDirectoryIndex.Some? ==> store.indexes == old(store.indexes)[cacheDirectoryIndex.value := cache]
      ensures cacheDirectoryIndex.None? ==> store.indexes == old(store.indexes)
      ensures store.objects == old(store.objects)
    {
      if cacheDirectoryIndex.Some? {
        store.indexes := store.indexes[cacheDirectoryIndex.value := cache];
      }
    }

    /**
     * `add(name, sig, obj)` with `uid` standing for `str(uuid4())`. Without a cache directory
     * nothing happens. Otherwise an earlier image of `name` is removed first; its path is the
     * directory joined once more with the stored location, which is the stored location itself
     * only when that location is absolute.
     */
    method Add(name: string, sig: Sig, obj: Image, uid: string) returns (err: Option<PyError>)
      requires Valid()
      modifies this, store
      ensures Valid()
      ensures cacheDirectory.None? ==>
        (err.None? && cache == old(cache)
         && store.objects == old(store.objects) && store.indexes == old(store.indexes))
      ensures cacheDirectory.Some? ==>
        var stale := if name in old(cache) then Some(PathJoin(cacheDirectory.value, old(cache)[name].loc)) else None;
        Replaced(old(cache), old(store.objects), old(store.indexes), name, sig, obj, uid, stale, err)
    {
      err := None;
      if cacheDirectory.Some? {
        var stale := if name in cache then Some(PathJoin(cacheDirectory.value, cache[name].loc)) else None;
        err := Replace(name, sig, obj, uid, stale);
      }
    }

    /** `add` as evidently intended: the earlier image is removed at its stored location. */
    method AddCorrected(name: string, sig: Sig, obj: Image, uid: string) returns (err: Option<PyError>)
      requires Valid()
      modifies this, store
      ensures Valid()
      ensures cacheDirectory.None? ==>
        (err.None? && cache == old(cache)
         && store.objects == old(store.objects) && store.indexes == old(store.indexes))
      ensures cacheDirectory.Some? ==>
        var stale := if name in old(cache) then Some(old(cache)[name].loc) else None;
        Replaced(old(cache), old(store.objects), old(store.indexes), name, sig, obj, uid, stale, err)
    {
      err := None;
      if cacheDirectory.Some? {
        var stale := if name in cache then Some(cache[name].loc) else None;
        err := Replace(name, sig, obj, uid, stale);
      }
    }

    /**
     * The state after storing `obj` under `name` once the file at `stale`, if any, is removed: a
     * missing stale file is FileNotFoundError and changes nothing; otherwise the file is gone, the
     * object is at the directory joined with `uid`, and the index written out is the new one.
     */
    ghost predicate Replaced(cache0: Index, objects0: map<string, Image>, indexes0: map<string, Index>,
                             name: string, sig: Sig, obj: Image, uid: string, stale: Option<string>,
                             err: Option<PyError>)
      requires cacheDirectory.Some? && Valid()
      reads this, store
    {
      var gone := if stale.Some? then {stale.value} else {};
      var fname := PathJoin(cacheDirectory.value, uid);
      if stale.Some? && !(stale.value in objects0 || stale.value in indexes0) then
        && err == Some(FileNotFoundError)
        && cache == cache0 && store.objects == objects0 && store.indexes == indexes0
      else
        && err.None?
        && cache == cache0[name := CacheEntry(sig, fname)]
        && store.objects == (objects0 - gone)[fname := obj]
        && store.indexes == (indexes0 - gone)[cacheDirectoryIndex.value := cache]
    }

    /** Remove `stale`, then pickle `obj` to a new file and record it under `name`. */
    method Replace(name: string, sig: Sig, obj: Image, uid: string, stale: Option<string>)
      returns (err: Option<PyError>)
      requires Valid() && cacheDirectory.Some?
      modifies this, store
      ensures Valid()
      ensures Replaced(old(cache), old(store.objects), old(store.indexes), name, sig, obj, uid, stale, err)
    {
      err := None;
      if stale.Some? {
        err := store.Remove(stale.value);
      }
      if err.None? {
        var fname := PathJoin(cacheDirectory.value, uid);
        store.objects := store.objects[fname := obj];
        cache := cache[name := CacheEntry(sig, fname)];
        Update();
      }
    }

    /**
     * `get(name, sig)`: None for a name never added; None for a signature that differs, and the
     * entry is dropped; otherwise the stored object, read from its location.
     */
    method Get(name: string, sig: Sig) returns (r: Result<Option<Image>, PyError>)
      requires Valid()
      modifies this, store
      ensures Valid()
      ensures name !in old(cache) ==> r == Ok(None) && cache == old(cache) && store.indexes == old(store.indexes)
      ensures name in old(cache) && old(cache)[name].sig != sig ==>
        && r == Ok(None) && cache == old(cache) - {name}
        && (cacheDirectoryIndex.Some? ==> store.indexes == old(store.indexes)[cacheDirectoryIndex.value := cache])
        && (cacheDirectoryIndex.None? ==> store.indexes == old(store.indexes))
      ensures name in old(cache) && old(cache)[name].sig == sig ==>
        cache == old(cache) && store.indexes == old(store.indexes)
        && (old(cache)[name].loc in store.objects ==> r == Ok(Some(store.objects[old(cache)[name].loc])))
        && (old(cache)[name].loc !in store.objects ==> r == Err(FileNotFoundError))
      ensures store.objects == old(store.objects)
    {
      if name !in cache {
        return Ok(None);
      }
      if cache[name].sig != sig {
        cache := cache - {name};
        Update();
        return Ok(None);
      }
      var loc := cache[name].loc;
      if loc in store.objects {
        r := Ok(Some(store.objects[loc]));
      } else {
        r := Err(FileNotFoundError);
      }
    }

    /**
     * `clear`: with a cache directory, the stored index must exist (else AssertionError); it is
     * reloaded, every file it names is removed, and an empty index is written. The jar's index is
     * empty afterwards in every case.
     */
    method Clear() returns (err: Option<PyError>)
      requires Valid()
      modifies this, store
      ensures Valid()
      ensures err.None? ==> cache == map[]
      ensures cacheDirectory.None? ==>
        (err.None? && store.objects == old(store.objects) && store.indexes == old(store.indexes))
      ensures cacheDirectory.Some? && cacheDirectoryIndex.value !in old(store.indexes) ==>
        (&& err == Some(AssertionError) && cache == old(cache)
         && store.objects == old(store.objects) && store.indexes == old(store.indexes))
      ensures cacheDirectory.Some? && cacheDirectoryIndex.value in old(store.indexes) ==>
        var locs := set n | n in old(store.indexes)[cacheDirectoryIndex.value] :: old(store.indexes)[cacheDirectoryIndex.value][n].loc;
        && err.None?
        && store.objects == old(store.objects) - locs
        && store.indexes == (old(store.indexes) - locs)[cacheDirectoryIndex.value := map[]]
    {
      err := None;
      if cacheDirectory.Some? {
        var idx := cacheDirectoryIndex.value;
        if idx !in store.indexes {
          return Some(AssertionError);
        }
        var loaded := store.indexes[idx];
        cache := loaded;
        ghost var locs := set n | n in loaded :: loaded[n].loc;
        var pending := loaded.Keys;
        ghost var removed: set<string> := {};
        while pending != {}
          invariant pending <= loaded.Keys
          invariant forall n :: n in loaded.Keys - pending ==> loaded[n].loc in removed
          invariant forall l :: l in removed ==> exists n :: n in loaded.Keys - pending && loaded[n].loc == l
          invariant store.objects == old(store.objects) - removed
          invariant store.indexes == old(store.indexes) - removed
          decreases pending
        {
          var n :| n in pending;
          var loc := loaded[n].loc;
          if store.Exists(loc) {
            var _ := store.Remove(loc);
          }
          pending := pending - {n};
          removed := removed + {loc};
        }
        assert loaded.Keys - pending == loaded.Keys;
        forall l
          ensures l in removed <==> l in locs
        {
          if l in locs {
            var n :| n in loaded && loaded[n].loc == l;
          }
        }
        assert removed == locs;
        cache := map[];
        Update();
      }
      cache := map[];
    }
  }

  /** `_PickleJarFactory`: the one jar in use, built on demand for the current cache directory. */
  class Factory {
    var instance: Option<Jar>
    var cacheDirectory: Option<string>
    const store: FileStore

    ghost predicate Valid()
      reads this, if instance.Some? then {instance.value} else {}
    {
      instance.Some? ==> instance.value.Valid() && instance.value.store == store
    }

    /** The factory starts with no jar and the `.cache` directory under `home`. */
    constructor (home: string, store: FileStore)
      ensures Valid() && instance.None? && this.store == store
      ensures cacheDirectory == Some(PathJoin(home, ".cache"))
    {
      instance := None;
      cacheDirectory := Some(PathJoin(home, ".cache"));
      this.store := store;
    }

    /** The `picklejar` property: the current jar, built for the current directory when there is none. */
    method Picklejar() returns (j: Jar)
      requires Valid()
      modifies this, store
      ensures Valid()
      ensures instance == Some(j)
      ensures old(instance).Some? ==> j == old(instance).value && store.indexes == old(store.indexes)
      ensures old(instance).None? ==> fresh(j) && j.cacheDirectory == cacheDirectory
      ensures old(instance).None? && cacheDirectory.Some? && IndexPath(cacheDirectory).value in old(store.indexes) ==>
        j.cache == old(store.indexes)[IndexPath(cacheDirectory).value] && store.indexes == old(store.indexes)
      ensures old(instance).None? && !(cacheDirectory.Some? && IndexPath(cacheDirectory).value in old(store.indexes)) ==>
        j.cache == map[]
      ensures old(instance).None? && cacheDirectory.Some? && IndexPath(cacheDirectory).value !in old(store.indexes) ==>
        store.indexes == old(store.indexes)[IndexPath(cacheDirectory).value := map[]]
      ensures old(instance).None? && cacheDirectory.None? ==> store.indexes == old(store.indexes)
      ensures cacheDirectory == old(cacheDirectory) && store.objects == old(store.objects)
    {
      if instance.None? {
        var jar := new Jar(cacheDirectory, store);
        instance := Some(jar);
      }
      j := instance.value;
    }

    /** The `cache_directory` setter: the jar for the old directory is dropped. */
    method SetCacheDirectory(path: Option<string>)
      modifies this
      ensures cacheDirectory == path && instance.None?
      ensures Valid()
    {
      cacheDirectory := path;
      instance := None;
    }

    /** The `cache_directory_index` property. */
    function CacheDirectoryIndex(): (r: Option<string>)
      reads this
      ensures r.Some? <==> cacheDirectory.Some?
    {
      IndexPath(cacheDirectory)
    }

    /**
     * `clear`: the current jar, if any, is cleared, then dropped. Without a jar nothing is stored
     * or removed; with one, the store changes exactly as the jar's own `clear` says.
     */
    method Clear() returns (err: Option<PyError>)
      requires Valid()
      modifies this, store, if instance.Some? then {instance.value} else {}
      ensures err.None? ==> instance.None?
      ensures err.Some? ==> instance == old(instance)
      ensures Valid()
      ensures cacheDirectory == old(cacheDirectory)
      ensures old(instance).None? ==>
        err.None? && store.objects == old(store.objects) && store.indexes == old(store.indexes)
      ensures old(instance).Some? && old(instance).value.cacheDirectory.None? ==>
        err.None? && store.objects == old(store.objects) && store.indexes == old(store.indexes)
      ensures old(instance).Some? && old(instance).value.cacheDirectory.Some? ==>
        var idx := old(instance).value.cacheDirectoryIndex.value;
        (idx !in old(store.indexes) ==>
          && err == Some(AssertionError) && old(instance).value.cache == old(instance.value.cache)
          && store.objects == old(store.objects) && store.indexes == old(store.indexes))
        && (idx in old(store.indexes) ==>
          var locs := set n | n in old(store.indexes)[idx] :: old(store.indexes)[idx][n].loc;
          && err.None?
          && old(instance).value.cache == map[]
          && store.objects == old(store.objects) - locs
          && store.indexes == (old(store.indexes) - locs)[idx := map[]])
    {
      err := None;
      if instance.Some? {
        err := instance.value.Clear();
      }
      if err.None? {
        instance := None;
      }
    }
  }

  /** Adding and then getting with the stored signature gives the object back. */
  method AddThenGet(jar: Jar, name: string, sig: Sig, obj: Image, uid: string)
    returns (got: Result<Option<Image>, PyError>)
    requires jar.Valid() && jar.cacheDirectory.Some?
    requires name !in jar.cache
    modifies jar, jar.store
    ensures got == Ok(Some(obj))
  {
    var err := jar.Add(name, sig, obj, uid);
    got := jar.Get(name, sig);
  }

  /** Without a cache directory nothing is ever stored, so nothing is ever found. */
  method AddThenGetWithoutDirectory(jar: Jar, name: string, sig: Sig, obj: Image, uid: string)
    returns (got: Result<Option<Image>, PyError>)
    requires jar.Valid() && jar.cacheDirectory.None?
    modifies jar, jar.store
    ensures got == Ok(None)
  {
    var err := jar.Add(name, sig, obj, uid);
    got := jar.Get(name, sig);
  }

  /**
   * With the relative cache directory "cache", adding the same name twice fails: the first image
   * is at "cache/u1", but the second add removes "cache/cache/u1".
   */
  method ReAddWithRelativeDirectory() returns (err: Option<PyError>)
    ensures err == Some(FileNotFoundError)
  {
    var store := new FileStore(map[], map[]);
    var jar := new Jar(Some("cache"), store);
    var first := jar.Add("x", [], [1], "u1");
    RelativeJoinTwice();
    assert |"cache/cache/u1"| != |"cache/u1"| && |"cache/cache/u1"| != |PathJoin("cache", "index")|;
    err := jar.Add("x", [], [2], "u2");
  }

  /** The corrected add replaces the first image in the same situation. */
  method ReAddWithRelativeDirectoryCorrected() returns (err: Option<PyError>, got: Result<Option<Image>, PyError>)
    ensures err.None? && got == Ok(Some([2]))
  {
    var store := new FileStore(map[], map[]);
    var jar := new Jar(Some("cache"), store);
    var first := jar.AddCorrected("x", [], [1], "u1");
    err := jar.AddCorrected("x", [], [2], "u2");
    got := jar.Get("x", []);
  }
}
