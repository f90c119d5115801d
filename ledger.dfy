/**
 * The project ledger of `scripts/setup-project.py`: a JSON log under the
 * storage directory, mapping each canonical project path to a record.  The
 * log file is abstracted to what a `json.load` of it yields: no file, a file
 * that fails to parse (the empty file the script itself creates is one), or
 * the parsed mapping.
 */
module Ledger {
  import opened Wrappers
  import opened Classifier

  /** One project's entry: `id`, `slug`, `project_type`, `created_on`, `used_on`. */
  datatype Record = Record(
    id: int,
    slug: string,
    projectType: Option<Kind>,
    createdOn: string,
    usedOn: seq<string>)

  /** What reading the log file gives. */
  datatype LogFile =
    | NoFile
    | Unparsable
    | Parsed(projects: map<string, Record>)

  /** The exceptions the readers of the log raise: `FileNotFoundError`, `JSONDecodeError`, `KeyError`. */
  datatype LedgerError = LogMissing | DecodeError | KeyError

  /** The record `get_default_project_log` builds for a first registration. */
  function FreshRecord(id: int, names: set<string>, slug: string, now: string): (r: Record)
    ensures r.id == id && r.slug == slug && r.createdOn == now
    ensures r.projectType == Classify(names)
    ensures r.usedOn == []
  {
    Record(id, slug, Classify(names), now, [])
  }

  /** `path` has an entry in the log (the last test of `check_if_cached`). */
  predicate Logged(file: LogFile, path: string)
  {
    file.Parsed? && path in file.projects
  }

  /**
   * The mapping a first registration of `path` writes: the parsed mapping
   * with the new entry added under id `len + 1`, or, when the log is missing
   * or fails to parse, a mapping holding the new entry alone with id 1.
   */
  function Registered(file: LogFile, path: string, names: set<string>, slug: string, now: string): (m: map<string, Record>)
    requires !Logged(file, path)
    ensures m.Keys == (if file.Parsed? then file.projects.Keys else {}) + {path}
    ensures |m| == (if file.Parsed? then |file.projects| else 0) + 1
    ensures m[path] == FreshRecord(|m|, names, slug, now)
    ensures file.Parsed? ==> forall p :: p in file.projects ==> m[p] == file.projects[p]
  {
    if file.Parsed? then
      file.projects[path := FreshRecord(|file.projects| + 1, names, slug, now)]
    else
      map[path := FreshRecord(1, names, slug, now)]
  }

  /** The mapping a later run for a logged `path` writes: one timestamp appended to its `used_on`. */
  function Touched(m: map<string, Record>, path: string, now: string): (m': map<string, Record>)
    requires path in m
    ensures m'.Keys == m.Keys
    ensures m'[path].usedOn == m[path].usedOn + [now]
    ensures m'[path].(usedOn := m[path].usedOn) == m[path]
    ensures forall p :: p in m && p != path ==> m'[p] == m[p]
  {
    m[path := m[path].(usedOn := m[path].usedOn + [now])]
  }

  /** The mapping `update_log_file_with_project` leaves in the log. */
  function UpdatedLog(file: LogFile, path: string, names: set<string>, slug: string, now: string): (m: map<string, Record>)
    ensures m.Keys == (if file.Parsed? then file.projects.Keys else {}) + {path}
    ensures Logged(file, path) ==> |m[path].usedOn| == |file.projects[path].usedOn| + 1
    ensures !Logged(file, path) ==> m[path].usedOn == []
    ensures file.Parsed? ==> forall p :: p in file.projects && p != path ==> m[p] == file.projects[p]
  {
    if Logged(file, path) then Touched(file.projects, path, now)
    else Registered(file, path, names, slug, now)
  }

  /** The slug the ledger holds for `path` once a run with `slug` has updated it. */
  function SlugAfterUpdate(file: LogFile, path: string, slug: string): string
  {
    if Logged(file, path) then file.projects[path].slug else slug
  }

  /** The slug is the one of the first registration and is never regenerated. */
  lemma SlugIsStable(file: LogFile, path: string, names: set<string>, slug: string, now: string)
    ensures CacheDirectoryName(Parsed(UpdatedLog(file, path, names, slug, now)), path) == Ok(SlugAfterUpdate(file, path, slug))
  {
  }

  /** `get_cache_directory_name`: the slug of `path`, or the exception the lookup raises. */
  function CacheDirectoryName(file: LogFile, path: string): (r: Result<string, LedgerError>)
    ensures r.Ok? <==> Logged(file, path)
    ensures r.Ok? ==> r.value == file.projects[path].slug
    ensures file.NoFile? ==> r == Err(LogMissing)
    ensures file.Unparsable? ==> r == Err(DecodeError)
    ensures file.Parsed? && path !in file.projects ==> r == Err(KeyError)
  {
    match file
    case NoFile => Err(LogMissing)
    case Unparsable => Err(DecodeError)
    case Parsed(projects) => if path in projects then Ok(projects[path].slug) else Err(KeyError)
  }

  /** `get_num_used`: how many later runs `path` has had, or the exception the lookup raises. */
  function NumUsed(file: LogFile, path: string): (r: Result<nat, LedgerError>)
    ensures r.Ok? <==> Logged(file, path)
    ensures r.Ok? ==> r.value == |file.projects[path].usedOn|
    ensures file.NoFile? ==> r == Err(LogMissing)
    ensures file.Unparsable? ==> r == Err(DecodeError)
    ensures file.Parsed? && path !in file.projects ==> r == Err(KeyError)
  {
    match file
    case NoFile => Err(LogMissing)
    case Unparsable => Err(DecodeError)
    case Parsed(projects) => if path in projects then Ok(|projects[path].usedOn|) else Err(KeyError)
  }

  /** The ids of a mapping's records. */
  function Ids(m: map<string, Record>): set<int>
  {
    set p | p in m :: m[p].id
  }

  /** The integers 1..n. */
  function Interval(n: nat): (s: set<int>)
    ensures forall i :: i in s <==> 1 <= i <= n
  {
    if n == 0 then {} else Interval(n - 1) + {n}
  }

  /** The ids are exactly 1..n, one per entry. */
  ghost predicate WellNumbered(m: map<string, Record>)
  {
    && Ids(m) == Interval(|m|)
    && forall p, q :: p in m && q in m && p != q ==> m[p].id != m[q].id
  }

  /** A log the script itself started: missing, unparsable, or with ids 1..n. */
  ghost predicate Numbered(file: LogFile)
  {
    file.Parsed? ==> WellNumbered(file.projects)
  }

  /**
   * First registration: the path becomes logged, its record is fresh (id one
   * past the old size, empty `used_on`, the classifier's kind, the given slug
   * and creation time), and every earlier entry is kept unchanged.
   */
  lemma RegisterNew(file: LogFile, path: string, names: set<string>, slug: string, now: string)
    requires !Logged(file, path)
    ensures var m := UpdatedLog(file, path, names, slug, now);
      && Logged(Parsed(m), path)
      && m[path].id == (if file.Parsed? then |file.projects| + 1 else 1)
      && m[path].usedOn == []
      && m[path].projectType == Classify(names)
      && m[path].slug == slug && m[path].createdOn == now
      && CacheDirectoryName(Parsed(m), path) == Ok(slug)
      && NumUsed(Parsed(m), path) == Ok(0)
      && (file.Parsed? ==> forall p :: p in file.projects ==> p in m && m[p] == file.projects[p])
  {
  }

  /** A missing or unparsable log is rewritten as a one-entry mapping with id 1. */
  lemma RegisterIntoEmpty(file: LogFile, path: string, names: set<string>, slug: string, now: string)
    requires !file.Parsed?
    ensures UpdatedLog(file, path, names, slug, now) == map[path := FreshRecord(1, names, slug, now)]
  {
    var m := UpdatedLog(file, path, names, slug, now);
    assert m.Keys == {path};
  }

  /**
   * A later run: `used_on` grows by exactly the one timestamp, at the end;
   * id, slug, kind and creation time stay; every other entry is unchanged;
   * so `get_num_used` goes up by one.
   */
  lemma TouchKnown(m: map<string, Record>, path: string, names: set<string>, slug: string, now: string)
    requires path in m
    ensures var m' := UpdatedLog(Parsed(m), path, names, slug, now);
      && m'.Keys == m.Keys
      && m'[path].usedOn == m[path].usedOn + [now]
      && m'[path].id == m[path].id && m'[path].slug == m[path].slug
      && m'[path].projectType == m[path].projectType && m'[path].createdOn == m[path].createdOn
      && (forall p :: p in m && p != path ==> m'[p] == m[p])
      && CacheDirectoryName(Parsed(m'), path) == CacheDirectoryName(Parsed(m), path)
      && NumUsed(Parsed(m'), path) == Ok(NumUsed(Parsed(m), path).value + 1)
  {
  }

  /** Adding an entry under a new key adds its id to the ids. */
  lemma IdsOfInsert(m: map<string, Record>, path: string, r: Record)
    requires path !in m
    ensures Ids(m[path := r]) == Ids(m) + {r.id}
  {
    var m' := m[path := r];
    forall i | i in Ids(m') ensures i in Ids(m) + {r.id} {
      var p :| p in m' && m'[p].id == i;
      if p != path { assert m[p].id == i; }
    }
    forall i | i in Ids(m) + {r.id} ensures i in Ids(m') {
      if i == r.id {
        assert m'[path].id == i;
      } else {
        var p :| p in m && m[p].id == i;
        assert m'[p].id == i;
      }
    }
  }

  /** Adding an entry with id n+1 under a new key to a mapping numbered 1..n numbers it 1..n+1. */
  lemma InsertKeepsNumbering(m: map<string, Record>, path: string, r: Record)
    requires WellNumbered(m) && path !in m && r.id == |m| + 1
    ensures WellNumbered(m[path := r])
  {
    var m' := m[path := r];
    IdsOfInsert(m, path, r);
    assert |m'| == |m| + 1;
    assert Ids(m') == Interval(|m'|);
    forall p, q | p in m' && q in m' && p != q ensures m'[p].id != m'[q].id {
      if p == path {
        assert q in m && m[q].id in Ids(m);
      } else if q == path {
        assert p in m && m[p].id in Ids(m);
      }
    }
  }

  /** Registering into a log numbered 1..n numbers it 1..n+1. */
  lemma RegisterKeepsNumbering(file: LogFile, path: string, names: set<string>, slug: string, now: string)
    requires Numbered(file) && !Logged(file, path)
    ensures WellNumbered(Registered(file, path, names, slug, now))
  {
    var m0: map<string, Record> := if file.Parsed? then file.projects else map[];
    var r := FreshRecord(|m0| + 1, names, slug, now);
    assert Registered(file, path, names, slug, now) == m0[path := r];
    InsertKeepsNumbering(m0, path, r);
  }

  /** Touching changes no id, so it keeps the numbering. */
  lemma TouchKeepsNumbering(m: map<string, Record>, path: string, now: string)
    requires WellNumbered(m) && path in m
    ensures WellNumbered(Touched(m, path, now))
  {
    var m' := Touched(m, path, now);
    assert Ids(m') == Ids(m) by {
      forall i | i in Ids(m') ensures i in Ids(m) {
        var p :| p in m' && m'[p].id == i;
        assert m[p].id == i;
      }
      forall i | i in Ids(m) ensures i in Ids(m') {
        var p :| p in m && m[p].id == i;
        assert m'[p].id == i;
      }
    }
  }

  /** One invocation of the script on a project: its path, listing, fresh slug and clock reading. */
  datatype Invocation = Invocation(path: string, names: set<string>, slug: string, now: string)

  /** The log after a sequence of invocations, each rewriting it with `UpdatedLog`. */
  function Replay(file: LogFile, runs: seq<Invocation>): LogFile
    decreases |runs|
  {
    if runs == [] then file
    else
      var r := runs[0];
      Replay(Parsed(UpdatedLog(file, r.path, r.names, r.slug, r.now)), runs[1..])
  }

  /** In a ledger built only by the script, the ids are exactly 1..n and pairwise distinct. */
  lemma {:induction false} ReplayKeepsNumbering(file: LogFile, runs: seq<Invocation>)
    requires Numbered(file)
    ensures Numbered(Replay(file, runs))
    decreases |runs|
  {
    if runs != [] {
      var r := runs[0];
      if Logged(file, r.path) {
        TouchKeepsNumbering(file.projects, r.path, r.now);
      } else {
        RegisterKeepsNumbering(file, r.path, r.names, r.slug, r.now);
      }
      ReplayKeepsNumbering(Parsed(UpdatedLog(file, r.path, r.names, r.slug, r.now)), runs[1..]);
    }
  }

  /**
   * Two runs on the same project: the second keeps id, slug and creation
   * time of the first and records exactly one use.
   */
  lemma SecondRunOnlyAppends(file: LogFile, path: string, names: set<string>, slug1: string, now1: string, slug2: string, now2: string)
    requires !Logged(file, path)
    ensures var m1 := UpdatedLog(file, path, names, slug1, now1);
      var m2 := UpdatedLog(Parsed(m1), path, names, slug2, now2);
      && m2[path] == m1[path].(usedOn := [now2])
      && NumUsed(Parsed(m2), path) == Ok(1)
  {
  }

  /**
   * The storage directory and the log file.  `check_if_cached` and
   * `update_log_file_with_project` act on them in place.
   */
  class ProjectLog {
    var storageExists: bool
    var file: LogFile

    /** There is no log file without the storage directory that holds it. */
    ghost predicate Valid()
      reads this
    {
      !storageExists ==> file == NoFile
    }

    /** The state of a machine where the script has never run. */
    constructor ()
      ensures Valid() && !storageExists && file == NoFile
    {
      storageExists := false;
      file := NoFile;
    }

    /** What `check_if_cached` returns in the current state. */
    function IsCached(path: string): bool
      reads this
    {
      storageExists && Logged(file, path)
    }

    /**
     * `check_if_cached`: true iff the storage directory exists and the log
     * parses and holds `path`.  It creates the storage directory when that is
     * missing, and an empty (so unparsable) log file when that is missing.
     */
    method CheckIfCached(path: string) returns (cached: bool)
      requires Valid()
      modifies this
      ensures Valid() && storageExists
      ensures cached == old(IsCached(path))
      ensures cached == Logged(old(file), path)
      ensures file == (if old(storageExists) && old(file) == NoFile then Unparsable else old(file))
    {
      if !storageExists {
        storageExists := true;
        return false;
      }
      if file == NoFile {
        file := Unparsable;
        return false;
      }
      match file
      case Unparsable =>
        return false;
      case Parsed(projects) =>
        return path in projects;
    }

    /**
     * `update_log_file_with_project`: a first run for `path` registers it
     * with a fresh record; a later run appends `now` to its `used_on`.  The
     * slug (from `uuid4`) and the time (from `datetime.now`) are parameters.
     */
    method UpdateLogFileWithProject(path: string, names: set<string>, slug: string, now: string)
      requires Valid()
      modifies this
      ensures Valid() && storageExists
      ensures file == Parsed(UpdatedLog(old(file), path, names, slug, now))
      ensures Numbered(old(file)) ==> Numbered(file)
      ensures CacheDirectoryName(file, path) == Ok(SlugAfterUpdate(old(file), path, slug))
    {
      ghost var before := file;
      if !storageExists {
        storageExists := true;
      }
      var cached := CheckIfCached(path);
      if !cached {
        if file.Parsed? {
          var projects := file.projects;
          var newId := |projects| + 1;
          file := Parsed(projects[path := FreshRecord(newId, names, slug, now)]);
        } else {
          file := Parsed(map[path := FreshRecord(1, names, slug, now)]);
        }
        if Numbered(before) {
          RegisterKeepsNumbering(before, path, names, slug, now);
        }
      } else {
        var projects := file.projects;
        var entry := projects[path];
        file := Parsed(projects[path := entry.(usedOn := entry.usedOn + [now])]);
        if Numbered(before) {
          TouchKeepsNumbering(before.projects, path, now);
        }
      }
    }
  }
}
