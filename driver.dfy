/**
 * The command driver of `scripts/setup-project.py`: the `__main__` block
 * that classifies the directory and routes to `generate_project` or
 * `build_project`.  The external tools (`poetry`, `yarn`, `cargo`) are not
 * run: the tree an installer leaves and whether the strict `poetry install`
 * succeeded are parameters.
 */
module Driver {
  import opened Wrappers
  import opened Classifier
  import opened Ledger
  import opened Relocator

  /** Where the command line sends a run. */
  datatype Route = Exit(status: int) | Build | Generate

  /**
   * The dispatch rule: exit with status 1 when no kind is found; build when
   * the kind is rust or `--build` is given without `--generate`; generate in
   * every other case.
   */
  function Dispatch(kind: Option<Kind>, generate: bool, build: bool): (r: Route)
    ensures r == Exit(1) <==> kind.None?
    ensures r == Build <==> kind.Some? && (kind.value == Rust || (build && !generate))
    ensures r == Generate <==> kind.Some? && kind.value != Rust && (generate || !build)
  {
    if kind.None? then Exit(1)
    else if kind.value == Rust || (build && !generate) then Build
    else Generate
  }

  /** With no flags, a rust project builds and every other kind generates. */
  lemma DefaultRoute(kind: Kind)
    ensures Dispatch(Some(kind), false, false) == (if kind == Rust then Build else Generate)
  {
  }

  /** How a run ends. */
  datatype Outcome =
    | Exited(status: int)                          // no kind found
    | Built                                        // ledger updated; the build itself is not modelled
    | InstallFailed                                // `poetry install` failed: `check_call` raised
    | Generated(relocation: Result<(), FsError>)   // install done or ignored; the relocation's result

  /** The tree the relocation sees: the one the installer leaves, for the kinds that run one. */
  function TreeAfterInstall(kind: Kind, before: map<string, Entry>, installed: map<string, Entry>): map<string, Entry>
  {
    if kind == Python || kind == JavaScript then installed else before
  }

  /**
   * `generate_project`: update the ledger, look up the slug, run the
   * installer (a failing `poetry install` aborts; `yarn install` is ignored),
   * then relocate the dependency directory.  The installers are not run:
   * `installed` is the tree they leave and `installOk` whether `poetry
   * install` succeeded.
   */
  method GenerateProject(log: ProjectLog, tree: Tree, path: string, kind: Kind, names: set<string>,
                         storage: string, slug: string, now: string,
                         installed: map<string, Entry>, installOk: bool)
      returns (o: Outcome)
    requires log.Valid()
    modifies log, tree
    ensures log.Valid() && log.file == Parsed(UpdatedLog(old(log.file), path, names, slug, now))
    ensures kind == Python && !installOk ==> o == InstallFailed && tree.entries == installed
    ensures !(kind == Python && !installOk) ==>
      var before := TreeAfterInstall(kind, old(tree.entries), installed);
      match Relocated(before, path, storage, SlugAfterUpdate(old(log.file), path, slug), names)
      case Ok(fs) => o == Generated(Ok(())) && tree.entries == fs
      case Err(e) => o == Generated(Err(e)) && tree.entries == before
  {
    log.UpdateLogFileWithProject(path, names, slug, now);
    var directory := CacheDirectoryName(log.file, path);
    if kind == Python || kind == JavaScript {
      tree.entries := installed;
    }
    if kind == Python && !installOk {
      return InstallFailed;
    }
    var r := tree.CreateSymlink(path, storage, directory.value, names);
    return Generated(r);
  }

  /** `build_project`: the ledger update it starts with; the copying and tool runs are not modelled. */
  method BuildProject(log: ProjectLog, path: string, names: set<string>, slug: string, now: string)
      returns (o: Outcome)
    requires log.Valid()
    modifies log
    ensures log.Valid() && log.file == Parsed(UpdatedLog(old(log.file), path, names, slug, now))
    ensures o == Built
  {
    log.UpdateLogFileWithProject(path, names, slug, now);
    return Built;
  }

  /**
   * The `__main__` block, from the parsed flags on: an unclassifiable
   * directory exits with status 1 before anything is written; otherwise the
   * dispatch rule picks the build or the generate path.
   */
  method Run(log: ProjectLog, tree: Tree, directory: string, names: set<string>, generate: bool, build: bool,
             storage: string, slug: string, now: string,
             installed: map<string, Entry>, installOk: bool)
      returns (o: Outcome)
    requires log.Valid()
    modifies log, tree
    ensures Classify(names).None? ==>
      o == Exited(1) && log.storageExists == old(log.storageExists) && log.file == old(log.file) && tree.entries == old(tree.entries)
    ensures Classify(names).Some? ==> log.Valid() && log.file == Parsed(UpdatedLog(old(log.file), directory, names, slug, now))
    ensures Dispatch(Classify(names), generate, build) == Build ==> o == Built
    ensures Dispatch(Classify(names), generate, build) == Generate ==>
      var before := TreeAfterInstall(Classify(names).value, old(tree.entries), installed);
      if Classify(names) == Some(Python) && !installOk then o == InstallFailed && tree.entries == installed
      else match Relocated(before, directory, storage, SlugAfterUpdate(old(log.file), directory, slug), names)
        case Ok(fs) => o == Generated(Ok(())) && tree.entries == fs
        case Err(e) => o == Generated(Err(e)) && tree.entries == before
  {
    var kind := GuessProjectType(names);
    if kind.None? {
      return Exited(1);
    }
    if kind.value == Rust || (build && !generate) {
      o := BuildProject(log, directory, names, slug, now);
    } else {
      o := GenerateProject(log, tree, directory, kind.value, names, storage, slug, now, installed, installOk);
    }
  }

  /**
   * Two `generate` runs on a fresh python project: the first registers it
   * with id 1 and links the `.venv` that `poetry install` created into the
   * storage directory; the second only records a use and leaves the tree as
   * the installer left it.
   */
  method RepeatedGenerate(installOk: bool)
  {
    var names := {"pyproject.toml", "poetry.lock", "src"};
    var venv := Join("/home/u/app", ".venv");
    var stored := Join(Join("/home/u/.ephemeral", "slug-1"), ".venv");
    var log := new ProjectLog();
    var tree := new Tree(map[]);
    PythonTakesPrecedence(names);

    var o1 := Run(log, tree, "/home/u/app", names, false, false, "/home/u/.ephemeral", "slug-1", "t1", map[venv := Dir], true);
    RegisterIntoEmpty(NoFile, "/home/u/app", names, "slug-1", "t1");
    assert log.file.projects["/home/u/app"] == Record(1, "slug-1", Some(Python), "t1", []);
    RelocateMovesAndLinks(map[venv := Dir], "/home/u/app", "/home/u/.ephemeral", "slug-1", names);
    assert o1 == Generated(Ok(()));
    assert tree.entries[venv] == Link(stored) && tree.entries[stored] == Dir;

    var linked := tree.entries;
    var o2 := Run(log, tree, "/home/u/app", names, true, false, "/home/u/.ephemeral", "slug-2", "t2", linked, installOk);
    assert log.file.projects["/home/u/app"] == Record(1, "slug-1", Some(Python), "t1", ["t2"]);
    if installOk {
      assert o2 == Generated(Ok(()));
    } else {
      assert o2 == InstallFailed;
    }
    assert tree.entries == linked;
  }

  /**
   * A javascript checkout without `node_modules`: `yarn install` creates it,
   * and the first run moves it into the storage directory and links it back.
   */
  method FirstJavaScriptGenerate()
  {
    var names := {"package.json", "yarn.lock"};
    var modules := Join("/home/u/site", "node_modules");
    var stored := Join(Join("/home/u/.ephemeral", "k"), "node_modules");
    var log := new ProjectLog();
    var tree := new Tree(map[]);
    ClassifyRule(names);
    RelocateMovesAndLinks(map[modules := Dir], "/home/u/site", "/home/u/.ephemeral", "k", names);
    var o := Run(log, tree, "/home/u/site", names, false, false, "/home/u/.ephemeral", "k", "t", map[modules := Dir], false);
    assert o == Generated(Ok(()));
    assert tree.entries[modules] == Link(stored);
  }

  /** A rust project builds even without flags; an empty directory exits with 1 and writes nothing. */
  method RustAndEmptyDirectory()
  {
    var log := new ProjectLog();
    var tree := new Tree(map[]);
    ClassifyRule({"Cargo.toml"});
    var o := Run(log, tree, "/home/u/tool", {"Cargo.toml"}, false, false, "/home/u/.ephemeral", "s", "t", map[], true);
    assert o == Built && log.file.Parsed?;

    var blank := new ProjectLog();
    ClassifyRule({});
    o := Run(blank, tree, "/home/u/empty", {}, true, true, "/home/u/.ephemeral", "s", "t", map[], true);
    assert o == Exited(1) && blank.file == NoFile && !blank.storageExists;
  }
}
