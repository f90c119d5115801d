/**
 * The cache relocator of `scripts/setup-project.py` (`create_symlink`): the
 * project's dependency directory is moved into the storage directory, under
 * the project's slug, and a symbolic link to it is left in its place.
 *
 * The filesystem is a map from full path to entry.  A directory is one entry:
 * its contents are not tracked, and moving it moves it whole.
 */
module Relocator {
  import opened Wrappers
  import opened Classifier

  /** A filesystem entry: a directory, or a symbolic link holding its target path. */
  datatype Entry = Dir | Link(target: string)

  /** The exceptions `shutil.move` and `os.symlink` raise here. */
  datatype FsError =
    | FileNotFound       // the directory to move does not exist
    | FileExists         // something already occupies the path to create
    | DestinationExists  // `shutil.Error`: the path inside the destination directory is taken

  /** `a / b` on paths. */
  function Join(dir: string, name: string): string
  {
    dir + "/" + name
  }

  /** The dependency directory the script manages for a project of kind `kind`. */
  function ManagedName(kind: Option<Kind>): (name: string)
    ensures name == ".venv" <==> kind == Some(Python)
    ensures name == "node_modules" <==> kind != Some(Python)
  {
    if kind == Some(Python) then ".venv" else "node_modules"
  }

  /**
   * `shutil.move(src, dst)` where `base` is the last component of `src`: the
   * new tree and the path the entry ended up at.  When `dst` is an existing
   * directory the entry goes inside it, as `dst/base`, unless that is taken
   * (checked before `src` is looked at); when `dst` is `src` itself nothing
   * moves.
   */
  function Moved(fs: map<string, Entry>, src: string, dst: string, base: string): (r: Result<(map<string, Entry>, string), FsError>)
    ensures r.Ok? ==> r.value.1 == (if dst in fs && fs[dst].Dir? && src != dst then Join(dst, base) else dst)
    ensures r.Ok? ==> src in fs && r.value.1 in r.value.0 && r.value.0[r.value.1] == fs[src]
    ensures r.Ok? && r.value.1 != src ==> src !in r.value.0
    ensures r.Ok? ==> forall p :: p in fs && p != src && p != r.value.1 ==> p in r.value.0 && r.value.0[p] == fs[p]
    ensures r.Ok? ==> r.value.0.Keys == fs.Keys - {src} + {r.value.1}
  {
    if dst in fs && fs[dst].Dir? then
      if src == dst then Ok((fs, dst))
      else
        var inner := Join(dst, base);
        if inner in fs then Err(DestinationExists)
        else if src !in fs then Err(FileNotFound)
        else Ok(((fs - {src})[inner := fs[src]], inner))
    else if src !in fs then Err(FileNotFound)
    else if dst in fs then Err(FileExists)
    else Ok(((fs - {src})[dst := fs[src]], dst))
  }

  /** `os.symlink(target, link)`: fails when `link` already exists. */
  function Linked(fs: map<string, Entry>, target: string, link: string): (r: Result<map<string, Entry>, FsError>)
    ensures r.Ok? <==> link !in fs
    ensures r.Ok? ==> r.value.Keys == fs.Keys + {link} && r.value[link] == Link(target)
    ensures r.Ok? ==> forall p :: p in fs ==> r.value[p] == fs[p]
  {
    if link in fs then Err(FileExists) else Ok(fs[link := Link(target)])
  }

  /**
   * The tree after `create_symlink(project, slug)` for a project whose listing
   * is `names`: unchanged when the managed name is already a link; otherwise
   * the directory moved to `storage/slug/name` and a link to that path left
   * behind.  An error leaves the tree as it was.
   */
  function Relocated(fs: map<string, Entry>, project: string, storage: string, slug: string, names: set<string>): (r: Result<map<string, Entry>, FsError>)
    ensures var link := Join(project, ManagedName(Classify(names)));
      link in fs && fs[link].Link? ==> r == Ok(fs)
    ensures var name := ManagedName(Classify(names));
      var link, dst := Join(project, name), Join(Join(storage, slug), name);
      r.Ok? ==> && r.value.Keys <= fs.Keys + {dst, Join(dst, name)}
                && forall p :: p in fs && p != link && p != dst && p != Join(dst, name) ==> p in r.value && r.value[p] == fs[p]
  {
    var name := ManagedName(Classify(names));
    var link := Join(project, name);
    if link in fs && fs[link].Link? then Ok(fs)
    else
      var dst := Join(Join(storage, slug), name);
      match Moved(fs, link, dst, name)
      case Err(e) => Err(e)
      case Ok((moved, _)) =>
        match Linked(moved, dst, link)
        case Err(e) => Err(e)
        case Ok(linked) => Ok(linked)
  }

  /** After a successful relocation the managed name is a link, to `storage/slug/name`. */
  lemma RelocatedLeavesLink(fs: map<string, Entry>, project: string, storage: string, slug: string, names: set<string>)
    requires Relocated(fs, project, storage, slug, names).Ok?
    ensures var name := ManagedName(Classify(names));
      var fs' := Relocated(fs, project, storage, slug, names).value;
      && Join(project, name) in fs'
      && fs'[Join(project, name)].Link?
      && (Join(project, name) in fs && fs[Join(project, name)].Dir? ==> fs'[Join(project, name)] == Link(Join(Join(storage, slug), name)))
  {
  }

  /**
   * When the stored directory already holds an entry of the managed name,
   * relocation fails with `shutil.Error` whether or not the project still
   * has its own directory.
   */
  lemma RelocateOntoTakenCache(fs: map<string, Entry>, project: string, storage: string, slug: string, names: set<string>)
    requires var name := ManagedName(Classify(names));
      var link, dst := Join(project, name), Join(Join(storage, slug), name);
      && !(link in fs && fs[link].Link?)
      && dst in fs && fs[dst] == Dir && link != dst
      && Join(dst, name) in fs
    ensures Relocated(fs, project, storage, slug, names) == Err(DestinationExists)
  {
  }

  /** Relocation is idempotent: a second run leaves the tree as the first left it. */
  lemma RelocateIdempotent(fs: map<string, Entry>, project: string, storage: string, slug: string, names: set<string>)
    requires Relocated(fs, project, storage, slug, names).Ok?
    ensures var fs' := Relocated(fs, project, storage, slug, names).value;
      Relocated(fs', project, storage, slug, names) == Ok(fs')
  {
    RelocatedLeavesLink(fs, project, storage, slug, names);
  }

  /**
   * The usual case: the dependency directory exists and nothing is stored
   * for it yet.  It ends up at `storage/slug/name`, a link to it sits at its
   * old path, and nothing else changes.
   */
  lemma RelocateMovesAndLinks(fs: map<string, Entry>, project: string, storage: string, slug: string, names: set<string>)
    requires var name := ManagedName(Classify(names));
      && Join(project, name) in fs && fs[Join(project, name)] == Dir
      && Join(Join(storage, slug), name) !in fs
    ensures var name := ManagedName(Classify(names));
      var link, dst := Join(project, name), Join(Join(storage, slug), name);
      && Relocated(fs, project, storage, slug, names).Ok?
      && var fs' := Relocated(fs, project, storage, slug, names).value;
      && fs'.Keys == fs.Keys + {dst}
      && fs'[dst] == Dir && fs'[link] == Link(dst)
      && forall p :: p in fs && p != link ==> fs'[p] == fs[p]
  {
  }

  /**
   * When the relocation fails: the managed directory is missing; or it is
   * its own destination; or the destination is a link; or the destination is
   * a directory that already holds an entry of that name.
   */
  lemma RelocateFails(fs: map<string, Entry>, project: string, storage: string, slug: string, names: set<string>)
    ensures var name := ManagedName(Classify(names));
      var link, dst := Join(project, name), Join(Join(storage, slug), name);
      Relocated(fs, project, storage, slug, names).Err? <==>
        || link !in fs
        || (fs[link].Dir? && link == dst)
        || (fs[link].Dir? && dst in fs && fs[dst].Link?)
        || (fs[link].Dir? && dst in fs && fs[dst].Dir? && Join(dst, name) in fs)
  {
  }

  /**
   * When `storage/slug/name` is already a directory (a cache left from an
   * earlier relocation), the project's directory is moved INSIDE it, as
   * `storage/slug/name/name`, while the link left in the project points to
   * the old `storage/slug/name`.
   */
  lemma RelocateOverStaleCache(fs: map<string, Entry>, project: string, storage: string, slug: string, names: set<string>)
    requires var name := ManagedName(Classify(names));
      var link, dst := Join(project, name), Join(Join(storage, slug), name);
      && link in fs && fs[link] == Dir
      && dst in fs && fs[dst] == Dir && link != dst
      && Join(dst, name) !in fs
    ensures var name := ManagedName(Classify(names));
      var link, dst := Join(project, name), Join(Join(storage, slug), name);
      && Relocated(fs, project, storage, slug, names).Ok?
      && var fs' := Relocated(fs, project, storage, slug, names).value;
      && fs'[Join(dst, name)] == Dir
      && fs'[link] == Link(dst)
      && fs'[dst] == fs[dst]
  {
  }

  /** The filesystem the relocator works on. */
  class Tree {
    var entries: map<string, Entry>

    constructor (entries: map<string, Entry>)
      ensures this.entries == entries
    {
      this.entries := entries;
    }

    /** `shutil.move(src, dst)`; `base` is the last component of `src`. */
    method Move(src: string, dst: string, base: string) returns (r: Result<string, FsError>)
      modifies this
      ensures match Moved(old(entries), src, dst, base)
        case Ok((fs, at)) => r == Ok(at) && entries == fs
        case Err(e) => r == Err(e) && entries == old(entries)
    {
      var realDst := dst;
      var intoDir := dst in entries && entries[dst].Dir?;
      if intoDir {
        if src == dst {
          return Ok(dst);
        }
        realDst := Join(dst, base);
        if realDst in entries {
          return Err(DestinationExists);
        }
      }
      if src !in entries {
        return Err(FileNotFound);
      }
      if !intoDir && dst in entries {
        return Err(FileExists);
      }
      var moving := entries[src];
      entries := (entries - {src})[realDst := moving];
      return Ok(realDst);
    }

    /** `os.symlink(target, link)`. */
    method Symlink(target: string, link: string) returns (r: Result<(), FsError>)
      modifies this
      ensures match Linked(old(entries), target, link)
        case Ok(fs) => r == Ok(()) && entries == fs
        case Err(e) => r == Err(e) && entries == old(entries)
    {
      if link in entries {
        return Err(FileExists);
      }
      entries := entries[link := Link(target)];
      return Ok(());
    }

    /**
     * `create_symlink`: reclassifies the project from its listing `names`,
     * skips when the managed name is already a link, and otherwise moves the
     * directory into `storage/directoryName` and links it back.
     */
    method CreateSymlink(project: string, storage: string, directoryName: string, names: set<string>) returns (r: Result<(), FsError>)
      modifies this
      ensures match Relocated(old(entries), project, storage, directoryName, names)
        case Ok(fs) => r == Ok(()) && entries == fs
        case Err(e) => r == Err(e) && entries == old(entries)
    {
      var kind := GuessProjectType(names);
      var name := ManagedName(kind);
      var link := Join(project, name);
      if link in entries && entries[link].Link? {
        return Ok(());
      }
      var dst := Join(Join(storage, directoryName), name);
      var moved := Move(link, dst, name);
      if moved.Err? {
        return Err(moved.error);
      }
      r := Symlink(dst, link);
    }
  }
}
