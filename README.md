# setup-project: a verified model of the project-cache bookkeeping

`scripts/setup-project.py` caches each project's dependency directory (a
Python `.venv` or a JavaScript `node_modules`) in one storage directory
(`~/.ephemeral/`). It keeps a JSON log of every project it has seen there. This
project models, in Dafny, the four parts of that script that hold logic:

- **Classifier** (`classifier.dfy`). `guess_project_type` checks a directory
  listing against a fixed, ordered table of marker-file sets: python
  (`pyproject.toml`, `poetry.lock`), then javascript (`package.json`,
  `yarn.lock`), then rust (`Cargo.toml`). It returns the first kind whose
  markers are all present. `Classify` is the specification function.
  `GuessProjectType` is the script's loop, proved equal to it.
- **Ledger** (`ledger.dfy`). The log maps a canonical project path to a
  record (`id`, `slug`, `project_type`, `created_on`, `used_on`). Reading the
  log gives one of three states: no file, a file that does not parse (the
  empty file the script creates counts as one), or the parsed mapping.
  `ProjectLog` holds the storage directory's existence and the log.
  `CheckIfCached` and `UpdateLogFileWithProject` change them in place. Their
  results are specified by the value-level functions `Registered`, `Touched`
  and `UpdatedLog`. The readers `get_cache_directory_name` and `get_num_used`
  are `CacheDirectoryName` and `NumUsed`. They return the exception as an
  `Err`.
- **Relocator** (`relocator.dfy`). `create_symlink` runs over an abstract
  filesystem: a map from path to `Dir` or `Link(target)`. `Tree.Move` models
  `shutil.move`, including its rule that a destination which is already a
  directory receives the entry inside it. `Tree.Symlink` models `os.symlink`.
  `Relocated` is the specification of the whole operation.
- **Driver** (`driver.dfy`). This is the dispatch rule of the `__main__`
  block. `generate_project` and the ledger step of `build_project` compose
  the parts above. `RepeatedGenerate`, `FirstJavaScriptGenerate` and
  `RustAndEmptyDirectory` are client methods: they check that the contracts
  give the script's end-to-end behaviour (first and second run of a python
  project, a javascript checkout whose `node_modules` the installer creates,
  a rust project, an empty directory).

Slugs (`uuid.uuid4()`), timestamps (`datetime.now()`), canonical paths
(`Path.resolve()`), the directory listing, the tree the installer leaves and
the success of `poetry install` are parameters.

One behaviour of the code is worth knowing. Suppose `<storage>/<slug>/<name>`
already exists as a directory, which happens when the project's link was
removed and the dependencies were installed again. Then `shutil.move` puts the
new directory inside it, as `<storage>/<slug>/<name>/<name>`. The link left in
the project still points at the old directory. `RelocateOverStaleCache` states
this.

Three more behaviours of the code are worth knowing:

- Ids are `len(log) + 1`, so a log edited by hand can repeat an id.
- Every kind other than python manages `node_modules`, rust included.
- A log that parses to a mapping without the path gives `KeyError` on lookup.

## Model

| member | source | states |
|---|---|---|
| Classifier.Classify | scripts/setup-project.py:34-43 | no kind iff no row of the marker table is fully present; python iff both python markers are present |
| Classifier.FirstMatch | scripts/setup-project.py:40-43 | the result is the kind of a row whose markers are all in the listing and no earlier row matches; no result only when no row matches |
| Classifier.ClassifyRule | scripts/setup-project.py:34-43 | python iff both python markers are present; otherwise javascript iff both of its markers are present; otherwise rust iff `Cargo.toml` is present; otherwise none |
| Classifier.PythonTakesPrecedence | scripts/setup-project.py:35-42 | a listing with the python markers is python whatever else it holds |
| Classifier.GuessProjectType | scripts/setup-project.py:34-43 | the loop returns the table's first full match, i.e. `Classify` |
| Ledger.FreshRecord | scripts/setup-project.py:71-83 | the new record carries the given id, slug and creation time, the classifier's kind and an empty `used_on` |
| Ledger.Registered | scripts/setup-project.py:94-108 | registration adds exactly the new path; the new record has id = old size + 1 (1 for a missing or unparsable log); every old entry is kept |
| Ledger.Touched | scripts/setup-project.py:110-118 | same keys; the path's `used_on` gains exactly `now` at the end, its other fields stay, and every other entry is unchanged |
| Ledger.UpdatedLog | scripts/setup-project.py:86-118 | the path is logged afterwards and every other entry is kept; a known path gains exactly one use, a new one starts with none |
| Ledger.CacheDirectoryName | scripts/setup-project.py:135-140 | the slug exactly when the log parses and holds the path; LogMissing, DecodeError or KeyError otherwise |
| Ledger.NumUsed | scripts/setup-project.py:143-147 | the length of `used_on` exactly when the log parses and holds the path; an error otherwise |
| Ledger.RegisterNew | scripts/setup-project.py:71-108 | after a first run the path is cached; its record has the next id, empty `used_on`, the classifier's kind, the given slug and creation time; earlier entries are unchanged |
| Ledger.RegisterIntoEmpty | scripts/setup-project.py:103-108 | a missing or unparsable log is rewritten as a one-entry mapping with id 1 |
| Ledger.TouchKnown | scripts/setup-project.py:109-118 | a later run appends exactly its timestamp to `used_on`; id, slug, kind and creation time stay; other entries are unchanged; `get_num_used` grows by 1 |
| Ledger.InsertKeepsNumbering | scripts/setup-project.py:100-101 | adding an entry with id n+1 under a new path to a mapping with ids exactly 1..n gives ids exactly 1..n+1, pairwise distinct |
| Ledger.RegisterKeepsNumbering | scripts/setup-project.py:97-102 | registering into a log with ids exactly 1..n gives ids exactly 1..n+1, pairwise distinct |
| Ledger.TouchKeepsNumbering | scripts/setup-project.py:110-118 | appending a use keeps the ids exactly 1..n and distinct |
| Ledger.ReplayKeepsNumbering | scripts/setup-project.py:86-118 | in a log built only by the script's runs, ids are exactly 1..n and distinct |
| Ledger.SecondRunOnlyAppends | scripts/setup-project.py:86-118 | two runs on a new path: the record of the first stays except for exactly one use recorded |
| Ledger.ProjectLog.CheckIfCached | scripts/setup-project.py:46-68 | true iff the storage directory exists and the log parses and holds the path; creates a missing storage directory, or else a missing (empty) log file |
| Ledger.ProjectLog.UpdateLogFileWithProject | scripts/setup-project.py:86-118 | the log becomes the parsed mapping `UpdatedLog` (register or append); the id numbering is preserved; the slug is the stored one, or the given one for a new path |
| Relocator.ManagedName | scripts/setup-project.py:125 | `.venv` exactly for python, `node_modules` for every other kind |
| Relocator.Moved | scripts/setup-project.py:131 | a successful move puts the source's entry at `dst`, or at `dst/base` when `dst` is another directory; it removes the source and changes nothing else |
| Relocator.Linked | scripts/setup-project.py:132 | the link is created iff the path is free, and nothing else changes |
| Relocator.Relocated | scripts/setup-project.py:124-132 | an existing link at the managed name, whatever its target, leaves the tree unchanged; a successful relocation adds at most the storage path (or the path inside it) and changes no entry other than the managed name and the storage paths |
| Relocator.RelocatedLeavesLink | scripts/setup-project.py:124-132 | after a successful relocation the managed name is a link, to `storage/slug/name` when it was a directory |
| Relocator.RelocateOntoTakenCache | scripts/setup-project.py:130-131 | when the stored directory already holds an entry of the managed name, relocation raises `shutil.Error`, even if the project's own directory is missing |
| Relocator.RelocateIdempotent | scripts/setup-project.py:127-129 | relocating a second time leaves the tree as the first time left it |
| Relocator.RelocateMovesAndLinks | scripts/setup-project.py:130-132 | the directory ends up at `storage/slug/name`, a link to it sits at its old path, and nothing else changes |
| Relocator.RelocateFails | scripts/setup-project.py:127-132 | relocation fails iff the directory is missing, is its own destination, or the destination is a link or a directory already holding that name |
| Relocator.RelocateOverStaleCache | scripts/setup-project.py:130-132 | over an existing stored directory the new one is nested inside it while the link points at the old one |
| Relocator.Tree.Move | scripts/setup-project.py:131 | the tree and result are those of `Moved`; an error changes nothing |
| Relocator.Tree.Symlink | scripts/setup-project.py:132 | the tree and result are those of `Linked`; an error changes nothing |
| Relocator.Tree.CreateSymlink | scripts/setup-project.py:121-132 | the tree becomes `Relocated` of the old tree; an error leaves it unchanged |
| Driver.Dispatch | scripts/setup-project.py:245-252 | exit 1 iff no kind; build iff rust or (build and not generate); generate iff another kind and (generate or not build) |
| Driver.DefaultRoute | scripts/setup-project.py:249-252 | without flags rust builds and every other kind generates |
| Ledger.SlugIsStable | scripts/setup-project.py:156-157 | after a run the slug looked up is the first registration's, or the new one for a new path |
| Driver.GenerateProject | scripts/setup-project.py:150-162 | the ledger is updated; the installer of a python or javascript project leaves the given tree; a failing `poetry install` aborts before relocation; otherwise that tree is relocated under the stored slug |
| Driver.BuildProject | scripts/setup-project.py:171 | the ledger is updated as by a generate run |
| Driver.Run | scripts/setup-project.py:245-252 | no kind: exit 1, nothing written; otherwise the ledger is updated and the dispatch rule picks build or generate, and generate relocates over the tree the installer leaves |

## Left out

- The external tools are not run. What `poetry install` or `yarn install` does to the filesystem is a parameter: the tree it leaves, which the relocation then works on. Whether `poetry install` succeeded is a boolean parameter: `check_call` aborts the run when it fails. The failure of `yarn install` is ignored, as the script ignores it. `yarn generate` and `cargo build` are not modelled.
- Driver.GenerateProject: the tree the installer leaves is an input. It is not derived from the lock files or from the tree before the install.
- Driver.Run: on the build route the contract says nothing about the tree. `build_project` removes `dist`, empties the stored directory except `node_modules`, copies the project into it and moves build output back (lines 175-218); the model's tree does not see these changes.
- Driver.BuildProject: only the ledger update is modelled. The rest of `build_project` (lines 172-218) copies and moves trees and runs `yarn generate` or `cargo build`. Its result depends on the working directory and the host.
- JSON itself is not modelled: encoding, decoding, `indent=2` and the key order that Python dicts keep. The log is abstracted to no file, unparsable, or the parsed mapping, so a write followed by a read gives back the same mapping by construction. A log that parses to something other than an object is not modelled.
- `uuid.uuid4()`, `datetime.now().strftime(...)` and `Path.resolve()` are inputs. One path string serves both as the resolved log key and as the project directory.
- The directory listing that `os.listdir` returns is the `names` parameter. It is not derived from the modelled filesystem.
- `argparse` is not modelled: only the resulting `generate` and `build` flags reach `Dispatch`.
- Relocator.Moved: the filesystem is flat. Directory contents and intermediate directories are not tracked, so the storage sub-directory that `shutil.move` creates through its copy fallback is implicit. A move of a directory into its own subtree is not modelled. A link already at the destination is an obstacle, not followed. Entries are only directories and links, so a regular file at `.venv` or `node_modules` is not modelled.
- Records with missing fields are not modelled: a parsed log whose record lacks `slug` or `used_on` makes the script raise `KeyError`, while every `Record` of the model is complete.
- Crashes between the move and the symlink are not modelled. The script has no such intermediate state to observe apart from a crash.
- Races between concurrent runs on the log file are not modelled: the script is single-process.
- `qtile/settings/bindings.py` and `qtile/settings/groups.py` are not modelled: they are static window-manager configuration data with no behaviour to verify.
