/**
 * The project classifier of `scripts/setup-project.py`: a directory is
 * classified by the names in its listing, against a fixed, ordered table of
 * marker-file sets.  The first kind whose markers are ALL present wins.
 */
module Classifier {
  import opened Wrappers

  /** The project kinds the script recognises ("python", "javascript", "rust"). */
  datatype Kind = Python | JavaScript | Rust

  /** One row of the table: a kind and the file names that must all be present. */
  type Rule = (Kind, set<string>)

  /** The marker table, in the order the script consults it. */
  function MarkerTable(): seq<Rule>
  {
    [ (Python, {"pyproject.toml", "poetry.lock"}),
      (JavaScript, {"package.json", "yarn.lock"}),
      (Rust, {"Cargo.toml"}) ]
  }

  /** Row `i` of `table` is the first row whose markers all occur in `names`. */
  ghost predicate FirstMatchAt(table: seq<Rule>, names: set<string>, i: int)
    requires 0 <= i < |table|
  {
    && table[i].1 <= names
    && forall j :: 0 <= j < i ==> !(table[j].1 <= names)
  }

  /** The kind of the first row of `table` whose markers are all in `names`, if any. */
  function FirstMatch(table: seq<Rule>, names: set<string>): (r: Option<Kind>)
    ensures r.Some? ==> exists i :: 0 <= i < |table| && FirstMatchAt(table, names, i) && table[i].0 == r.value
    ensures r.None? ==> forall i :: 0 <= i < |table| ==> !(table[i].1 <= names)
  {
    if |table| == 0 then None
    else if table[0].1 <= names then
      assert FirstMatchAt(table, names, 0);
      Some(table[0].0)
    else
      var r := FirstMatch(table[1..], names);
      assert r.Some? ==> exists i :: 0 <= i < |table| && FirstMatchAt(table, names, i) && table[i].0 == r.value by {
        if r.Some? {
          var i :| 0 <= i < |table[1..]| && FirstMatchAt(table[1..], names, i) && table[1..][i].0 == r.value;
          assert FirstMatchAt(table, names, i + 1);
        }
      }
      r
  }

  /** The kind of a directory whose listing is `names` (`guess_project_type`). */
  function Classify(names: set<string>): (r: Option<Kind>)
    ensures r.None? <==> forall i :: 0 <= i < |MarkerTable()| ==> !(MarkerTable()[i].1 <= names)
    ensures r == Some(Python) <==> MarkerTable()[0].1 <= names
  {
    FirstMatch(MarkerTable(), names)
  }

  /**
   * The classification rule written out: python whenever both python markers
   * are present, whatever else is; otherwise javascript when both of its
   * markers are present; otherwise rust when `Cargo.toml` is present;
   * otherwise no kind.
   */
  lemma ClassifyRule(names: set<string>)
    ensures Classify(names) ==
      if "pyproject.toml" in names && "poetry.lock" in names then Some(Python)
      else if "package.json" in names && "yarn.lock" in names then Some(JavaScript)
      else if "Cargo.toml" in names then Some(Rust)
      else None
  {
    var t := MarkerTable();
    var js, rust := t[1..], t[1..][1..];
    assert js == [(JavaScript, {"package.json", "yarn.lock"}), (Rust, {"Cargo.toml"})];
    assert rust == [(Rust, {"Cargo.toml"})];
    assert FirstMatch(rust[1..], names) == None;
    assert FirstMatch(rust, names) == if {"Cargo.toml"} <= names then Some(Rust) else None;
    assert FirstMatch(js, names) == if js[0].1 <= names then Some(JavaScript) else FirstMatch(rust, names);
    assert Classify(names) == if t[0].1 <= names then Some(Python) else FirstMatch(js, names);
    assert {"pyproject.toml", "poetry.lock"} <= names <==> "pyproject.toml" in names && "poetry.lock" in names;
    assert {"package.json", "yarn.lock"} <= names <==> "package.json" in names && "yarn.lock" in names;
  }

  /** A listing with the python markers is python, even when it also holds rust's or javascript's markers. */
  lemma PythonTakesPrecedence(names: set<string>)
    requires "pyproject.toml" in names && "poetry.lock" in names
    ensures Classify(names) == Some(Python)
  {
    ClassifyRule(names);
  }

  /** `guess_project_type`: the for-loop over the table, returning at the first full match. */
  method GuessProjectType(names: set<string>) returns (kind: Option<Kind>)
    ensures kind == Classify(names)
  {
    var table := MarkerTable();
    var i := 0;
    while i < |table|
      invariant 0 <= i <= |table|
      invariant FirstMatch(table[i..], names) == Classify(names)
    {
      var (k, markers) := table[i];
      if markers <= names {
        return Some(k);
      }
      assert table[i..][1..] == table[i + 1..];
      i := i + 1;
    }
    return None;
  }
}
