/**
 * File-to-package attribution (`niceman/retrace/packagemanagers.py`).
 *
 * `SearchForFiles` is the grouping loop of `PackageManager.search_for_files`,
 * with the two per-manager hooks `_get_package_for_file` and `_create_package`
 * taken as function parameters. The DPKG manager's hooks are modelled by their
 * parsing of `dpkg-query` output; running the tool is left to the caller, who
 * supplies its output as data.
 */
module PackageManagers {
  import opened Wrappers
  import opened Strings

  /** The dict `_create_package` builds: name, version, size in bytes and its file list. */
  datatype Package = Package(name: string, version: Option<string>, size: Option<int>, files: seq<string>)

  /** The exceptions `DpkgManager._create_package` can raise while parsing. */
  datatype Error =
    | IndexError              // the first output line has fewer than two fields
    | ValueError(text: string) // the size field is not an integer literal

  /** `_get_package_for_file`: the package name of a file, "" when there is none. */
  type Lookup = string -> string

  /** `_create_package`: a new package record, None when there is none, or a raised error. */
  type Creator = string -> Result<Option<Package>, Error>

  /** What `search_for_files` ends with: `found_packages`, `unknown_files` and the counter `nb_pkg_files`. */
  datatype Attribution = Attribution(found: map<string, Package>, unknown: set<string>, created: nat)

  /** Creating the package `name` raises. Names that are "" never reach `_create_package`. */
  predicate Raises(create: Creator, name: string)
  {
    name != "" && create(name).Failure?
  }

  /** Creating the package `name` yields a record. */
  predicate Created(create: Creator, name: string)
  {
    name != "" && create(name).Success? && create(name).value.Some?
  }

  /** The files among `files` whose package is `name`, in input order, duplicates kept. */
  function FilesFor(files: seq<string>, lookup: Lookup, name: string): seq<string>
    decreases |files|
  {
    if |files| == 0 then []
    else
      var last := files[|files| - 1];
      FilesFor(files[..|files| - 1], lookup, name) + (if lookup(last) == name then [last] else [])
  }

  lemma {:induction false} FilesForMembers(files: seq<string>, lookup: Lookup, name: string)
    ensures forall f {:trigger f in FilesFor(files, lookup, name)} {:trigger f in files} ::
      f in FilesFor(files, lookup, name) <==> f in files && lookup(f) == name
    decreases |files|
  {
    if |files| > 0 {
      var init := files[..|files| - 1];
      FilesForMembers(init, lookup, name);
      assert files == init + [files[|files| - 1]];
    }
  }

  /** A package record with `extra` appended to its file list. */
  function WithFiles(p: Package, extra: seq<string>): Package
  {
    p.(files := p.files + extra)
  }

  /** Some file of `files` was looked up in the package `name`. */
  ghost predicate Seen(files: seq<string>, lookup: Lookup, name: string)
  {
    exists j :: 0 <= j < |files| && lookup(files[j]) == name
  }

  /** The packages found are exactly the looked-up names whose creation succeeded. */
  ghost predicate KeysAttributed(files: seq<string>, lookup: Lookup, create: Creator, found: map<string, Package>)
  {
    forall n {:trigger n in found} {:trigger Seen(files, lookup, n)} ::
      n in found <==> Created(create, n) && Seen(files, lookup, n)
  }

  /** Each package is its created record with its files appended in input order. */
  ghost predicate RecordsAttributed(files: seq<string>, lookup: Lookup, create: Creator, found: map<string, Package>)
  {
    forall n {:trigger n in found} ::
      n in found ==> Created(create, n) && found[n] == WithFiles(create(n).value.value, FilesFor(files, lookup, n))
  }

  /** The unknown files are exactly the files without a created package. */
  ghost predicate UnknownAttributed(files: seq<string>, lookup: Lookup, create: Creator, unknown: set<string>)
  {
    forall f {:trigger f in unknown} {:trigger f in files} ::
      f in unknown <==> f in files && !Created(create, lookup(f))
  }

  /**
   * The outcome `search_for_files` promises when no creation raised: the
   * three predicates above, and the counter equal to the number of packages.
   */
  ghost predicate Attributed(files: seq<string>, lookup: Lookup, create: Creator, a: Attribution)
  {
    && KeysAttributed(files, lookup, create, a.found)
    && RecordsAttributed(files, lookup, create, a.found)
    && UnknownAttributed(files, lookup, create, a.unknown)
    && a.created == |a.found|
  }

  /** No file of `files` makes its package creation raise. */
  predicate NoneRaise(files: seq<string>, lookup: Lookup, create: Creator)
  {
    forall j :: 0 <= j < |files| ==> !Raises(create, lookup(files[j]))
  }

  lemma FilesForStep(files: seq<string>, f: string, lookup: Lookup, n: string)
    ensures FilesFor(files + [f], lookup, n) == FilesFor(files, lookup, n) + (if lookup(f) == n then [f] else [])
  {
    assert (files + [f])[..|files|] == files;
  }

  lemma SeenStep(files: seq<string>, f: string, lookup: Lookup)
    ensures forall n :: Seen(files + [f], lookup, n) <==> Seen(files, lookup, n) || lookup(f) == n
  {
    var s := files + [f];
    forall n ensures Seen(s, lookup, n) <==> Seen(files, lookup, n) || lookup(f) == n {
      if Seen(files, lookup, n) {
        var j :| 0 <= j < |files| && lookup(files[j]) == n;
        assert s[j] == files[j];
      }
      if lookup(f) == n {
        assert s[|files|] == f;
      }
      if Seen(s, lookup, n) {
        var j :| 0 <= j < |s| && lookup(s[j]) == n;
        if j < |files| { assert files[j] == s[j]; }
      }
    }
  }

  /** A name looked up for no earlier file has no files attributed yet. */
  lemma {:induction false} UnseenHasNoFiles(files: seq<string>, lookup: Lookup, name: string)
    requires !Seen(files, lookup, name)
    ensures FilesFor(files, lookup, name) == []
    decreases |files|
  {
    if |files| > 0 {
      var init := files[..|files| - 1];
      forall j | 0 <= j < |init| ensures lookup(init[j]) != name {
        assert init[j] == files[j];
      }
      UnseenHasNoFiles(init, lookup, name);
      assert lookup(files[|files| - 1]) != name;
    }
  }

  lemma RecordsStepOther(files: seq<string>, f: string, lookup: Lookup, create: Creator, found: map<string, Package>)
    requires RecordsAttributed(files, lookup, create, found)
    requires lookup(f) !in found
    ensures RecordsAttributed(files + [f], lookup, create, found)
  {
    forall n | n in found ensures FilesFor(files + [f], lookup, n) == FilesFor(files, lookup, n) {
      FilesForStep(files, f, lookup, n);
    }
  }

  lemma RecordsStepUpdate(files: seq<string>, f: string, lookup: Lookup, create: Creator,
                          found: map<string, Package>, p: Package)
    requires RecordsAttributed(files, lookup, create, found)
    requires Created(create, lookup(f))
    requires p == WithFiles(create(lookup(f)).value.value, FilesFor(files, lookup, lookup(f)))
    ensures RecordsAttributed(files + [f], lookup, create, found[lookup(f) := WithFiles(p, [f])])
  {
    var name := lookup(f);
    var found' := found[name := WithFiles(p, [f])];
    forall n | n in found'
      ensures Created(create, n) && found'[n] == WithFiles(create(n).value.value, FilesFor(files + [f], lookup, n))
    {
      FilesForStep(files, f, lookup, n);
      if n == name {
        assert found'[n] == WithFiles(p, [f]);
        assert FilesFor(files + [f], lookup, n) == FilesFor(files, lookup, n) + [f];
      } else {
        assert n in found && found'[n] == found[n];
        assert FilesFor(files + [f], lookup, n) == FilesFor(files, lookup, n);
      }
    }
  }

  lemma KeysStep(files: seq<string>, f: string, lookup: Lookup, create: Creator, found: map<string, Package>)
    requires KeysAttributed(files, lookup, create, found)
    requires Created(create, lookup(f)) ==> lookup(f) in found
    ensures KeysAttributed(files + [f], lookup, create, found)
  {
    SeenStep(files, f, lookup);
  }

  lemma KeysStepAdd(files: seq<string>, f: string, lookup: Lookup, create: Creator,
                    found: map<string, Package>, p: Package)
    requires KeysAttributed(files, lookup, create, found)
    requires Created(create, lookup(f))
    ensures KeysAttributed(files + [f], lookup, create, found[lookup(f) := p])
  {
    SeenStep(files, f, lookup);
  }

  lemma UnknownStep(files: seq<string>, f: string, lookup: Lookup, create: Creator, unknown: set<string>)
    requires UnknownAttributed(files, lookup, create, unknown)
    ensures UnknownAttributed(files + [f], lookup, create,
                              if Created(create, lookup(f)) then unknown else unknown + {f})
  {
  }

  /** One file that goes to the unknown files: no name, or a creation that gave None. */
  lemma StepUnknown(files: seq<string>, f: string, lookup: Lookup, create: Creator, a: Attribution)
    requires Attributed(files, lookup, create, a)
    requires !Created(create, lookup(f))
    ensures Attributed(files + [f], lookup, create, a.(unknown := a.unknown + {f}))
  {
    RecordsStepOther(files, f, lookup, create, a.found);
    KeysStep(files, f, lookup, create, a.found);
    UnknownStep(files, f, lookup, create, a.unknown);
  }

  /** One file of a package that is already in `found`. */
  lemma StepKnown(files: seq<string>, f: string, lookup: Lookup, create: Creator, a: Attribution)
    requires Attributed(files, lookup, create, a)
    requires lookup(f) in a.found
    ensures var name := lookup(f);
      Attributed(files + [f], lookup, create, a.(found := a.found[name := WithFiles(a.found[name], [f])]))
  {
    var name := lookup(f);
    var found' := a.found[name := WithFiles(a.found[name], [f])];
    assert found'.Keys == a.found.Keys;
    assert |found'| == |a.found| by {
      assert |found'.Keys| == |a.found.Keys|;
    }
    RecordsStepUpdate(files, f, lookup, create, a.found, a.found[name]);
    KeysStepAdd(files, f, lookup, create, a.found, WithFiles(a.found[name], [f]));
    UnknownStep(files, f, lookup, create, a.unknown);
  }

  lemma AddNewKey(m: map<string, Package>, k: string, v: Package)
    requires k !in m
    ensures |m[k := v]| == |m| + 1
  {
    assert m[k := v].Keys == m.Keys + {k};
  }

  /** One file whose package is created now. */
  lemma StepCreated(files: seq<string>, f: string, lookup: Lookup, create: Creator, a: Attribution)
    requires Attributed(files, lookup, create, a)
    requires lookup(f) !in a.found && Created(create, lookup(f))
    ensures var name := lookup(f);
      Attributed(files + [f], lookup, create,
                 Attribution(a.found[name := WithFiles(create(name).value.value, [f])], a.unknown, a.created + 1))
  {
    var name := lookup(f);
    var p := create(name).value.value;
    var found' := a.found[name := WithFiles(p, [f])];
    AddNewKey(a.found, name, WithFiles(p, [f]));
    UnseenHasNoFiles(files, lookup, name);
    assert WithFiles(p, FilesFor(files, lookup, name)) == p;
    RecordsStepUpdate(files, f, lookup, create, a.found, p);
    KeysStepAdd(files, f, lookup, create, a.found, WithFiles(p, [f]));
    UnknownStep(files, f, lookup, create, a.unknown);
  }

  lemma AttributedNothing(lookup: Lookup, create: Creator)
    ensures Attributed([], lookup, create, Attribution(map[], {}, 0))
  {
  }

  /**
   * One turn of the loop of `search_for_files`: the file goes to the
   * unknown files, to the package already found for it, or to the package
   * created for it now; a creation that raises ends the search.
   */
  function Assign(a: Attribution, f: string, lookup: Lookup, create: Creator): (r: Result<Attribution, Error>)
    ensures r.Failure? ==> Raises(create, lookup(f)) && r.error == create(lookup(f)).error
    ensures !Raises(create, lookup(f)) ==> r.Success?
    ensures r.Success? ==> r.value.created - |r.value.found| == a.created - |a.found|
    ensures r.Success? ==> a.unknown <= r.value.unknown <= a.unknown + {f}
  {
    var name := lookup(f);
    if name == "" then Success(a.(unknown := a.unknown + {f}))
    else if name in a.found then Success(a.(found := a.found[name := WithFiles(a.found[name], [f])]))
    else
      match create(name)
      case Failure(e) => Failure(e)
      case Success(None) => Success(a.(unknown := a.unknown + {f}))
      case Success(Some(p)) => Success(Attribution(a.found[name := WithFiles(p, [f])], a.unknown, a.created + 1))
  }

  /** Reference definition of `search_for_files`: the files assigned in order until a creation raises. */
  function Search(files: seq<string>, lookup: Lookup, create: Creator): (r: Result<Attribution, Error>)
    ensures r.Success? ==> r.value.created == |r.value.found|
    ensures r.Success? ==> forall u :: u in r.value.unknown ==> u in files
    decreases |files|
  {
    if |files| == 0 then Success(Attribution(map[], {}, 0))
    else
      match Search(files[..|files| - 1], lookup, create)
      case Failure(e) => Failure(e)
      case Success(a) => Assign(a, files[|files| - 1], lookup, create)
  }

  /** Every package found so far was created by `create`. */
  ghost predicate FoundCreated(create: Creator, found: map<string, Package>)
  {
    forall n :: n in found ==> Created(create, n)
  }

  /** A step fails exactly when the file's package creation raises, once every found package was created. */
  lemma AssignRaises(f: string, lookup: Lookup, create: Creator, a: Attribution)
    requires FoundCreated(create, a.found)
    ensures Assign(a, f, lookup, create).Failure? <==> Raises(create, lookup(f))
    ensures Assign(a, f, lookup, create).Success? ==> FoundCreated(create, Assign(a, f, lookup, create).value.found)
  {
    var name := lookup(f);
    if name in a.found {
      assert Created(create, name);
    }
  }

  lemma {:induction false} SearchFoundCreated(files: seq<string>, lookup: Lookup, create: Creator)
    requires Search(files, lookup, create).Success?
    ensures FoundCreated(create, Search(files, lookup, create).value.found)
    decreases |files|
  {
    if |files| > 0 {
      var init := files[..|files| - 1];
      SearchFoundCreated(init, lookup, create);
      AssignRaises(files[|files| - 1], lookup, create, Search(init, lookup, create).value);
    }
  }

  /** One step keeps the attribution promise. */
  lemma AssignAttributed(seen: seq<string>, f: string, lookup: Lookup, create: Creator, a: Attribution)
    requires Attributed(seen, lookup, create, a)
    ensures Assign(a, f, lookup, create).Success? ==>
              Attributed(seen + [f], lookup, create, Assign(a, f, lookup, create).value)
  {
    var name := lookup(f);
    if name == "" || (name !in a.found && create(name).Success? && create(name).value.None?) {
      StepUnknown(seen, f, lookup, create, a);
    } else if name in a.found {
      StepKnown(seen, f, lookup, create, a);
    } else if create(name).Success? {
      StepCreated(seen, f, lookup, create, a);
    }
  }

  lemma SearchPrefix(files: seq<string>, i: nat, lookup: Lookup, create: Creator)
    requires i < |files|
    ensures Search(files[..i + 1], lookup, create)
         == match Search(files[..i], lookup, create)
            case Failure(e) => Failure(e)
            case Success(a) => Assign(a, files[i], lookup, create)
  {
    assert files[..i + 1][..i] == files[..i];
  }

  /** Once the search has failed on a prefix, the whole search fails with the same error. */
  lemma {:induction false} SearchFailureSticks(files: seq<string>, k: nat, lookup: Lookup, create: Creator)
    requires k <= |files| && Search(files[..k], lookup, create).Failure?
    ensures Search(files, lookup, create) == Search(files[..k], lookup, create)
    decreases |files|
  {
    if k < |files| {
      var init := files[..|files| - 1];
      assert init[..k] == files[..k];
      SearchFailureSticks(init, k, lookup, create);
    } else {
      assert files[..k] == files;
    }
  }

  lemma SplitLast(files: seq<string>)
    requires |files| > 0
    ensures files == files[..|files| - 1] + [files[|files| - 1]]
  {
  }

  /** The search succeeds exactly when no file's package creation raises. */
  lemma {:induction false} SearchSucceeds(files: seq<string>, lookup: Lookup, create: Creator)
    ensures Search(files, lookup, create).Success? <==> NoneRaise(files, lookup, create)
    decreases |files|
  {
    if |files| > 0 {
      var n := |files| - 1;
      var init := files[..n];
      SearchSucceeds(init, lookup, create);
      forall j | 0 <= j < n ensures init[j] == files[j] { }
      if Search(init, lookup, create).Success? {
        SearchFoundCreated(init, lookup, create);
        AssignRaises(files[n], lookup, create, Search(init, lookup, create).value);
      } else {
        var j :| 0 <= j < n && Raises(create, lookup(init[j]));
        assert Raises(create, lookup(files[j]));
      }
    }
  }

  /** A search that succeeds ends with the attribution `search_for_files` promises. */
  lemma {:induction false} SearchAttributed(files: seq<string>, lookup: Lookup, create: Creator)
    requires Search(files, lookup, create).Success?
    ensures Attributed(files, lookup, create, Search(files, lookup, create).value)
    decreases |files|
  {
    if |files| == 0 {
      AttributedNothing(lookup, create);
    } else {
      var n := |files| - 1;
      var init := files[..n];
      SearchAttributed(init, lookup, create);
      AssignAttributed(init, files[n], lookup, create, Search(init, lookup, create).value);
      SplitLast(files);
    }
  }

  /** A failed search carries the error of the first file whose package creation raised. */
  lemma {:induction false} SearchFailsAtFirstRaise(files: seq<string>, lookup: Lookup, create: Creator)
    requires Search(files, lookup, create).Failure?
    ensures exists i :: (0 <= i < |files| && Raises(create, lookup(files[i]))
                         && NoneRaise(files[..i], lookup, create)
                         && Search(files, lookup, create).error == create(lookup(files[i])).error)
    decreases |files|
  {
    var n := |files| - 1;
    var init := files[..n];
    assert files == init + [files[n]];
    if Search(init, lookup, create).Failure? {
      SearchFailsAtFirstRaise(init, lookup, create);
      var i :| 0 <= i < |init| && Raises(create, lookup(init[i])) && NoneRaise(init[..i], lookup, create)
               && Search(init, lookup, create).error == create(lookup(init[i])).error;
      assert init[..i] == files[..i] && init[i] == files[i];
    } else {
      SearchSucceeds(init, lookup, create);
      assert files[..n] == init;
    }
  }

  /** `PackageManager.search_for_files`. */
  method SearchForFiles(files: seq<string>, lookup: Lookup, create: Creator) returns (r: Result<Attribution, Error>)
    ensures r == Search(files, lookup, create)
    ensures r.Failure? <==> !NoneRaise(files, lookup, create)
    ensures r.Failure? ==>
              exists i :: (0 <= i < |files| && Raises(create, lookup(files[i]))
                           && NoneRaise(files[..i], lookup, create)
                           && r.error == create(lookup(files[i])).error)
    ensures r.Success? ==> Attributed(files, lookup, create, r.value)
  {
    var unknown: set<string> := {};
    var found: map<string, Package> := map[];
    var created: nat := 0;
    var i := 0;
    while i < |files|
      invariant 0 <= i <= |files|
      invariant Search(files[..i], lookup, create) == Success(Attribution(found, unknown, created))
    {
      var f := files[i];
      var name := lookup(f);
      SearchPrefix(files, i, lookup, create);
      if name == "" {
        unknown := unknown + {f};
      } else if name in found {
        found := found[name := WithFiles(found[name], [f])];
      } else {
        var pkg := create(name);
        if pkg.Failure? {
          r := Failure(pkg.error);
          SearchFailureSticks(files, i + 1, lookup, create);
          SearchSucceeds(files, lookup, create);
          SearchFailsAtFirstRaise(files, lookup, create);
          return;
        } else if pkg.value.None? {
          unknown := unknown + {f};
        } else {
          found := found[name := WithFiles(pkg.value.value, [f])];
          created := created + 1;
        }
      }
      i := i + 1;
    }
    assert files[..i] == files;
    r := Success(Attribution(found, unknown, created));
    SearchSucceeds(files, lookup, create);
    SearchAttributed(files, lookup, create);
  }

  /**
   * With creators that hand out records with an empty file list (as
   * `DpkgManager` does), every input file lands in exactly one place:
   * the unknown files, or the file list of the package it was looked up in.
   */
  lemma ExactlyOnePlace(files: seq<string>, lookup: Lookup, create: Creator, a: Attribution, f: string)
    requires Attributed(files, lookup, create, a)
    requires forall n :: Created(create, n) ==> create(n).value.value.files == []
    requires f in files
    ensures f in a.unknown <==> lookup(f) !in a.found
    ensures lookup(f) in a.found ==> f in a.found[lookup(f)].files
    ensures forall n :: n in a.found && f in a.found[n].files ==> n == lookup(f)
  {
    forall n | n in a.found
      ensures f in a.found[n].files <==> lookup(f) == n
    {
      FilesForMembers(files, lookup, n);
    }
    var j :| 0 <= j < |files| && files[j] == f;
    assert Created(create, lookup(f)) ==> lookup(f) in a.found by {
      assert lookup(files[j]) == lookup(f);
    }
  }

  // ---------------------------------------------------------------------
  // DpkgManager: parsing of `dpkg-query` output
  // ---------------------------------------------------------------------

  /** How a run of `dpkg-query -S file` ended. */
  datatype QueryResult =
    | Printed(stdout: string) // exit status 0, with this output
    | NotFound                // CalledProcessError: the file belongs to no package
    | ToolMissing             // OSError: dpkg-query is not installed

  /** There is a ": " that starts at index i of s. */
  predicate SeparatorAt(s: string, i: int)
  {
    0 <= i && i + 1 < |s| && s[i] == ':' && s[i + 1] == ' '
  }

  /** `s.split(': ', 1)[0]`: the text before the first ": ", or all of s when there is none. */
  function BeforeSeparator(s: string): (r: string)
    ensures |r| <= |s| && s[..|r|] == r
    ensures forall i :: 0 <= i < |r| ==> !SeparatorAt(s, i)
    ensures |r| < |s| ==> SeparatorAt(s, |r|)
    decreases |s|
  {
    if |s| < 2 then s
    else if s[0] == ':' && s[1] == ' ' then ""
    else
      var r' := BeforeSeparator(s[1..]);
      assert forall i :: 1 <= i < |s| ==> (SeparatorAt(s, i) <==> SeparatorAt(s[1..], i - 1));
      assert !SeparatorAt(s, 0);
      assert s[..|r'| + 1] == [s[0]] + s[1..][..|r'|];
      [s[0]] + r'
  }

  /** `find_dpkg_for_file`, on the outcome of `dpkg-query -S`. */
  function FindDpkgForFile(q: QueryResult): (r: string)
    ensures !q.Printed? ==> r == ""
    ensures q.Printed? ==> r == BeforeSeparator(q.stdout)
  {
    match q
    case Printed(out) => BeforeSeparator(out)
    case _ => ""
  }

  /**
   * The package name in front of the first ": " is returned whole, so a
   * name that carries an architecture ("zlib1g:amd64: /lib/...") keeps it.
   */
  lemma {:induction false} NameBeforeSeparator(p: string, rest: string)
    requires forall i :: 0 <= i < |p| ==> !SeparatorAt(p + ": ", i)
    ensures FindDpkgForFile(Printed(p + ": " + rest)) == p
  {
    var s := p + ": " + rest;
    var r := BeforeSeparator(s);
    forall i | 0 <= i < |p| ensures !SeparatorAt(s, i) {
      assert !SeparatorAt(p + ": ", i);
    }
    assert SeparatorAt(s, |p|);
    assert |r| == |p|;
  }

  predicate IsDigit(ch: char)
  {
    '0' <= ch <= '9'
  }

  predicate AllDigits(t: string)
  {
    forall i :: 0 <= i < |t| ==> IsDigit(t[i])
  }

  /** The value of a string of decimal digits. */
  function DigitsValue(t: string): nat
    requires AllDigits(t)
    decreases |t|
  {
    if |t| == 0 then 0 else DigitsValue(t[..|t| - 1]) * 10 + (t[|t| - 1] as int - '0' as int)
  }

  /** An optional sign followed by at least one decimal digit. */
  predicate IsIntLiteral(t: string)
  {
    (t != "" && AllDigits(t)) || (|t| > 1 && (t[0] == '+' || t[0] == '-') && AllDigits(t[1..]))
  }

  /** Python's `int(t)` on one whitespace-free field; anything but an integer literal raises ValueError. */
  function ParseInt(t: string): (r: Result<int, Error>)
    ensures r.Success? <==> IsIntLiteral(t)
    ensures r.Failure? ==> r.error == ValueError(t)
    ensures t != "" && AllDigits(t) ==> r == Success(DigitsValue(t))
    ensures |t| > 1 && t[0] == '-' && AllDigits(t[1..]) ==> r == Success(-(DigitsValue(t[1..]) as int))
    ensures |t| > 1 && t[0] == '+' && AllDigits(t[1..]) ==> r == Success(DigitsValue(t[1..]))
  {
    if t != "" && AllDigits(t) then Success(DigitsValue(t))
    else if IsIntLiteral(t) then
      Success(if t[0] == '-' then -(DigitsValue(t[1..]) as int) else DigitsValue(t[1..]))
    else Failure(ValueError(t))
  }

  /** Decimal rendering of a natural number, as `dpkg-query` prints `${Installed-Size}`. */
  function NatToString(k: nat): (t: string)
    ensures t != "" && AllDigits(t)
  {
    if k < 10 then ["0123456789"[k]] else NatToString(k / 10) + ["0123456789"[k % 10]]
  }

  lemma {:induction false} NatToStringValue(k: nat)
    ensures DigitsValue(NatToString(k)) == k
  {
    var t := NatToString(k);
    if k >= 10 {
      NatToStringValue(k / 10);
      assert t[..|t| - 1] == NatToString(k / 10);
    }
  }

  /** Round trip: `int()` reads back what was printed. */
  lemma ParseIntOfNat(k: nat)
    ensures ParseInt(NatToString(k)) == Success(k)
  {
    NatToStringValue(k);
  }

  /** Index just past the first line of `s` (its "\n" included), or |s| when it has none. */
  function LineEnd(s: string): (n: nat)
    ensures n <= |s|
    decreases |s|
  {
    if |s| == 0 then 0 else if s[0] == '\n' then 1 else 1 + LineEnd(s[1..])
  }

  /** The first line an iteration over the pipe would see; None when there was no output at all. */
  function FirstLine(out: string): Option<string>
  {
    if out == "" then None else Some(out[..LineEnd(out)])
  }

  /** Version and size in bytes read from the first output line; (None, None) without output. */
  function ParseShowFormat(out: string): (r: Result<(Option<string>, Option<int>), Error>)
    ensures out == "" ==> r == Success((None, None))
    ensures out != "" ==>
              var fields := Fields(FirstLine(out).value);
              && (r.Success? <==> |fields| >= 2 && IsIntLiteral(fields[1]))
              && (r.Failure? ==> r.error == (if |fields| < 2 then IndexError else ValueError(fields[1])))
              && (r.Success? ==> r.value == (Some(fields[0]), Some(ParseInt(fields[1]).value * 1024)))
  {
    match FirstLine(out)
    case None => Success((None, None))
    case Some(line) =>
      var fields := Fields(line);
      if |fields| < 2 then Failure(IndexError)
      else
        match ParseInt(fields[1])
        case Failure(e) => Failure(e)
        case Success(kb) => Success((Some(fields[0]), Some(kb * 1024)))
  }

  /**
   * `DpkgManager._create_package`, on the output and exit status of
   * `dpkg-query --showformat='${Version}\t${Installed-Size}\n' -W name`.
   * A parse error is raised whatever the exit status; otherwise a zero
   * status yields a record with an empty file list and any other none.
   */
  function CreateDpkgPackage(name: string, out: string, returncode: int): (r: Result<Option<Package>, Error>)
    ensures r.Failure? <==> ParseShowFormat(out).Failure?
    ensures r.Success? ==> (r.value.Some? <==> returncode == 0)
    ensures r.Success? && r.value.Some? ==>
              r.value.value == Package(name, ParseShowFormat(out).value.0, ParseShowFormat(out).value.1, [])
    ensures out == "" && returncode == 0 ==> r == Success(Some(Package(name, None, None, [])))
  {
    match ParseShowFormat(out)
    case Failure(e) => Failure(e)
    case Success((version, size)) =>
      if returncode == 0 then Success(Some(Package(name, version, size, []))) else Success(None)
  }

  lemma {:induction false} LineEndAfter(x: string, y: string)
    requires '\n' !in x
    ensures LineEnd(x + "\n" + y) == |x| + 1
    decreases |x|
  {
    if |x| > 0 {
      assert (x + "\n" + y)[1..] == x[1..] + "\n" + y;
      LineEndAfter(x[1..], y);
    }
  }

  /** The fields of one printed record line are the version and the size. */
  lemma RecordLineFields(version: string, digits: string)
    requires version != "" && NoSpace(version) && digits != "" && NoSpace(digits)
    ensures Fields(version + "\t" + digits + "\n") == [version, digits]
  {
    var tail := digits + "\n";
    LastFieldLine(digits);
    assert version + "\t" + digits + "\n" == version + (['\t'] + tail);
    FieldsOfWord(version, ['\t'] + tail);
    FieldsSkip('\t', tail);
  }

  /** A word ending the line is its only field. */
  lemma LastFieldLine(w: string)
    requires w != "" && NoSpace(w)
    ensures Fields(w + "\n") == [w]
  {
    FieldsOfWord(w, "\n");
    assert "\n" == ['\n'] + "";
    FieldsSkip('\n', "");
  }

  /** The first line of the output is the printed record line. */
  lemma RecordFirstLine(version: string, digits: string, rest: string)
    requires NoSpace(version) && NoSpace(digits)
    ensures FirstLine(version + "\t" + digits + "\n" + rest) == Some(version + "\t" + digits + "\n")
  {
    var x := version + "\t" + digits;
    assert '\n' !in x by {
      forall i | 0 <= i < |x| ensures x[i] != '\n' {
        if i < |version| { assert !IsSpace(version[i]); }
        else if i > |version| { assert !IsSpace(digits[i - |version| - 1]); }
      }
    }
    LineEndAfter(x, rest);
    assert (x + "\n" + rest)[..|x| + 1] == x + "\n";
  }

  /** Round trip: a record printed in the requested format is read back as it was printed. */
  lemma CreateDpkgPackageRoundTrip(name: string, version: string, kb: nat, rest: string)
    requires version != "" && NoSpace(version)
    ensures CreateDpkgPackage(name, version + "\t" + NatToString(kb) + "\n" + rest, 0)
         == Success(Some(Package(name, Some(version), Some(kb * 1024), [])))
  {
    var digits := NatToString(kb);
    assert NoSpace(digits);
    RecordFirstLine(version, digits, rest);
    RecordLineFields(version, digits);
    ParseIntOfNat(kb);
  }

  /** DpkgManager's `_get_package_for_file`, on the tool's answers. */
  function DpkgLookup(query: string -> QueryResult): Lookup
  {
    f => FindDpkgForFile(query(f))
  }

  /** DpkgManager's `_create_package`, on the tool's answers (output and exit status). */
  function DpkgCreator(show: string -> (string, int)): Creator
  {
    n => CreateDpkgPackage(n, show(n).0, show(n).1)
  }

  predicate NoDuplicates(xs: seq<string>)
  {
    forall i, j :: 0 <= i < j < |xs| ==> xs[i] != xs[j]
  }

  /** `list(s)` of a set: each element once, in some order. */
  method ListOf(s: set<string>) returns (xs: seq<string>)
    ensures forall x :: x in xs <==> x in s
    ensures NoDuplicates(xs)
  {
    var rest := s;
    xs := [];
    while rest != {}
      invariant forall x :: x in xs ==> x in s && x !in rest
      invariant forall x :: x in s ==> x in xs || x in rest
      invariant rest <= s
      invariant NoDuplicates(xs)
      decreases rest
    {
      var x :| x in rest;
      xs := xs + [x];
      rest := rest - {x};
    }
  }

  function Members(xs: seq<string>): set<string>
  {
    set x | x in xs
  }

  /** The result of `identify_packages`: the packages and the unknown files as a list. */
  datatype Identified = Identified(packages: map<string, Package>, unknown: seq<string>)

  /** `identify_packages`, with the answers of `dpkg-query -S` and of `dpkg-query -W` as inputs. */
  method IdentifyPackages(files: seq<string>, query: string -> QueryResult, show: string -> (string, int))
    returns (r: Result<Identified, Error>)
    ensures r.Failure? <==> !NoneRaise(files, DpkgLookup(query), DpkgCreator(show))
    ensures r.Failure? ==>
              exists i :: (0 <= i < |files| && Raises(DpkgCreator(show), DpkgLookup(query)(files[i]))
                           && NoneRaise(files[..i], DpkgLookup(query), DpkgCreator(show))
                           && r.error == DpkgCreator(show)(DpkgLookup(query)(files[i])).error)
    ensures r.Success? ==> NoDuplicates(r.value.unknown)
    ensures r.Success? ==>
              Attributed(files, DpkgLookup(query), DpkgCreator(show),
                         Attribution(r.value.packages, Members(r.value.unknown), |r.value.packages|))
  {
    var search := SearchForFiles(files, DpkgLookup(query), DpkgCreator(show));
    match search
    case Failure(e) =>
      r := Failure(e);
    case Success(a) =>
      var unknown := ListOf(a.unknown);
      assert Members(unknown) == a.unknown;
      r := Success(Identified(a.found, unknown));
  }
}
