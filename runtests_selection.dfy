/**
 * The decision rules of the test driver `tests/runtests.py` that pick which
 * test applications run: the reduction of command-line labels to app labels,
 * the exact-or-ancestor match, the directory-entry filter of
 * `get_test_modules`, the de-duplicating append to `INSTALLED_APPS`, and the
 * choice of the number of test processes.
 */
module TestSelection {
  import opened Common
  import opened DottedNames

  const ContribModulePath := "django.contrib"

  const SubdirsToSkip: seq<string> := [
    "templates",
    "test_discovery_sample",
    "test_discovery_sample2",
    "test_runner_deprecation_app",
    "test_runner_invalid_app"
  ]

  /** One discovered test application: its parent package (None for the tests directory) and its name. */
  datatype TestModule = TestModule(modpath: Option<string>, name: string)

  // ---------------------------------------------------------------------------
  // Reducing command-line labels

  /** `bits[:2] == ['django', 'contrib']`. */
  predicate IsContribLabel(bits: seq<string>)
  {
    |bits| >= 2 && bits[0] == "django" && bits[1] == "contrib"
  }

  /** How many leading components of a label survive the reduction. */
  function ReducedLength(bits: seq<string>): nat
  {
    if IsContribLabel(bits) then (if |bits| < 3 then |bits| else 3) else 1
  }

  /** A command-line label cut down to the app it names. */
  function ReduceLabel(lbl: string): string
  {
    var bits := Split(lbl);
    Join(if IsContribLabel(bits) then (if |bits| < 3 then bits else bits[..3]) else bits[..1])
  }

  /**
   * A label under `django.contrib` keeps at most its first three components,
   * any other label only its first one.
   */
  lemma ReduceLabelComponents(lbl: string)
    ensures ReducedLength(Split(lbl)) <= |Split(lbl)|
    ensures Split(ReduceLabel(lbl)) == Split(lbl)[..ReducedLength(Split(lbl))]
  {
    var bits := Split(lbl);
    var kept := bits[..ReducedLength(bits)];
    assert bits[..|bits|] == bits;
    SplitDotFree(lbl);
    assert forall i :: 0 <= i < |kept| ==> kept[i] == bits[i];
    SplitJoin(kept);
  }

  /** Reducing a reduced label changes nothing. */
  lemma ReduceLabelIdempotent(lbl: string)
    ensures ReduceLabel(ReduceLabel(lbl)) == ReduceLabel(lbl)
  {
    var r := ReduceLabel(lbl);
    ReduceLabelComponents(lbl);
    ReduceLabelComponents(r);
    JoinSplit(r);
    var bits := Split(lbl);
    var rbits := Split(r);
    assert IsContribLabel(rbits) == IsContribLabel(bits) by {
      if IsContribLabel(bits) { assert rbits == bits[..ReducedLength(bits)]; }
    }
    assert rbits[..ReducedLength(rbits)] == rbits;
  }

  // ---------------------------------------------------------------------------
  // Matching discovered modules against the reduced labels

  /** The `match` of `setup`: an exact match or an ancestor match. */
  predicate Matches(moduleLabel: string, lbl: string)
  {
    moduleLabel == lbl || IsPrefix(lbl + ".", moduleLabel)
  }

  /** `module_found_in_labels`: no labels selects everything. */
  predicate Selected(moduleLabel: string, testLabels: seq<string>)
  {
    |testLabels| == 0 || exists l :: l in testLabels && Matches(moduleLabel, ReduceLabel(l))
  }

  /** A match is exactly: the label's components are a prefix of the module's components. */
  lemma MatchIsComponentPrefix(moduleLabel: string, lbl: string)
    ensures Matches(moduleLabel, lbl) <==> IsPrefix(Split(lbl), Split(moduleLabel))
  {
    if moduleLabel == lbl {
    } else if IsPrefix(lbl + ".", moduleLabel) {
      var rest := moduleLabel[|lbl| + 1..];
      assert moduleLabel == lbl + "." + rest;
      SplitAppend(lbl, rest);
    }
    if IsPrefix(Split(lbl), Split(moduleLabel)) {
      var whole := Split(moduleLabel);
      var tail := whole[|Split(lbl)|..];
      assert whole == Split(lbl) + tail;
      JoinSplit(moduleLabel);
      JoinSplit(lbl);
      if |tail| > 0 {
        JoinAppend(Split(lbl), tail);
        assert moduleLabel == lbl + "." + Join(tail);
        assert moduleLabel[..|lbl + "."|] == lbl + ".";
      }
    }
  }

  /** Every label selects the module it was reduced to, so a label always names an app or lies inside one. */
  lemma LabelMatchesItsReduction(lbl: string)
    ensures Matches(lbl, ReduceLabel(lbl))
  {
    ReduceLabelComponents(lbl);
    MatchIsComponentPrefix(lbl, ReduceLabel(lbl));
  }

  /**
   * An app of the tests directory (a dot-free name) runs iff no labels were
   * given or some label outside `django.contrib` starts with its name.
   */
  lemma TestAppSelection(name: string, testLabels: seq<string>)
    requires '.' !in name
    ensures Selected(name, testLabels) <==>
      |testLabels| == 0 ||
      exists l :: l in testLabels && !IsContribLabel(Split(l)) && Split(l)[0] == name
  {
    SplitNoDot(name);
    forall l | l in testLabels
      ensures Matches(name, ReduceLabel(l)) <==> (!IsContribLabel(Split(l)) && Split(l)[0] == name)
    {
      MatchIsComponentPrefix(name, ReduceLabel(l));
      ReduceLabelComponents(l);
    }
  }

  /** Which command-line label components select the contrib app `app`. */
  predicate CoversContribApp(bits: seq<string>, app: string)
  {
    if IsContribLabel(bits) then |bits| == 2 || bits[2] == app
    else |bits| >= 1 && bits[0] == "django"
  }

  /**
   * A contrib app `django.contrib.<app>` runs iff no labels were given, or a
   * label names `django.contrib`, that app or something inside it, or a label
   * starts with `django` but not `django.contrib` (it reduces to `django`,
   * which is an ancestor of every contrib app).
   */
  lemma ContribAppSelection(app: string, testLabels: seq<string>)
    requires '.' !in app
    ensures Selected(ContribModulePath + "." + app, testLabels) <==>
      |testLabels| == 0 || exists l :: l in testLabels && CoversContribApp(Split(l), app)
  {
    var moduleLabel := ContribModulePath + "." + app;
    var comps := ["django", "contrib", app];
    assert comps[1..] == ["contrib", app] && comps[1..][1..] == [app];
    assert Join(comps[1..]) == "contrib" + "." + app;
    assert moduleLabel == Join(comps);
    SplitJoin(comps);
    forall l | l in testLabels
      ensures Matches(moduleLabel, ReduceLabel(l)) <==> CoversContribApp(Split(l), app)
    {
      MatchIsComponentPrefix(moduleLabel, ReduceLabel(l));
      ReduceLabelComponents(l);
    }
  }

  /** The loop of `setup` that builds `test_labels_set`. */
  method ReduceLabels(testLabels: seq<string>) returns (labelSet: set<string>)
    ensures labelSet == set l | l in testLabels :: ReduceLabel(l)
  {
    labelSet := {};
    for i := 0 to |testLabels|
      invariant labelSet == set l | l in testLabels[..i] :: ReduceLabel(l)
    {
      assert testLabels[..i + 1] == testLabels[..i] + [testLabels[i]];
      labelSet := labelSet + {ReduceLabel(testLabels[i])};
    }
    assert testLabels[..|testLabels|] == testLabels;
  }

  /** Matching against the set of reduced labels is matching against the reduction of some label. */
  lemma SelectedBySet(moduleLabel: string, testLabels: seq<string>, labelSet: set<string>)
    requires labelSet == set l | l in testLabels :: ReduceLabel(l)
    ensures Selected(moduleLabel, testLabels) <==>
      (|testLabels| == 0 || exists r :: r in labelSet && Matches(moduleLabel, r))
  {
    if exists r :: r in labelSet && Matches(moduleLabel, r) {
      var r :| r in labelSet && Matches(moduleLabel, r);
      var l :| l in testLabels && r == ReduceLabel(l);
      assert Matches(moduleLabel, ReduceLabel(l));
    }
  }

  /** `module_found_in_labels` of `setup`, computed over the set of reduced labels. */
  method ModuleFoundInLabels(moduleLabel: string, testLabels: seq<string>, labelSet: set<string>) returns (found: bool)
    requires labelSet == set l | l in testLabels :: ReduceLabel(l)
    ensures found == Selected(moduleLabel, testLabels)
  {
    if |testLabels| == 0 {
      found := true;
    } else {
      found := exists r :: r in labelSet && Matches(moduleLabel, r);
    }
    SelectedBySet(moduleLabel, testLabels, labelSet);
  }

  // ---------------------------------------------------------------------------
  // Discovering test modules

  /** The `continue` condition of `get_test_modules`. */
  predicate Skipped(entry: string, isFile: string -> bool)
  {
    '.' in entry || entry == "__pycache__" || IsPrefix("sql", entry) ||
    entry in SubdirsToSkip || isFile(entry)
  }

  /** The modules one directory listing contributes, in listing order. */
  function Discovered(modpath: Option<string>, listing: seq<string>, isFile: string -> bool): seq<TestModule>
    decreases |listing|
  {
    if |listing| == 0 then []
    else
      var prev := Discovered(modpath, listing[..|listing| - 1], isFile);
      var entry := listing[|listing| - 1];
      if Skipped(entry, isFile) then prev else prev + [TestModule(modpath, entry)]
  }

  /** What `get_test_modules` returns: the tests directory's apps, then the contrib apps. */
  function DiscoveredModules(runtestsListing: seq<string>, contribListing: seq<string>, isFile: string -> bool): seq<TestModule>
  {
    Discovered(None, runtestsListing, isFile) + Discovered(Some(ContribModulePath), contribListing, isFile)
  }

  /** A listing contributes exactly its entries that are not skipped, tagged with the listing's package. */
  lemma {:induction false} DiscoveredMembers(modpath: Option<string>, listing: seq<string>, isFile: string -> bool, m: TestModule)
    ensures m in Discovered(modpath, listing, isFile) <==>
      m.modpath == modpath && m.name in listing && !Skipped(m.name, isFile)
    decreases |listing|
  {
    if |listing| > 0 {
      var init := listing[..|listing| - 1];
      DiscoveredMembers(modpath, init, isFile, m);
      assert listing == init + [listing[|listing| - 1]];
    }
  }

  /** Every discovered module is in the tests directory or in `django.contrib`, and its name passed the filter. */
  lemma DiscoveredModulesShape(runtestsListing: seq<string>, contribListing: seq<string>, isFile: string -> bool, m: TestModule)
    requires m in DiscoveredModules(runtestsListing, contribListing, isFile)
    ensures (m.modpath == None && m.name in runtestsListing) ||
            (m.modpath == Some(ContribModulePath) && m.name in contribListing)
    ensures !Skipped(m.name, isFile)
  {
    DiscoveredMembers(None, runtestsListing, isFile, m);
    DiscoveredMembers(Some(ContribModulePath), contribListing, isFile, m);
  }

  /** The inner loop of `get_test_modules` over one directory listing, appending to `modules`. */
  method CollectModules(modules: seq<TestModule>, modpath: Option<string>, listing: seq<string>, isFile: string -> bool)
    returns (result: seq<TestModule>)
    ensures result == modules + Discovered(modpath, listing, isFile)
  {
    result := modules;
    for i := 0 to |listing|
      invariant result == modules + Discovered(modpath, listing[..i], isFile)
    {
      var entry := listing[i];
      assert listing[..i + 1][..i] == listing[..i];
      if Skipped(entry, isFile) {
        continue;
      }
      result := result + [TestModule(modpath, entry)];
    }
    assert listing[..|listing|] == listing;
  }

  /** `get_test_modules`: the directory listings and `os.path.isfile` are inputs. */
  method GetTestModules(runtestsListing: seq<string>, contribListing: seq<string>, isFile: string -> bool)
    returns (modules: seq<TestModule>)
    ensures modules == DiscoveredModules(runtestsListing, contribListing, isFile)
  {
    modules := CollectModules([], None, runtestsListing, isFile);
    modules := CollectModules(modules, Some(ContribModulePath), contribListing, isFile);
  }

  /** The label a module is loaded under: `modpath.name`, or the bare name when `modpath` is empty. */
  function ModuleLabel(m: TestModule): string
  {
    if m.modpath.Some? && m.modpath.value != "" then Join([m.modpath.value, m.name]) else m.name
  }

  /**
   * The components of a module label are those of its package followed by the
   * module name itself (which has no dot, as the directory filter ensures).
   */
  lemma ModuleLabelComponents(m: TestModule)
    requires '.' !in m.name
    ensures Split(ModuleLabel(m)) ==
      (if m.modpath.Some? && m.modpath.value != "" then Split(m.modpath.value) else []) + [m.name]
  {
    SplitNoDot(m.name);
    if m.modpath.Some? && m.modpath.value != "" {
      var pkg := m.modpath.value;
      var parts := [pkg, m.name];
      assert parts[1..] == [m.name];
      assert Join(parts[1..]) == m.name;
      assert Join(parts) == pkg + "." + m.name;
      SplitAppend(pkg, m.name);
    }
  }

  // ---------------------------------------------------------------------------
  // INSTALLED_APPS

  /** No label occurs twice. */
  predicate Distinct(apps: seq<string>)
  {
    forall i, j :: 0 <= i < j < |apps| ==> apps[i] != apps[j]
  }

  /** Labels of the selected modules that `load_app` loads, in discovery order. */
  function LoadedApps(modules: seq<TestModule>, testLabels: seq<string>, loads: string -> bool): seq<string>
    decreases |modules|
  {
    if |modules| == 0 then []
    else
      var prev := LoadedApps(modules[..|modules| - 1], testLabels, loads);
      var lbl := ModuleLabel(modules[|modules| - 1]);
      if Selected(lbl, testLabels) && loads(lbl) then prev + [lbl] else prev
  }

  /** A label is loaded iff it belongs to a discovered module, is selected, and loads. */
  lemma {:induction false} LoadedAppsMembers(modules: seq<TestModule>, testLabels: seq<string>, loads: string -> bool, lbl: string)
    ensures lbl in LoadedApps(modules, testLabels, loads) <==>
      (exists m :: m in modules && ModuleLabel(m) == lbl) && Selected(lbl, testLabels) && loads(lbl)
    decreases |modules|
  {
    if |modules| > 0 {
      var init := modules[..|modules| - 1];
      LoadedAppsMembers(init, testLabels, loads, lbl);
      assert modules == init + [modules[|modules| - 1]];
    }
  }

  /** Appending `candidates` one by one, each only when not already present. */
  function AppendNew(apps: seq<string>, candidates: seq<string>): seq<string>
    decreases |candidates|
  {
    if |candidates| == 0 then apps
    else
      var prev := AppendNew(apps, candidates[..|candidates| - 1]);
      var lbl := candidates[|candidates| - 1];
      if lbl in prev then prev else prev + [lbl]
  }

  /**
   * One pass of the module loop of `setup`: module `i` is appended iff it is
   * selected, loads, and is not installed yet.
   */
  lemma InstallStep(installed: seq<string>, modules: seq<TestModule>, i: nat, testLabels: seq<string>,
                    loads: string -> bool, apps: seq<string>)
    requires i < |modules|
    requires apps == AppendNew(installed, LoadedApps(modules[..i], testLabels, loads))
    ensures var moduleLabel := ModuleLabel(modules[i]);
      AppendNew(installed, LoadedApps(modules[..i + 1], testLabels, loads)) ==
        if Selected(moduleLabel, testLabels) && loads(moduleLabel) && moduleLabel !in apps then apps + [moduleLabel] else apps
  {
    assert modules[..i + 1][..i] == modules[..i];
    var moduleLabel := ModuleLabel(modules[i]);
    var prev := LoadedApps(modules[..i], testLabels, loads);
    if Selected(moduleLabel, testLabels) && loads(moduleLabel) {
      assert LoadedApps(modules[..i + 1], testLabels, loads) == prev + [moduleLabel];
      assert (prev + [moduleLabel])[..|prev|] == prev;
    }
  }

  /** The result holds exactly the old apps and the candidates. */
  lemma {:induction false} AppendNewMembers(apps: seq<string>, candidates: seq<string>, x: string)
    ensures x in AppendNew(apps, candidates) <==> x in apps || x in candidates
    decreases |candidates|
  {
    if |candidates| > 0 {
      var init := candidates[..|candidates| - 1];
      AppendNewMembers(apps, init, x);
      assert candidates == init + [candidates[|candidates| - 1]];
    }
  }

  /** The old apps stay first, in their order. */
  lemma {:induction false} AppendNewKeepsPrefix(apps: seq<string>, candidates: seq<string>)
    ensures IsPrefix(apps, AppendNew(apps, candidates))
    decreases |candidates|
  {
    if |candidates| > 0 {
      AppendNewKeepsPrefix(apps, candidates[..|candidates| - 1]);
    }
  }

  /** No label is ever added twice. */
  lemma {:induction false} AppendNewKeepsDistinct(apps: seq<string>, candidates: seq<string>)
    requires Distinct(apps)
    ensures Distinct(AppendNew(apps, candidates))
    decreases |candidates|
  {
    if |candidates| > 0 {
      AppendNewKeepsDistinct(apps, candidates[..|candidates| - 1]);
    }
  }

  // ---------------------------------------------------------------------------
  // Number of test processes

  /**
   * `actual_test_processes`: `hasFork` is `hasattr(os, 'fork')`, `canClone`
   * lists `can_clone_databases` of every connection, `defaultProcesses` is
   * `default_test_processes()`.
   */
  function ActualTestProcesses(parallel: int, hasFork: bool, canClone: seq<bool>, defaultProcesses: int): (n: int)
    ensures parallel != 0 ==> n == parallel
    ensures parallel == 0 ==> n == 1 || n == defaultProcesses
    ensures parallel == 0 && n != 1 ==> hasFork && forall i :: 0 <= i < |canClone| ==> canClone[i]
    ensures parallel == 0 && hasFork && (forall i :: 0 <= i < |canClone| ==> canClone[i]) ==> n == defaultProcesses
  {
    if parallel == 0 then
      if !hasFork then 1
      else if forall i :: 0 <= i < |canClone| ==> canClone[i] then defaultProcesses
      else 1
    else parallel
  }
}
