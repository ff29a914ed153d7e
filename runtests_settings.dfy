/**
 * `setup` and `teardown` of `tests/runtests.py`: the settings they save,
 * redirect and restore, and the in-place growth of `INSTALLED_APPS`.
 *
 * `setup` assigns the module-level list `ALWAYS_INSTALLED_APPS` itself to
 * `settings.INSTALLED_APPS` and then appends to it, so the appends grow that
 * module-level list. The settings value `AlwaysInstalledAppsList` stands for
 * a reference to that list object, whose contents `TestEnvironment` keeps in
 * `alwaysInstalledApps`.
 */
module TestSettings {
  import opened DottedNames
  import opened TestSelection

  /**
   * A settings value: a string, a list or tuple of strings, a number, None,
   * or the module-level `ALWAYS_INSTALLED_APPS` list object itself.
   */
  datatype Setting = Text(text: string) | Texts(items: seq<string>) | Number(n: int) | Null | AlwaysInstalledAppsList

  const InstalledAppsKey := "INSTALLED_APPS"
  const RootUrlconfKey := "ROOT_URLCONF"
  const TemplateDirsKey := "TEMPLATE_DIRS"
  const LanguageCodeKey := "LANGUAGE_CODE"
  const StaticUrlKey := "STATIC_URL"
  const StaticRootKey := "STATIC_ROOT"
  const SiteIdKey := "SITE_ID"

  const TestTemplateDir := "templates"

  const AlwaysInstalledApps: seq<string> := [
    "django.contrib.contenttypes",
    "django.contrib.auth",
    "django.contrib.sites",
    "django.contrib.flatpages",
    "django.contrib.redirects",
    "django.contrib.sessions",
    "django.contrib.messages",
    "django.contrib.comments",
    "django.contrib.admin",
    "django.contrib.admindocs",
    "django.contrib.staticfiles",
    "django.contrib.humanize"
  ]

  /** `os.path.join(a, b)` on POSIX paths. */
  function PathJoin(a: string, b: string): (path: string)
    ensures IsPrefix("/", b) ==> path == b
    ensures !IsPrefix("/", b) ==> IsPrefix(a, path) && |b| <= |path| && path[|path| - |b|..] == b
  {
    if IsPrefix("/", b) then b
    else if a == "" || a[|a| - 1] == '/' then a + b
    else a + "/" + b
  }

  /** The settings `setup` reads without a default (reading a missing one raises). */
  predicate HasSavedSettings(s: map<string, Setting>)
  {
    InstalledAppsKey in s && TemplateDirsKey in s && LanguageCodeKey in s &&
    StaticUrlKey in s && StaticRootKey in s
  }

  /** The `state` dictionary of `setup`; `ROOT_URLCONF` defaults to the empty string. */
  function SavedState(s: map<string, Setting>): (state: map<string, Setting>)
    requires HasSavedSettings(s)
    ensures state.Keys == {InstalledAppsKey, RootUrlconfKey, TemplateDirsKey, LanguageCodeKey, StaticUrlKey, StaticRootKey}
    ensures forall k :: k in state && k in s ==> state[k] == s[k]
    ensures RootUrlconfKey !in s ==> state[RootUrlconfKey] == Text("")
  {
    map[
      InstalledAppsKey := s[InstalledAppsKey],
      RootUrlconfKey := if RootUrlconfKey in s then s[RootUrlconfKey] else Text(""),
      TemplateDirsKey := s[TemplateDirsKey],
      LanguageCodeKey := s[LanguageCodeKey],
      StaticUrlKey := s[StaticUrlKey],
      StaticRootKey := s[StaticRootKey]
    ]
  }

  /** The settings while the tests run, in the order `setup` assigns them. */
  function Redirected(s: map<string, Setting>, runtestsDir: string, tempDir: string): map<string, Setting>
  {
    s[InstalledAppsKey := AlwaysInstalledAppsList]
     [RootUrlconfKey := Text("urls")]
     [StaticUrlKey := Text("/static/")]
     [StaticRootKey := Text(PathJoin(tempDir, "static"))]
     [TemplateDirsKey := Texts([PathJoin(runtestsDir, TestTemplateDir)])]
     [LanguageCodeKey := Text("en")]
     [SiteIdKey := Number(1)]
  }

  /**
   * Restoring the saved state over the redirected settings gives back the
   * original settings, except that `SITE_ID` stays 1 and a missing
   * `ROOT_URLCONF` comes back as the empty string.
   */
  lemma TeardownUndoesSetup(s: map<string, Setting>, runtestsDir: string, tempDir: string)
    requires HasSavedSettings(s)
    ensures Redirected(s, runtestsDir, tempDir) + SavedState(s) ==
      s[SiteIdKey := Number(1)][RootUrlconfKey := SavedState(s)[RootUrlconfKey]]
  {
    var lhs := Redirected(s, runtestsDir, tempDir) + SavedState(s);
    var rhs := s[SiteIdKey := Number(1)][RootUrlconfKey := SavedState(s)[RootUrlconfKey]];
    var saved := SavedState(s);
    assert lhs.Keys == rhs.Keys;
    forall k | k in lhs ensures lhs[k] == rhs[k] {
      if k in saved {
        assert lhs[k] == saved[k];
      } else {
        assert k == SiteIdKey || (k in s && lhs[k] == s[k]);
      }
    }
  }

  /** The settings object and the contents of the module-level `ALWAYS_INSTALLED_APPS` list. */
  class TestEnvironment {
    var settings: map<string, Setting>
    var alwaysInstalledApps: seq<string>

    constructor (initial: map<string, Setting>)
      ensures settings == initial && alwaysInstalledApps == AlwaysInstalledApps
    {
      settings := initial;
      alwaysInstalledApps := AlwaysInstalledApps;
    }

    /** What reading `settings.<key>` gives, following a reference to the module-level list. */
    function Read(key: string): (v: Setting)
      reads this
      requires key in settings
      ensures v != AlwaysInstalledAppsList
      ensures settings[key] == AlwaysInstalledAppsList ==> v == Texts(alwaysInstalledApps)
      ensures settings[key] != AlwaysInstalledAppsList ==> v == settings[key]
    {
      if settings[key] == AlwaysInstalledAppsList then Texts(alwaysInstalledApps) else settings[key]
    }

    /**
     * `setup`. The directory listings, `os.path.isfile`, `load_app`, and the
     * two directories are inputs; verbosity and parallelism only print.
     */
    method Setup(testLabels: seq<string>, runtestsListing: seq<string>, contribListing: seq<string>,
                 isFile: string -> bool, loads: string -> bool, runtestsDir: string, tempDir: string)
      returns (state: map<string, Setting>)
      requires HasSavedSettings(settings)
      modifies this
      ensures state == SavedState(old(settings))
      ensures settings == Redirected(old(settings), runtestsDir, tempDir)
      ensures alwaysInstalledApps ==
        AppendNew(old(alwaysInstalledApps), LoadedApps(DiscoveredModules(runtestsListing, contribListing, isFile), testLabels, loads))
      ensures Read(InstalledAppsKey) == Texts(alwaysInstalledApps)
      ensures Distinct(old(alwaysInstalledApps)) ==> Distinct(alwaysInstalledApps)
    {
      state := map[
        InstalledAppsKey := settings[InstalledAppsKey],
        RootUrlconfKey := if RootUrlconfKey in settings then settings[RootUrlconfKey] else Text(""),
        TemplateDirsKey := settings[TemplateDirsKey],
        LanguageCodeKey := settings[LanguageCodeKey],
        StaticUrlKey := settings[StaticUrlKey],
        StaticRootKey := settings[StaticRootKey]
      ];

      settings := settings[InstalledAppsKey := AlwaysInstalledAppsList];
      settings := settings[RootUrlconfKey := Text("urls")];
      settings := settings[StaticUrlKey := Text("/static/")];
      settings := settings[StaticRootKey := Text(PathJoin(tempDir, "static"))];
      settings := settings[TemplateDirsKey := Texts([PathJoin(runtestsDir, TestTemplateDir)])];
      settings := settings[LanguageCodeKey := Text("en")];
      settings := settings[SiteIdKey := Number(1)];

      var testModules := GetTestModules(runtestsListing, contribListing, isFile);
      var labelSet := ReduceLabels(testLabels);
      InstallTestApps(testModules, testLabels, labelSet, loads);
    }

    /**
     * The loop of `setup` over the discovered modules: a selected module that
     * `load_app` loads is appended to `INSTALLED_APPS`, that is to the
     * module-level list, unless already there.
     */
    method InstallTestApps(testModules: seq<TestModule>, testLabels: seq<string>, labelSet: set<string>, loads: string -> bool)
      requires labelSet == set l | l in testLabels :: ReduceLabel(l)
      modifies this`alwaysInstalledApps
      ensures alwaysInstalledApps == AppendNew(old(alwaysInstalledApps), LoadedApps(testModules, testLabels, loads))
      ensures Distinct(old(alwaysInstalledApps)) ==> Distinct(alwaysInstalledApps)
    {
      for i := 0 to |testModules|
        invariant alwaysInstalledApps == AppendNew(old(alwaysInstalledApps), LoadedApps(testModules[..i], testLabels, loads))
      {
        var moduleLabel := ModuleLabel(testModules[i]);
        var found := ModuleFoundInLabels(moduleLabel, testLabels, labelSet);
        InstallStep(old(alwaysInstalledApps), testModules, i, testLabels, loads, alwaysInstalledApps);
        if found && loads(moduleLabel) {
          if moduleLabel !in alwaysInstalledApps {
            alwaysInstalledApps := alwaysInstalledApps + [moduleLabel];
          }
        }
      }
      assert testModules[..|testModules|] == testModules;
      if Distinct(old(alwaysInstalledApps)) {
        AppendNewKeepsDistinct(old(alwaysInstalledApps), LoadedApps(testModules, testLabels, loads));
      }
    }

    /** `teardown`: every saved key gets its saved value back; nothing else changes. */
    method Teardown(state: map<string, Setting>)
      modifies this
      ensures settings == old(settings) + state
      ensures alwaysInstalledApps == old(alwaysInstalledApps)
    {
      var pending := state.Keys;
      while pending != {}
        invariant pending <= state.Keys
        invariant settings == old(settings) + map k | k in state.Keys - pending :: state[k]
        invariant alwaysInstalledApps == old(alwaysInstalledApps)
        decreases pending
      {
        var key :| key in pending;
        settings := settings[key := state[key]];
        pending := pending - {key};
      }
      assert state == map k | k in state.Keys - pending :: state[k];
    }
  }

  /** The initial `ALWAYS_INSTALLED_APPS` names every app once. */
  lemma AlwaysInstalledAppsDistinct()
    ensures Distinct(AlwaysInstalledApps)
  {
  }
}
