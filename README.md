# Django test driver and SQLite test-database rules, in Dafny

This project models two pieces of a Django fork:

* the test driver `tests/runtests.py`: how command-line labels are cut down to
  app labels, which discovered test apps are loaded, how `INSTALLED_APPS` grows
  without duplicates, how `setup` redirects settings and `teardown` restores
  them, how many test processes run, and the two search drivers `bisect_tests`
  (halve the label list until the label that breaks a given test is found) and
  `paired_tests` (try each label together with a given test);
* the SQLite backend's `DatabaseCreation` (`django/db/backends/sqlite3/creation.py`):
  the column type table, the constraint stubs, the test database name, the clone
  name and settings for parallel workers, the test database signature, and the
  create / clone / destroy steps over a file system.

Files:

| file | module | contents |
|---|---|---|
| `common.dfy` | `Common` | `Option` (Python's None) |
| `dotted.dfy` | `DottedNames` | `str.split('.')`, `'.'.join`, and the laws linking them |
| `runtests_selection.dfy` | `TestSelection` | label reduction, matching, directory filter, `get_test_modules`, the `INSTALLED_APPS` append rule, `actual_test_processes` |
| `runtests_settings.dfy` | `TestSettings` | class `TestEnvironment` (settings plus the module-level `ALWAYS_INSTALLED_APPS` list) with `Setup` and `Teardown` |
| `runtests_search.dfy` | `TestSearch` | `list.remove`, the bisection loop and its specification, the paired scan |
| `sqlite_names.dfy` | `SqliteNames` | `data_types`, stubs, `_get_test_db_name`, `os.path.splitext`, clone names and settings, `test_db_signature` |
| `sqlite_creation.dfy` | `SqliteCreation` | class `FileSystem` (name to contents), class `DatabaseCreation` with create / clone / destroy |

Inputs from the environment become parameters: a child test run
(`subprocess.call`) is the oracle `fails`, which maps a label list to "the run
reported failures". `load_app` becomes `loads`, `os.path.isfile` becomes
`isFile`, and `connection.is_in_memory_db` becomes `isInMemory`. The directory
listings, the answer typed at the confirmation prompt, `hasattr(os, 'fork')`,
the connections' `can_clone_databases` flags and `default_test_processes()` are
parameters as well. An exit through `sys.exit(n)` is the outcome `Exited(n)`.

Where the code does something other than what it evidently intends, the model
follows the code:

* The clone name is built by `'{}_{}.{}'.format(root, number, ext)`, and
  `os.path.splitext` keeps the dot in `ext`. So the worker-1 clone of
  `db.sqlite3` is `db_1..sqlite3`, with two dots (`SqliteNames.CloneNameExample`).
  The model proves this name never equals the source and differs between workers.
* `setup` saves `ROOT_URLCONF` with the default `""`. When the setting was
  missing, `teardown` therefore adds it as `""` instead of removing it.
  `SITE_ID` is not saved, so it stays `1` (`TestSettings.TeardownUndoesSetup`).
* `setup` assigns the module-level `ALWAYS_INSTALLED_APPS` list itself to
  `settings.INSTALLED_APPS` and appends to it. `teardown` restores the old
  setting, but the module-level list keeps the appended apps. In the model the
  setting holds the value `AlwaysInstalledAppsList`, a reference to that list,
  whose contents `TestEnvironment` keeps in `alwaysInstalledApps`;
  `TestEnvironment.Read` follows the reference.
* A label under `django` but outside `django.contrib` (such as `django.db`)
  reduces to `django`. That is an ancestor of every `django.contrib.*` app, so
  such a label selects all contrib apps (`TestSelection.ContribAppSelection`).
* `os.path.isfile(f)` tests the bare entry name against the working
  directory, not against the listed directory. `isFile` is applied to the bare
  name for the same reason.
* `paired_tests` returns on the first failing pair without calling `teardown`.

## Model

| member | source | states |
|---|---|---|
| `DottedNames.Split` | tests/runtests.py:126 | `label.split('.')` is never empty |
| `DottedNames.SplitDotFree` | tests/runtests.py:126 | no component of `label.split('.')` contains a dot |
| `DottedNames.Join` | tests/runtests.py:131 | definition of `'.'.join(bits)`; see `DottedNames.JoinSplit` and `DottedNames.SplitJoin` |
| `DottedNames.JoinSplit` | tests/runtests.py:126-131 | `'.'.join(label.split('.'))` is the label itself |
| `DottedNames.SplitJoin` | tests/runtests.py:126-131 | splitting the join of dot-free components gives the components back |
| `TestSelection.IsContribLabel` | tests/runtests.py:127 | definition of `bits[:2] == ['django', 'contrib']`; see `TestSelection.ReduceLabelComponents` |
| `TestSelection.ReduceLabel` | tests/runtests.py:126-131 | definition of the reduction of one label; see `TestSelection.ReduceLabelComponents` and `TestSelection.ReduceLabelIdempotent` |
| `TestSelection.ReduceLabelComponents` | tests/runtests.py:124-131 | a reduced label's components are the label's first min(3, n) components if it starts with `django`,`contrib`, and its first component otherwise |
| `TestSelection.ReduceLabelIdempotent` | tests/runtests.py:126-131 | reducing an already reduced label changes nothing |
| `TestSelection.ReduceLabels` | tests/runtests.py:124-131 | the loop builds exactly the set of reductions of the given labels |
| `TestSelection.Matches` | tests/runtests.py:152-155 | definition of the exact-or-ancestor `match`; see `TestSelection.MatchIsComponentPrefix` |
| `TestSelection.Selected` | tests/runtests.py:149-157 | definition of `module_found_in_labels`; see `TestSelection.ModuleFoundInLabels`, `TestSelection.SelectedBySet`, `TestSelection.TestAppSelection` and `TestSelection.ContribAppSelection` |
| `TestSelection.MatchIsComponentPrefix` | tests/runtests.py:152-155 | the exact-or-ancestor match holds iff the label's dotted components are a prefix of the module label's components |
| `TestSelection.LabelMatchesItsReduction` | tests/runtests.py:124-157 | every label matches its own reduction, so a label always names an app or something inside one |
| `TestSelection.ModuleFoundInLabels` | tests/runtests.py:149-157 | `module_found_in_labels` is true iff no labels were given or the module label matches some reduced label, that is iff `Selected` holds |
| `TestSelection.SelectedBySet` | tests/runtests.py:149-157 | testing the set of reduced labels selects the same modules as testing the reduction of each given label; no labels selects everything |
| `TestSelection.TestAppSelection` | tests/runtests.py:141-157 | a tests-directory app runs iff no labels were given or some non-contrib label's first component is its name |
| `TestSelection.ContribAppSelection` | tests/runtests.py:141-157 | `django.contrib.<app>` runs iff no labels were given, or a label is `django.contrib`, the app or inside it, or starts with `django` but not `django.contrib` |
| `TestSelection.Skipped` | tests/runtests.py:67-72 | definition of the five skip conditions; see `TestSelection.DiscoveredMembers` |
| `TestSelection.Discovered` | tests/runtests.py:66-74 | definition of what one listing contributes, in order; see `TestSelection.CollectModules` and `TestSelection.DiscoveredMembers` |
| `TestSelection.DiscoveredModules` | tests/runtests.py:61-75 | definition of the result of `get_test_modules`; see `TestSelection.GetTestModules` and `TestSelection.DiscoveredModulesShape` |
| `TestSelection.CollectModules` | tests/runtests.py:66-74 | the loop over one listing appends, in listing order, exactly the entries the filter keeps, tagged with the listing's package |
| `TestSelection.GetTestModules` | tests/runtests.py:61-75 | the tests-directory modules (tag None) come first, then the contrib modules (tag `django.contrib`), each in listing order |
| `TestSelection.DiscoveredMembers` | tests/runtests.py:67-74 | an entry is kept iff it has no dot, is not `__pycache__`, does not start with `sql`, is not in `SUBDIRS_TO_SKIP` and is not a file |
| `TestSelection.DiscoveredModulesShape` | tests/runtests.py:61-75 | every discovered module comes from one of the two listings, with its matching tag, and passed all five skip conditions |
| `TestSelection.ModuleLabel` | tests/runtests.py:142-145 | definition of `module_label`; see `TestSelection.ModuleLabelComponents` |
| `TestSelection.ModuleLabelComponents` | tests/runtests.py:142-145 | a module label's dotted components are its package's components followed by the module name |
| `TestSelection.LoadedApps` | tests/runtests.py:141-165 | definition of the labels the module loop offers for appending; see `TestSelection.LoadedAppsMembers` |
| `TestSelection.LoadedAppsMembers` | tests/runtests.py:141-165 | a label is a candidate for `INSTALLED_APPS` iff it is a discovered module's label, is selected and `load_app` returns something truthy |
| `TestSelection.AppendNew` | tests/runtests.py:162-165 | definition of appending each label not yet present; see `TestSelection.AppendNewMembers`, `TestSelection.AppendNewKeepsPrefix` and `TestSelection.AppendNewKeepsDistinct` |
| `TestSelection.InstallStep` | tests/runtests.py:159-165 | one pass of the module loop appends the module label exactly when it is selected, loaded and not yet installed |
| `TestSelection.AppendNewMembers` | tests/runtests.py:162-165 | after the appends, `INSTALLED_APPS` holds exactly the old apps and the candidates |
| `TestSelection.AppendNewKeepsPrefix` | tests/runtests.py:164-165 | the apps already installed keep their positions; new ones are only appended |
| `TestSelection.AppendNewKeepsDistinct` | tests/runtests.py:162-165 | if `INSTALLED_APPS` had no duplicate, it still has none |
| `TestSelection.ActualTestProcesses` | tests/runtests.py:182-193 | a nonzero `parallel` is returned unchanged; zero gives the default process count exactly when fork exists and every connection can clone, and 1 otherwise |
| `TestSettings.AlwaysInstalledAppsDistinct` | tests/runtests.py:42-58 | `ALWAYS_INSTALLED_APPS` names each app once |
| `TestSettings.PathJoin` | tests/runtests.py:98-99 | `os.path.join` returns an absolute second part as is, and otherwise extends the first part and ends with the second |
| `TestSettings.HasSavedSettings` | tests/runtests.py:85-92 | definition of the settings `setup` reads without a default, used as `Setup`'s precondition |
| `TestSettings.SavedState` | tests/runtests.py:85-92 | the saved state has exactly the six keys, holds the current values, and holds `""` for a missing `ROOT_URLCONF` |
| `TestSettings.Redirected` | tests/runtests.py:95-101 | definition of the seven redirections, in source order; see `TestSettings.TestEnvironment.Setup` and `TestSettings.TeardownUndoesSetup` |
| `TestSettings.TeardownUndoesSetup` | tests/runtests.py:85-101 | restoring the saved state over the redirected settings gives back the original settings, except that `SITE_ID` is 1 and a missing `ROOT_URLCONF` is `""` |
| `TestSettings.TestEnvironment.Read` | tests/runtests.py:95 | reading a setting that holds the module-level list gives that list's contents; any other value is read as stored |
| `TestSettings.TestEnvironment.Setup` | tests/runtests.py:83-167 | returns the saved state. The settings become the redirected ones, with `INSTALLED_APPS` referring to the module-level list. That list gets the selected, loaded, not yet present module labels appended in discovery order, and reading `INSTALLED_APPS` gives it. No duplicate is introduced |
| `TestSettings.TestEnvironment.InstallTestApps` | tests/runtests.py:141-165 | the module loop appends exactly the new candidates, in order, to the module-level list; a list without duplicates keeps none |
| `TestSettings.TestEnvironment.Teardown` | tests/runtests.py:170-179 | every saved key is set back to its saved value, nothing else changes, and the module-level list keeps its apps |
| `TestSearch.ChosenLabels` | tests/runtests.py:220 | definition of `test_labels or get_installed()`; see `TestSearch.BisectLabels` and `TestSearch.PairedTests` |
| `TestSearch.RemoveFirst` | tests/runtests.py:226-230 | `list.remove` with a missing label ignored: an absent label leaves the list alone, a present one shortens it by one |
| `TestSearch.RemoveFirstMultiset` | tests/runtests.py:226-230 | exactly one occurrence of the label leaves the multiset of labels |
| `TestSearch.RemoveFirstCutsFirst` | tests/runtests.py:226-230 | the first occurrence is cut out and the rest keeps its order |
| `TestSearch.WithoutPinned` | tests/runtests.py:226-230 | definition of the two removals before the search; see `TestSearch.RemoveFirst`, `TestSearch.BisectLabels` and `TestSearch.PairedTests` |
| `TestSearch.HalfA` | tests/runtests.py:244 | definition of `test_labels_a`; see `TestSearch.HalvesPartition` |
| `TestSearch.HalfB` | tests/runtests.py:245 | definition of `test_labels_b`; see `TestSearch.HalvesPartition` |
| `TestSearch.HalvesPartition` | tests/runtests.py:243-245 | both halves end in the bisection label; without it they are non-empty, strictly shorter, and concatenate to the current list |
| `TestSearch.BisectFrom` | tests/runtests.py:242-268 | the remaining list is never longer than the start, and is the start itself when it is no shorter |
| `TestSearch.BisectOneRound` | tests/runtests.py:242-268 | one round either stops on the current list or continues from its first or its second half |
| `TestSearch.BisectRemainingIsSlice` | tests/runtests.py:255-262 | the labels left are a contiguous run of the starting labels |
| `TestSearch.BisectNarrowedFails` | tests/runtests.py:255-262 | once narrowed, the labels left fail when run with the bisection label |
| `TestSearch.BisectVerdicts` | tests/runtests.py:242-271 | a source is reported iff one label is left. The search stops on a longer list only when both halves fail or neither does. An empty start is the only way to end with nothing |
| `TestSearch.BisectSourceFails` | tests/runtests.py:242-271 | a source found from two or more labels is one of them and fails together with the bisection label |
| `TestSearch.BisectLabels` | tests/runtests.py:220-271 | the driver chooses the labels, removes the bisection label and `model_inheritance_same_model_name`, and its loop computes exactly `BisectFrom` |
| `TestSearch.BisectTests` | tests/runtests.py:217-272 | bisection followed by the restore of the saved settings |
| `TestSearch.FindProblemPair` | tests/runtests.py:299-305 | returns the first label whose run with the paired test fails, after checking that every earlier one passes; None means no label fails |
| `TestSearch.PairedTests` | tests/runtests.py:275-308 | the first failing pair over the prepared list; `teardown` runs exactly when none fails |
| `SqliteNames.LengthBoundedFieldsUseVarchar` | django/db/backends/sqlite3/creation.py:14-30 | Char, CommaSeparatedInteger, File, FilePath and Slug fields map to `varchar(%(max_length)s)` |
| `SqliteNames.IPAddressFieldsFixedWidth` | django/db/backends/sqlite3/creation.py:24-25 | the IP address fields map to `char(15)` and `char(39)` |
| `SqliteNames.SqlForPendingReferences` | django/db/backends/sqlite3/creation.py:36-38 | SQLite gets no pending-reference statements |
| `SqliteNames.SqlRemoveTableConstraints` | django/db/backends/sqlite3/creation.py:40-42 | SQLite gets no constraint-removal statements |
| `SqliteNames.TestDbName` | django/db/backends/sqlite3/creation.py:44-48 | the name is never empty. A non-empty `TEST_NAME` is used verbatim; None or `""` gives `:memory:`. Any name other than `:memory:` is the configured `TEST_NAME` |
| `SqliteNames.Splitext` | django/db/backends/sqlite3/creation.py:77 | root and extension concatenate to the path. The extension is empty or one leading dot followed by no dot and no slash. A non-empty extension has a character other than a dot before it in the last path component. An empty one means no dot there follows a character other than a dot |
| `SqliteNames.SplitextExample` | django/db/backends/sqlite3/creation.py:77 | `os.path.splitext('db.sqlite3')` is `('db', '.sqlite3')` |
| `SqliteNames.DecimalText` | django/db/backends/sqlite3/creation.py:78 | definition of `str(number)` inside the format string; see `SqliteNames.DecimalRoundTrip` |
| `SqliteNames.DecimalRoundTrip` | django/db/backends/sqlite3/creation.py:78 | the decimal text of the worker number reads back as the number |
| `SqliteNames.CloneName` | django/db/backends/sqlite3/creation.py:77-78 | definition of `'{}_{}.{}'.format(root, number, ext)`; see `SqliteNames.CloneNameExample`, `SqliteNames.CloneNameDiffers` and `SqliteNames.CloneNameInjective` |
| `SqliteNames.CloneNameExample` | django/db/backends/sqlite3/creation.py:77-78 | `db.sqlite3` cloned for worker 1 is `db_1..sqlite3` |
| `SqliteNames.CloneNameDiffers` | django/db/backends/sqlite3/creation.py:77-78 | a clone name is never the source name |
| `SqliteNames.CloneNameInjective` | django/db/backends/sqlite3/creation.py:77-78 | equal clone names mean equal worker numbers |
| `SqliteNames.CloneSettings` | django/db/backends/sqlite3/creation.py:70-79 | an in-memory source keeps its settings; otherwise the keys stay, only `NAME` changes, and it becomes the clone name |
| `SqliteNames.CloneSettingsSeparate` | django/db/backends/sqlite3/creation.py:70-79 | for a file source, every worker's clone `NAME` differs from the source and from every other worker's |
| `SqliteNames.Signature` | django/db/backends/sqlite3/creation.py:111-124 | the signature starts with `NAME`, has length 1 or 2, and has the alias as its second element exactly when the test database is in memory |
| `SqliteNames.MemorySignaturesDiffer` | django/db/backends/sqlite3/creation.py:111-124 | in-memory test databases of connections with different aliases get different signatures |
| `SqliteNames.FileSignaturesByName` | django/db/backends/sqlite3/creation.py:119-124 | for file test databases the signatures are equal iff the `NAME`s are, whatever the aliases and `TEST_NAME`s |
| `SqliteCreation.FileSystem.Exists` | django/db/backends/sqlite3/creation.py:56 | definition of `os.access(name, os.F_OK)` (also at line 87): the name is a key of the file map; see `SqliteCreation.DatabaseCreation.CreateTestDb` and `SqliteCreation.DatabaseCreation.CloneTestDb` |
| `SqliteCreation.FileSystem.Remove` | django/db/backends/sqlite3/creation.py:61 | `os.remove` succeeds iff the file exists and is not protected, and then only that file is gone |
| `SqliteCreation.FileSystem.Copy` | django/db/backends/sqlite3/creation.py:98 | `shutil.copy` succeeds iff the source exists, the target is not protected and differs from the source, and then only the target changes, to the source's contents |
| `SqliteCreation.DatabaseCreation.CreateTestDb` | django/db/backends/sqlite3/creation.py:50-68 | an in-memory or absent test database changes nothing. An existing one is removed only with autoclobber or a `yes` answer, otherwise exit 1. A failed removal exits with 2. On success the test name is returned and no file of that name remains |
| `SqliteCreation.DatabaseCreation.CloneTestDb` | django/db/backends/sqlite3/creation.py:81-101 | an in-memory source, or an existing clone kept by `keepdb`, changes nothing. Otherwise the clone ends up with the source's contents and no other file changes. A failed delete or copy exits with 2 |
| `SqliteCreation.DatabaseCreation.DestroyTestDb` | django/db/backends/sqlite3/creation.py:103-106 | only a non-empty name other than `:memory:` is removed; an empty or in-memory name leaves the files unchanged; a failed removal raises |

## Left out

- Printing, logging handlers, verbosity and the confirmation prompt's text. The model keeps only the decisions they do not change; the typed answer is the parameter `answer`.
- Running child test processes: `fails` stands for `subprocess.call(...)`. The command-line arguments passed to the child (`--settings`, `--failfast`, `--verbosity`, `--noinput`) are not modelled.
- `bisect_tests` and `paired_tests` call `setup` with two arguments, but it takes three. As written, both raise `TypeError` before their loops. `BisectTests` and `PairedTests` model the code after `setup` and take its saved state as an input.
- `midpoint = len(test_labels)/2` is Python 2 integer division and is modelled as floor division. Under Python 3 the slice would raise `TypeError`.
- The `iteration` pass counter of `bisect_tests` only appears in messages and is not modelled.
- `get_apps()`, `get_installed()`, `load_app`, `DiscoverRunner`, `default_test_processes()`, `connections.all()` and `connection.is_in_memory_db`: these are Django code that is not part of this model. They appear as parameters (`installed`, `loads`, `defaultProcesses`, `canClone`, `isInMemory`).
- `django_tests`, the argument parser and main block, environment variables, the temporary directory and its `atexit` removal (tests/runtests.py:23-32, 196-214, 310-397): process setup with no decision rule of its own.
- `set_autocommit` (creation.py:108-109) only sets a driver attribute.
- `os.listdir`, `os.path.isfile`, `os.access`, `os.remove` and `shutil.copy` act on an abstract map from file names to contents. Directories, permissions other than the `protected` set, and the messages of the exceptions are not modelled.
- `TestSettings.PathJoin`: models `os.path.join` for POSIX paths and two arguments only.
- `SqliteNames.CloneSettings`: an in-memory source returns the same dictionary object in the source and an equal map in the model; object identity is not modelled.
- `TestSettings.Setting`: settings values are strings, lists of strings, numbers, None, or a reference to the module-level `ALWAYS_INSTALLED_APPS` list. Other Python types and other shared list objects are not distinguished.
- `SqliteNames.LengthBoundedFieldsUseVarchar`: states only that those five field types use the varchar template, not that no other type does.
