/**
 * The test database lifecycle of the SQLite backend
 * (`django/db/backends/sqlite3/creation.py`): creating, cloning and
 * destroying the test database file. The file system is a map from file
 * names to contents; `sys.exit(n)` becomes the outcome `Exited(n)`.
 */
module SqliteCreation {
  import opened Common
  import opened SqliteNames

  type Bytes = seq<bv8>

  /** How an operation ends: normally with a value, through `sys.exit`, or with an uncaught exception. */
  datatype Outcome<T> = Done(value: T) | Exited(code: int) | Raised

  /**
   * The files the operations see. Removing a `protected` file or copying onto
   * one fails (permission denied), as does copying a file that is missing or
   * onto itself.
   */
  class FileSystem {
    var files: map<string, Bytes>
    const protected: set<string>

    constructor (files: map<string, Bytes>, protected: set<string>)
      ensures this.files == files && this.protected == protected
    {
      this.files := files;
      this.protected := protected;
    }

    /** `os.access(name, os.F_OK)`. */
    predicate Exists(name: string)
      reads this
    {
      name in files
    }

    /** `os.remove(name)`; `ok` is false where it raises. */
    method Remove(name: string) returns (ok: bool)
      modifies this
      ensures ok <==> name in old(files) && name !in protected
      ensures files == if ok then old(files) - {name} else old(files)
    {
      ok := name in files && name !in protected;
      if ok {
        files := files - {name};
      }
    }

    /** `shutil.copy(source, target)`; `ok` is false where it raises. */
    method Copy(source: string, target: string) returns (ok: bool)
      modifies this
      ensures ok <==> source in old(files) && target !in protected && source != target
      ensures files == if ok then old(files)[target := old(files)[source]] else old(files)
    {
      ok := source in files && target !in protected && source != target;
      if ok {
        files := files[target := files[source]];
      }
    }
  }

  /** A connection: its alias and its settings dictionary. */
  datatype Connection = Connection(alias: string, settingsDict: SettingsDict)

  /** `DatabaseCreation` for one SQLite connection. */
  class DatabaseCreation {
    const connection: Connection

    constructor (connection: Connection)
      ensures this.connection == connection
    {
      this.connection := connection;
    }

    /**
     * `_create_test_db`: an existing test database file is removed when
     * `autoclobber` is set or the user's `answer` is `yes`; otherwise the
     * tests are cancelled (exit 1). A failed removal exits with 2.
     */
    method CreateTestDb(autoclobber: bool, answer: string, fs: FileSystem) returns (outcome: Outcome<string>)
      requires "TEST_NAME" in connection.settingsDict
      modifies fs
      ensures var name := TestDbName(connection.settingsDict);
        if name == MemoryName || name !in old(fs.files) then
          outcome == Done(name) && fs.files == old(fs.files)
        else if !(autoclobber || answer == "yes") then
          outcome == Exited(1) && fs.files == old(fs.files)
        else if name in fs.protected then
          outcome == Exited(2) && fs.files == old(fs.files)
        else
          outcome == Done(name) && fs.files == old(fs.files) - {name}
      ensures outcome.Done? ==> outcome.value == MemoryName || outcome.value !in fs.files
    {
      var testDatabaseName := TestDbName(connection.settingsDict);
      if testDatabaseName != MemoryName {
        if fs.Exists(testDatabaseName) {
          if autoclobber || answer == "yes" {
            var removed := fs.Remove(testDatabaseName);
            if !removed {
              return Exited(2);
            }
          } else {
            return Exited(1);
          }
        }
      }
      return Done(testDatabaseName);
    }

    /**
     * `_clone_test_db`: copies the source database file to the clone name of
     * worker `number`, first removing an old clone unless `keepdb` keeps it.
     * A failed removal or copy exits with 2. An in-memory source is left
     * alone: forking copies it.
     */
    method CloneTestDb(number: int, keepdb: bool, isInMemory: string -> bool, fs: FileSystem) returns (outcome: Outcome<()>)
      requires "NAME" in connection.settingsDict && connection.settingsDict["NAME"].Some?
      modifies fs
      ensures var source := connection.settingsDict["NAME"].value;
        var target := CloneSettings(connection.settingsDict, number, isInMemory)["NAME"].value;
        if isInMemory(source) || (target in old(fs.files) && keepdb) then
          outcome == Done(()) && fs.files == old(fs.files)
        else if target in old(fs.files) && target in fs.protected then
          outcome == Exited(2) && fs.files == old(fs.files)
        else if source in old(fs.files) && target !in fs.protected then
          outcome == Done(()) && fs.files == old(fs.files)[target := old(fs.files)[source]]
        else
          outcome == Exited(2) && fs.files == old(fs.files) - {target}
    {
      var sourceDatabaseName := connection.settingsDict["NAME"].value;
      var targetDatabaseName := CloneSettings(connection.settingsDict, number, isInMemory)["NAME"].value;
      if !isInMemory(sourceDatabaseName) {
        CloneNameDiffers(sourceDatabaseName, number);
        if fs.Exists(targetDatabaseName) {
          if keepdb {
            return Done(());
          }
          var removed := fs.Remove(targetDatabaseName);
          if !removed {
            return Exited(2);
          }
        }
        var copied := fs.Copy(sourceDatabaseName, targetDatabaseName);
        if !copied {
          return Exited(2);
        }
      }
      return Done(());
    }

    /**
     * `_destroy_test_db`: removes the file of a named, non-memory test
     * database; a failed removal raises.
     */
    method DestroyTestDb(testDatabaseName: string, fs: FileSystem) returns (outcome: Outcome<()>)
      modifies fs
      ensures testDatabaseName == "" || testDatabaseName == MemoryName ==>
        outcome == Done(()) && fs.files == old(fs.files)
      ensures testDatabaseName != "" && testDatabaseName != MemoryName ==>
        if testDatabaseName in old(fs.files) && testDatabaseName !in fs.protected then
          outcome == Done(()) && fs.files == old(fs.files) - {testDatabaseName}
        else
          outcome == Raised && fs.files == old(fs.files)
    {
      if testDatabaseName != "" && testDatabaseName != MemoryName {
        var removed := fs.Remove(testDatabaseName);
        if !removed {
          return Raised;
        }
      }
      return Done(());
    }
  }
}
