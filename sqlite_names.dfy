/**
 * The pure rules of the SQLite backend's `DatabaseCreation`
 * (`django/db/backends/sqlite3/creation.py`): the column type table, the
 * constraint stubs, the test database name, the name of a parallel clone,
 * and the signature that identifies a test database.
 *
 * A connection's `settings_dict` is a map from keys to optional strings;
 * None is Python's None. Settings of other types play no part here.
 */
module SqliteNames {
  import opened Common

  type SettingsDict = map<string, Option<string>>

  const MemoryName := ":memory:"
  const VarcharTemplate := "varchar(%(max_length)s)"

  // ---------------------------------------------------------------------------
  // Column types

  /** `data_types`: model field class name to SQLite column type template. */
  const DataTypes: map<string, string> := map[
    "AutoField" := "integer",
    "BooleanField" := "bool",
    "CharField" := VarcharTemplate,
    "CommaSeparatedIntegerField" := VarcharTemplate,
    "DateField" := "date",
    "DateTimeField" := "datetime",
    "DecimalField" := "decimal",
    "FileField" := VarcharTemplate,
    "FilePathField" := VarcharTemplate,
    "FloatField" := "real",
    "IntegerField" := "integer",
    "BigIntegerField" := "bigint",
    "IPAddressField" := "char(15)",
    "GenericIPAddressField" := "char(39)",
    "NullBooleanField" := "bool",
    "OneToOneField" := "integer",
    "PositiveIntegerField" := "integer unsigned",
    "PositiveSmallIntegerField" := "smallint unsigned",
    "SlugField" := VarcharTemplate,
    "SmallIntegerField" := "smallint",
    "TextField" := "text",
    "TimeField" := "time"
  ]

  /** The field types whose column is bounded by `max_length`. */
  const LengthBoundedFields: set<string> :=
    {"CharField", "CommaSeparatedIntegerField", "FileField", "FilePathField", "SlugField"}

  /** The length-bounded field types use the `varchar(%(max_length)s)` template. */
  lemma LengthBoundedFieldsUseVarchar()
    ensures forall f :: f in LengthBoundedFields ==> f in DataTypes && DataTypes[f] == VarcharTemplate
  {
  }

  /** The IP address types are fixed-width `char` columns. */
  lemma IPAddressFieldsFixedWidth()
    ensures DataTypes["IPAddressField"] == "char(15)"
    ensures DataTypes["GenericIPAddressField"] == "char(39)"
  {
  }

  // ---------------------------------------------------------------------------
  // Constraint stubs: SQLite gets no constraint statements

  /** `sql_for_pending_references`: SQLite emits no foreign-key statements. */
  function SqlForPendingReferences<Model, Style, References>(model: Model, style: Style, pendingReferences: References): (sql: seq<string>)
    ensures sql == []
  {
    []
  }

  /** `sql_remove_table_constraints`: SQLite emits no constraint removals. */
  function SqlRemoveTableConstraints<Model, References, Style>(model: Model, referencesToDelete: References, style: Style): (sql: seq<string>)
    ensures sql == []
  {
    []
  }

  // ---------------------------------------------------------------------------
  // Test database name

  /**
   * `_get_test_db_name`: a non-empty `TEST_NAME` is used as it is; None or the
   * empty string means an in-memory database.
   */
  function TestDbName(settings: SettingsDict): (name: string)
    requires "TEST_NAME" in settings
    ensures name != ""
    ensures name != MemoryName ==> settings["TEST_NAME"] == Some(name)
    ensures settings["TEST_NAME"].Some? && settings["TEST_NAME"].value != "" ==> name == settings["TEST_NAME"].value
    ensures settings["TEST_NAME"] == None || settings["TEST_NAME"] == Some("") ==> name == MemoryName
  {
    var testName := settings["TEST_NAME"];
    if testName.Some? && testName.value != "" && testName.value != MemoryName then testName.value
    else MemoryName
  }

  // ---------------------------------------------------------------------------
  // Decimal text of a number, as `'{}'.format(number)` writes it

  function DigitChar(d: nat): (c: char)
    requires d < 10
    ensures '0' <= c <= '9'
  {
    ('0' as int + d) as char
  }

  /** The decimal digits of a natural number, most significant first. */
  function Digits(n: nat): (s: string)
    ensures |s| >= 1
    ensures forall i :: 0 <= i < |s| ==> '0' <= s[i] <= '9'
  {
    if n < 10 then [DigitChar(n)] else Digits(n / 10) + [DigitChar(n % 10)]
  }

  /** `str(n)`: a minus sign for negative numbers, then the digits. */
  function DecimalText(n: int): string
  {
    if n < 0 then "-" + Digits(-n) else Digits(n)
  }

  /** The value of a string of digits. */
  function DigitsValue(s: string): int
  {
    if |s| == 0 then 0 else DigitsValue(s[..|s| - 1]) * 10 + (s[|s| - 1] as int - '0' as int)
  }

  /** `int(s)` on the text `DecimalText` writes. */
  function DecimalValue(s: string): int
  {
    if |s| > 0 && s[0] == '-' then -DigitsValue(s[1..]) else DigitsValue(s)
  }

  lemma {:induction false} DigitsRoundTrip(n: nat)
    ensures DigitsValue(Digits(n)) == n
  {
    if n >= 10 {
      DigitsRoundTrip(n / 10);
      var s := Digits(n);
      assert s[..|s| - 1] == Digits(n / 10);
    } else {
      assert Digits(n)[..0] == [];
    }
  }

  /** Reading the decimal text of a number gives the number back. */
  lemma DecimalRoundTrip(n: int)
    ensures DecimalValue(DecimalText(n)) == n
  {
    if n < 0 {
      DigitsRoundTrip(-n);
      assert DecimalText(n)[1..] == Digits(-n);
    } else {
      DigitsRoundTrip(n);
    }
  }

  // ---------------------------------------------------------------------------
  // Clone file names

  /** Index of the last `c` in `s`, or -1 (Python's `s.rfind(c)`). */
  function LastIndexOf(s: string, c: char): (i: int)
    ensures -1 <= i < |s|
    ensures i >= 0 ==> s[i] == c
    ensures forall k :: i < k < |s| ==> s[k] != c
  {
    if |s| == 0 then -1
    else if s[|s| - 1] == c then |s| - 1
    else LastIndexOf(s[..|s| - 1], c)
  }

  /**
   * `os.path.splitext` on POSIX paths: the extension starts at the last dot
   * of the last path component, unless only dots precede it there; the
   * extension keeps its dot.
   */
  function Splitext(path: string): (parts: (string, string))
    ensures parts.0 + parts.1 == path
    ensures parts.1 == "" || (parts.1[0] == '.' && '.' !in parts.1[1..] && '/' !in parts.1)
    ensures parts.1 != "" ==> exists k :: LastIndexOf(path, '/') < k < |parts.0| && path[k] != '.'
    ensures parts.1 == "" ==>
      forall i, j :: LastIndexOf(path, '/') < i < j < |path| && path[i] != '.' ==> path[j] != '.'
  {
    var sepIndex := LastIndexOf(path, '/');
    var dotIndex := LastIndexOf(path, '.');
    if dotIndex > sepIndex && exists k :: sepIndex < k < dotIndex && path[k] != '.' then
      assert path == path[..dotIndex] + path[dotIndex..];
      (path[..dotIndex], path[dotIndex..])
    else
      (path, "")
  }

  /**
   * The clone name of `get_test_db_clone_settings`:
   * `'{}_{}.{}'.format(root, number, ext)`. As `ext` keeps its dot, the
   * clone of `db.sqlite3` gets two dots before its extension.
   */
  function CloneName(name: string, number: int): string
  {
    var (root, ext) := Splitext(name);
    root + "_" + DecimalText(number) + "." + ext
  }

  /** A clone never has the source's name, so cloning never overwrites the source. */
  lemma CloneNameDiffers(name: string, number: int)
    ensures CloneName(name, number) != name
  {
    var (root, ext) := Splitext(name);
    assert |CloneName(name, number)| > |root| + |ext|;
  }

  /** Different worker numbers give different clone names. */
  lemma CloneNameInjective(name: string, n1: int, n2: int)
    requires CloneName(name, n1) == CloneName(name, n2)
    ensures n1 == n2
  {
    var (root, ext) := Splitext(name);
    var d1, d2 := DecimalText(n1), DecimalText(n2);
    var c1, c2 := root + "_" + d1 + "." + ext, root + "_" + d2 + "." + ext;
    assert c1 == c2;
    assert |d1| == |d2|;
    assert d1 == d2 by {
      assert c1 == (root + "_") + d1 + ("." + ext);
      assert c2 == (root + "_") + d2 + ("." + ext);
      assert d1 == c1[|root| + 1..|root| + 1 + |d1|];
      assert d2 == c2[|root| + 1..|root| + 1 + |d2|];
    }
    DecimalRoundTrip(n1);
    DecimalRoundTrip(n2);
  }

  /** Characters other than `c` appended at the end do not move the last `c`. */
  lemma {:induction false} LastIndexOfSkips(s: string, t: string, c: char)
    requires forall i :: 0 <= i < |t| ==> t[i] != c
    ensures LastIndexOf(s + t, c) == LastIndexOf(s, c)
    decreases |t|
  {
    var u := s + t;
    if |t| == 0 {
      assert u == s;
    } else {
      assert u[..|u| - 1] == s + t[..|t| - 1];
      assert u[|u| - 1] == t[|t| - 1];
      LastIndexOfSkips(s, t[..|t| - 1], c);
    }
  }

  /** `'db.sqlite3'.rfind('.')` is 2. */
  lemma LastDotOfExample()
    ensures LastIndexOf("db.sqlite3", '.') == 2
  {
    assert "db." + "sqlite3" == "db.sqlite3";
    LastIndexOfSkips("db.", "sqlite3", '.');
    assert LastIndexOf("db.", '.') == 2;
  }

  /** `'db.sqlite3'.rfind('/')` is -1. */
  lemma LastSlashOfExample()
    ensures LastIndexOf("db.sqlite3", '/') == -1
  {
    assert "" + "db.sqlite3" == "db.sqlite3";
    LastIndexOfSkips("", "db.sqlite3", '/');
  }

  /** `os.path.splitext('db.sqlite3')` is `('db', '.sqlite3')`. */
  lemma SplitextExample()
    ensures Splitext("db.sqlite3") == ("db", ".sqlite3")
  {
    var path := "db.sqlite3";
    LastDotOfExample();
    LastSlashOfExample();
    assert path[0] != '.';
    assert path[..2] == "db" && path[2..] == ".sqlite3";
  }

  /** The clone of `db.sqlite3` for worker 1 is `db_1..sqlite3`. */
  lemma CloneNameExample()
    ensures CloneName("db.sqlite3", 1) == "db_1..sqlite3"
  {
    SplitextExample();
    assert DecimalText(1) == "1";
  }

  /**
   * `get_test_db_clone_settings`: an in-memory source keeps its settings;
   * otherwise only `NAME` changes, to the clone name.
   */
  function CloneSettings(settings: SettingsDict, number: int, isInMemory: string -> bool): (clone: SettingsDict)
    requires "NAME" in settings && settings["NAME"].Some?
    ensures isInMemory(settings["NAME"].value) ==> clone == settings
    ensures !isInMemory(settings["NAME"].value) ==>
      clone.Keys == settings.Keys &&
      clone["NAME"] == Some(CloneName(settings["NAME"].value, number)) &&
      forall k :: k in settings && k != "NAME" ==> clone[k] == settings[k]
  {
    var source := settings["NAME"].value;
    if isInMemory(source) then settings
    else settings["NAME" := Some(CloneName(source, number))]
  }

  /**
   * Clones of a file database for two workers have different names, and
   * neither is the source's name.
   */
  lemma CloneSettingsSeparate(settings: SettingsDict, n1: int, n2: int, isInMemory: string -> bool)
    requires "NAME" in settings && settings["NAME"].Some?
    requires !isInMemory(settings["NAME"].value)
    ensures CloneSettings(settings, n1, isInMemory)["NAME"] != settings["NAME"]
    ensures n1 != n2 ==> CloneSettings(settings, n1, isInMemory)["NAME"] != CloneSettings(settings, n2, isInMemory)["NAME"]
  {
    var source := settings["NAME"].value;
    CloneNameDiffers(source, n1);
    if CloneName(source, n1) == CloneName(source, n2) {
      CloneNameInjective(source, n1, n2);
    }
  }

  // ---------------------------------------------------------------------------
  // Signature

  /**
   * `test_db_signature`: `(NAME,)` for a file test database, `(NAME, alias)`
   * for an in-memory one.
   */
  function Signature(settings: SettingsDict, alias: string): (sig: seq<Option<string>>)
    requires "NAME" in settings && "TEST_NAME" in settings
    ensures 1 <= |sig| <= 2 && sig[0] == settings["NAME"]
    ensures |sig| == 2 <==> TestDbName(settings) == MemoryName
    ensures |sig| == 2 ==> sig[1] == Some(alias)
  {
    [settings["NAME"]] + (if TestDbName(settings) == MemoryName then [Some(alias)] else [])
  }

  /** In-memory test databases of differently named connections have different signatures. */
  lemma MemorySignaturesDiffer(s1: SettingsDict, alias1: string, s2: SettingsDict, alias2: string)
    requires "NAME" in s1 && "TEST_NAME" in s1 && "NAME" in s2 && "TEST_NAME" in s2
    requires TestDbName(s1) == MemoryName && TestDbName(s2) == MemoryName
    requires alias1 != alias2
    ensures Signature(s1, alias1) != Signature(s2, alias2)
  {
    assert Signature(s1, alias1)[1] != Signature(s2, alias2)[1];
  }

  /**
   * Two connections with the same `NAME` and file test databases share a
   * signature whatever their aliases and `TEST_NAME`s.
   */
  lemma FileSignaturesByName(s1: SettingsDict, alias1: string, s2: SettingsDict, alias2: string)
    requires "NAME" in s1 && "TEST_NAME" in s1 && "NAME" in s2 && "TEST_NAME" in s2
    requires TestDbName(s1) != MemoryName && TestDbName(s2) != MemoryName
    ensures Signature(s1, alias1) == Signature(s2, alias2) <==> s1["NAME"] == s2["NAME"]
  {
  }
}
