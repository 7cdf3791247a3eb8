# OpenLDAP to 389 Directory Server migration: config reader and plan skeleton

This project models two files of the `lib389` migration tool that moves an
OpenLDAP deployment to 389 Directory Server.

- **The `slapd.d` reader** (`migrate/openldap/config.py`). `db_cond`
  decides which files of `cn=config` are databases. It takes every
  `olcDatabase=*.ldif` except `{0}config` and `{-1}frontend`. `olConfig`
  turns the directory listing into a sorted list of database names. It keeps
  the accepted files, drops every `.ldif` from each name and sorts the
  result. `olDatabase` reads the database's own entry and then one overlay
  per file of its sub-directory, in sorted order. `olSchema` reads one entry
  per schema file, in sorted order. Every file must parse to exactly one LDIF
  entry, and that entry is taken out. `SimpleParser.handle` appends each
  `(dn, entry)` record it is given.
- **The migration plan** (`migrate/plan.py`), modelled as written.
  `MigrationAction.apply` and `__unicode__` raise
  `Exception('not implemented')`. None of the ten subclasses overrides them.
  `Migration` stores its two arguments and starts with an empty `plan`. The
  plan generator `_gen_migration_plan` is `pass`, so the plan stays empty.
  `Migration.__unicode__` appends the literal text `{item}` and a newline
  once per plan element. The string is not an f-string, so no action is ever
  rendered.

The directory tree is an input value (`FsView`). For each directory it holds
what `os.listdir` returns. For each file it holds the records python-ldap's
LDIF parser reports, in file order. The model distinguishes three failures:
opening a missing file, listing a missing directory, and a file whose entry
count is not one. They are modelled as `Err` results, and the first one
raised stops the load, in the order the source performs its steps.

Python's `sorted` on strings is modelled by an insertion sort under
code-point order. `SortedUnique` proves that any ascending permutation is
that sort, so the model does not depend on the sorting algorithm.

The design of the surrounding tool describes a schema reconciler, backend,
index and overlay planners, LDIF import and a two-phase executor. None of
that exists in the code: the generator is `pass`, and there is no
`execute_plan` and no `post`. The model follows the code.

Modules (one file each): `Sorting` (sorting.dfy), `PyStr` (python_str.dfy),
`PosixPath` (posix_path.dfy), `OpenLdapConfig` (openldap_config.dfy),
`MigrationPlan` (migration_plan.dfy).

## Model

| member | source | states |
|---|---|---|
| `OpenLdapConfig.SimpleParser.constructor` | src/lib389/lib389/migrate/openldap/config.py:17-20 | a new parser has collected no entries |
| `OpenLdapConfig.SimpleParser.Handle` | src/lib389/lib389/migrate/openldap/config.py:22-23 | the collected list afterwards is the list before it with `(dn, entry)` appended at the end |
| `OpenLdapConfig.SimpleParser.Parse` | src/lib389/lib389/migrate/openldap/config.py:28-29 | when the parser calls `handle` once per record, the collected entries are the records, in file order |
| `OpenLdapConfig.LdifParse` | src/lib389/lib389/migrate/openldap/config.py:26-30 | `ldif_parse` returns the file's records, or fails with file-not-found for the joined path |
| `OpenLdapConfig.ListDir` | src/lib389/lib389/migrate/openldap/config.py:63 | `os.listdir` of a directory the tree holds returns its names; any other path fails with directory-not-found for that path |
| `OpenLdapConfig.ParseFile` | src/lib389/lib389/migrate/openldap/config.py:26-30 | the records of the file at the joined path, or file-not-found for that path |
| `OpenLdapConfig.SingleEntry` | src/lib389/lib389/migrate/openldap/config.py:47-48 | succeeds exactly when there is one entry, and returns that entry; otherwise the entry-count assertion fails (the path and count the model attaches to that failure are its own addition) |
| `OpenLdapConfig.ReadSingleEntry` | src/lib389/lib389/migrate/openldap/config.py:55-57 | succeeds if and only if the file exists and holds one entry, with that entry; a missing file fails with file-not-found for the joined path, and any other entry count fails the entry-count assertion |
| `OpenLdapConfig.Collect` | src/lib389/lib389/migrate/openldap/config.py:61-64 | a comprehension yields one element per input, in order, or the exception of the first element that raises |
| `OpenLdapConfig.CollectFirstError` | src/lib389/lib389/migrate/openldap/config.py:103-106 | once a prefix loads without error, the next element that raises decides the result |
| `OpenLdapConfig.DbCond` | src/lib389/lib389/migrate/openldap/config.py:32-39 | `db_cond` itself, branch for branch; its meaning is stated by the lemmas below |
| `OpenLdapConfig.DbCondExclusions` | src/lib389/lib389/migrate/openldap/config.py:32-39 | false for `olcDatabase={0}config.ldif` and `olcDatabase={-1}frontend.ldif`; false without the `olcDatabase=` prefix or the `.ldif` suffix; true for any other name with both |
| `OpenLdapConfig.AffixesDoNotOverlap` | src/lib389/lib389/migrate/openldap/config.py:37 | a name that starts with `olcDatabase=` and ends with `.ldif` is at least 17 characters long |
| `OpenLdapConfig.DbCondGivesShape` | src/lib389/lib389/migrate/openldap/config.py:37-38 | an accepted name is `olcDatabase=` followed by its middle part and `.ldif` |
| `OpenLdapConfig.ShapeGivesDbCond` | src/lib389/lib389/migrate/openldap/config.py:33-38 | `olcDatabase=<mid>.ldif` is accepted whenever `<mid>` is neither `{0}config` nor `{-1}frontend` |
| `OpenLdapConfig.DbCondShape` | src/lib389/lib389/migrate/openldap/config.py:32-39 | `db_cond` holds if and only if the name is `olcDatabase=<mid>.ldif` with `<mid>` neither `{0}config` nor `{-1}frontend` |
| `OpenLdapConfig.DbName` | src/lib389/lib389/migrate/openldap/config.py:97 | the name derived from a listed file: its last path component with every `.ldif` removed; stated by the lemmas below |
| `OpenLdapConfig.DbNameOfDatabaseFile` | src/lib389/lib389/migrate/openldap/config.py:97 | for a `<mid>` without `.` or `/`, the derived name is the file name without `.ldif`, and appending `.ldif` gives back the listed file |
| `OpenLdapConfig.DbNameOfDatabasePrefix` | src/lib389/lib389/migrate/openldap/config.py:97 | for `olcDatabase=<mid><rest>` with no `.` or `/` in `<mid>`, only `<rest>` loses its `.ldif` occurrences |
| `OpenLdapConfig.DbNameDropsInteriorSuffix` | src/lib389/lib389/migrate/openldap/config.py:97 | every `.ldif` occurrence is removed, so `olcDatabase=<mid>.ldif.ldif` is accepted but derives `olcDatabase=<mid>`, whose `.ldif` file is not the listed one |
| `OpenLdapConfig.AcceptedFiles` | src/lib389/lib389/migrate/openldap/config.py:98-99 | each accepted file is kept with its multiplicity in the listing, and each rejected file is dropped |
| `OpenLdapConfig.DatabaseNames` | src/lib389/lib389/migrate/openldap/config.py:96-100 | the derived list is ascending, is a permutation of the derived names of the accepted files, and has one element per accepted file |
| `OpenLdapConfig.DatabaseNamesSources` | src/lib389/lib389/migrate/openldap/config.py:96-100 | a name is in the list if and only if it is the derived name of a listed file that `db_cond` accepts |
| `OpenLdapConfig.DatabaseNamesCount` | src/lib389/lib389/migrate/openldap/config.py:96-100 | the list has the listing's length less the number of rejected files |
| `OpenLdapConfig.LoadOverlay` | src/lib389/lib389/migrate/openldap/config.py:42-49 | an overlay loads exactly when its file holds one entry, and that entry is its config |
| `OpenLdapConfig.WellFormedDirectoryLoads` | src/lib389/lib389/migrate/openldap/config.py:60-78 | a directory that exists and whose every listed file holds exactly one entry loads, both as an overlay directory and as a schema directory |
| `OpenLdapConfig.LoadOverlays` | src/lib389/lib389/migrate/openldap/config.py:60-64 | a missing directory is reported; otherwise the load succeeds if and only if every file, taken in sorted name order, holds one entry, giving one overlay per file in that order, and a failure is that of the first file in sorted order that fails |
| `OpenLdapConfig.LoadDatabase` | src/lib389/lib389/migrate/openldap/config.py:51-64 | a bad `<name>.ldif` fails first; otherwise the config is its single entry and the overlays are those of the directory `<name>` |
| `OpenLdapConfig.LoadSchema` | src/lib389/lib389/migrate/openldap/config.py:66-80 | a missing directory is reported; otherwise the load succeeds if and only if every file, in sorted name order, holds one entry, giving one schema entry per file in that order, and a failure is that of the first file in sorted order that fails |
| `OpenLdapConfig.BuildSchema` | src/lib389/lib389/migrate/openldap/config.py:70-78 | the append loop of `olSchema` produces the result `LoadSchema` specifies, including its first failure |
| `OpenLdapConfig.LoadDatabases` | src/lib389/lib389/migrate/openldap/config.py:96-106 | a missing `cn=config` directory is reported; otherwise the load succeeds if and only if every derived name, in sorted order, loads as a database, giving one database per name in that order, and a failure is that of the first name that fails |
| `OpenLdapConfig.LoadConfig` | src/lib389/lib389/migrate/openldap/config.py:83-107 | succeeds if and only if `cn=config.ldif`, the schema directory `cn=config/cn=schema/` and the databases all load, with their results; a bad `cn=config.ldif` fails first, then a schema failure, then a database failure |
| `OpenLdapConfig.LoadConfigDatabases` | src/lib389/lib389/migrate/openldap/config.py:96-106 | in a loaded configuration the database names are ascending, and database `i` is the one loaded for name `i` |
| `Sorting.LexLe` | src/lib389/lib389/migrate/openldap/config.py:96 | Python's `<=` on `str`: code point by code point, a proper prefix first; its order properties are the four lemmas below |
| `Sorting.LexLeReflexive` | src/lib389/lib389/migrate/openldap/config.py:96 | every string is `<=` itself |
| `Sorting.LexLeTotal` | src/lib389/lib389/migrate/openldap/config.py:96 | any two strings are comparable |
| `Sorting.LexLeTransitive` | src/lib389/lib389/migrate/openldap/config.py:96 | the order is transitive |
| `Sorting.LexLeAntisymmetric` | src/lib389/lib389/migrate/openldap/config.py:96 | two strings each `<=` the other are equal |
| `Sorting.Sort` | src/lib389/lib389/migrate/openldap/config.py:70 | `sorted` returns an ascending permutation of its argument |
| `Sorting.SortedUnique` | src/lib389/lib389/migrate/openldap/config.py:96 | two ascending permutations of the same strings are equal |
| `Sorting.SortIsTheSortedPermutation` | src/lib389/lib389/migrate/openldap/config.py:63 | any ascending permutation of a listing is what `sorted` returns |
| `Sorting.SortMembers` | src/lib389/lib389/migrate/openldap/config.py:63 | sorting keeps exactly the members of the listing |
| `PyStr.RemoveOccurrences` | src/lib389/lib389/migrate/openldap/config.py:97 | `replace('.ldif', '')` leaves a name unchanged if and only if `.ldif` does not occur in it; otherwise the name gets at least five characters shorter; a leading occurrence is removed before the rest is processed |
| `PyStr.RemoveOccurrencesKeepsPrefix` | src/lib389/lib389/migrate/openldap/config.py:97 | text without a `.` is copied through unchanged before the rest is processed |
| `PosixPath.Join` | src/lib389/lib389/migrate/openldap/config.py:27 | an absolute second part is the result; otherwise the result starts with the first part, ends with the second, and between them stands a single `/` exactly when the first part is non-empty and does not already end in `/` |
| `PosixPath.Basename` | src/lib389/lib389/migrate/openldap/config.py:97 | the tail holds no `/`, is a suffix of the path preceded by a `/` when shorter, and is the whole name when the name holds no `/` |
| `MigrationPlan.MigrationAction.Apply` | src/lib389/lib389/migrate/plan.py:14-15 | `apply` always raises `not implemented`, for every instance argument |
| `MigrationPlan.MigrationAction.Unicode` | src/lib389/lib389/migrate/plan.py:17-18 | `__unicode__` of an action always raises `not implemented` |
| `MigrationPlan.NoActionOverrides` | src/lib389/lib389/migrate/plan.py:21-49 | every one of the ten subclasses behaves as the base class for both methods, whatever the instance |
| `MigrationPlan.Migration.constructor` | src/lib389/lib389/migrate/plan.py:55-59 | `olconfig` and `inst` are stored unchanged, and the plan is empty after construction |
| `MigrationPlan.Migration.GenMigrationPlan` | src/lib389/lib389/migrate/plan.py:67-79 | the generator's body does nothing; it has no `modifies` clause, so it cannot change the plan |
| `MigrationPlan.Migration.Unicode` | src/lib389/lib389/migrate/plan.py:61-65 | returns the literal `{item}` line once per plan element, 7·\|plan\| characters, `""` for an empty plan; with no `modifies` clause, the plan is left unchanged |
| `MigrationPlan.Rendering` | src/lib389/lib389/migrate/plan.py:61-65 | what `__unicode__` returns for a plan; stated by the rendering lemmas below |
| `MigrationPlan.RenderingLength` | src/lib389/lib389/migrate/plan.py:61-65 | the rendering is seven characters per plan element |
| `MigrationPlan.RenderingLine` | src/lib389/lib389/migrate/plan.py:64 | the i-th seven-character block of the rendering is `{item}` and a newline, whatever the i-th action is |
| `MigrationPlan.RenderingAppend` | src/lib389/lib389/migrate/plan.py:61-65 | the rendering of two plans joined is the two renderings joined |
| `MigrationPlan.RenderingIgnoresActions` | src/lib389/lib389/migrate/plan.py:61-65 | two plans of the same length render identically, because the item is never rendered |

## Left out

- File I/O. Opening files and `os.listdir` become lookups in an `FsView` value. Path lookup treats `a/b/` and `a/b` as one directory. It does not resolve `..`, `.`, repeated `/` or symbolic links.
- The LDIF text format and python-ldap's `LDIFParser` are foreign code. A file is represented by the records the parser would report. `SimpleParser.Parse` stands for the parser's callback protocol: `handle` once per record, in order.
- Logging. The `log` argument, the `log` attribute and every `log.debug` call are left out.
- `OpenLdapConfig.SingleEntry`: `entries.pop()` empties a local list that is then discarded. The model returns the entry without modelling that in-place removal.
- The constants `olcDatabase={0}config.ldif` and `olcDatabase={-1}frontend.ldif` are written as `DatabaseFileName("{0}config")` and `DatabaseFileName("{-1}frontend")`. They denote the same strings.
- `OpenLdapConfig.SingleEntry`: the bare `assert len(entries) == 1` raises an `AssertionError` without a message. The path and entry count that `EntryCountMismatch` carries are the model's own addition.
- Other exceptions of `open` and `os.listdir`: `IsADirectoryError`, `NotADirectoryError` and `PermissionError`. The tree has no permissions, and opening a name that is a directory rather than a file is reported as `FileNotFound`, listing a file as `DirectoryNotFound`.
- Python's `assert` disappears under `python -O`. The model always performs the entry-count check.
- `MigrationPlan.Migration.GenMigrationPlan` has no `ensures` clause: that it changes nothing follows from its having no `modifies` clause.
- `MigrationPlan.Migration.Unicode`: that the plan is unchanged follows from the method having no `modifies` clause, not from an `ensures` clause.
- `MigrationAction.__init__` is `pass` and has no model of its own.
- The schema reconciler, the backend, index and overlay/plugin planners, the LDIF import transform and the two-pass executor. None of them exists in `plan.py`, where the generator is `pass`, so modelling them would invent behaviour.
- dirsrvtests/tests/suites/openldap_2_389/migrate_test.py is not part of this model. It is a live-server test, and it calls a three-argument `Migration` constructor and an `execute_plan` that the code does not have.
- dirsrvtests/tests/suites/mapping_tree/mt_cursed_test.py is not part of this model. It tests the server's own mapping-tree routing.
