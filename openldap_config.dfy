/** The reader of an OpenLDAP `slapd.d` configuration directory used by the
    migration tool: which files are databases, what they are called, and the
    one LDIF entry taken out of every configuration file.

    The directory tree is an input (`FsView`), not file I/O: `os.listdir` and
    opening a file become lookups in it, and python-ldap's LDIF parser is
    represented by the records it reports for each file. */
module OpenLdapConfig {
  import opened PyStr
  import opened PosixPath
  import opened Sorting

  type Byte = bv8

  /** An entry's attributes as the LDIF parser reports them: each attribute
      name with its list of raw values. */
  type Attributes = map<string, seq<seq<Byte>>>

  /** The `(dn, entry)` pair handed to `SimpleParser.handle`. */
  datatype Entry = Entry(dn: string, attrs: Attributes)

  /** The exceptions of the reader that the model distinguishes (the others
      `open` and `os.listdir` can raise are not modelled). */
  datatype ConfigError =
    | DirectoryNotFound(path: string)               // os.listdir on a missing directory
    | FileNotFound(path: string)                    // open() on a missing file
    | EntryCountMismatch(path: string, count: nat)  // assert len(entries) == 1 fails

  datatype Result<T> = Ok(value: T) | Err(error: ConfigError)

  // ---------------------------------------------------------------------
  // Collecting the LDIF parser's records
  // ---------------------------------------------------------------------

  /** The LDIF parser subclass that keeps every entry it is handed. */
  class SimpleParser {
    var entries: seq<Entry>

    constructor ()
      ensures entries == []
    {
      entries := [];
    }

    /** Appends one record; what was collected before stays as it was. */
    method Handle(dn: string, entry: Attributes)
      modifies this
      ensures entries == old(entries) + [Entry(dn, entry)]
    {
      entries := entries + [Entry(dn, entry)];
    }

    /** The parser's driver: `handle` is called once per record, in the
        order the records stand in the file. */
    method Parse(records: seq<Entry>)
      modifies this
      ensures entries == old(entries) + records
    {
      var i := 0;
      while i < |records|
        invariant 0 <= i <= |records|
        invariant entries == old(entries) + records[..i]
      {
        assert records[..i + 1] == records[..i] + [records[i]];
        Handle(records[i].dn, records[i].attrs);
        i := i + 1;
      }
      assert records[..|records|] == records;
    }
  }

  // ---------------------------------------------------------------------
  // The file system seen by the reader
  // ---------------------------------------------------------------------

  /** For every directory, keyed by its path without trailing `/`, the names
      `os.listdir` returns; for every file, keyed the same way, the records
      the LDIF parser reports for it, in file order. */
  datatype FsView = FsView(listings: map<string, seq<string>>, files: map<string, seq<Entry>>)

  /** The key a path is looked up under: trailing `/` removed, so that
      `a/b/` and `a/b` name the same directory. */
  function Canonical(p: string): (r: string)
    ensures StartsWith(p, r)
    ensures |r| > 1 ==> r[|r| - 1] != '/'
    ensures forall k :: |r| <= k < |p| ==> p[k] == '/'
    decreases |p|
  {
    if |p| > 1 && p[|p| - 1] == '/' then Canonical(p[..|p| - 1]) else p
  }

  /** `os.listdir(path)`. */
  function ListDir(fs: FsView, path: string): Result<seq<string>> {
    if Canonical(path) in fs.listings then Ok(fs.listings[Canonical(path)])
    else Err(DirectoryNotFound(path))
  }

  /** What `ldif_parse(path, rpath)` returns: the records of the file at
      `os.path.join(path, rpath)`. */
  function ParseFile(fs: FsView, path: string, rpath: string): Result<seq<Entry>> {
    var p := Join(path, rpath);
    if Canonical(p) in fs.files then Ok(fs.files[Canonical(p)]) else Err(FileNotFound(p))
  }

  /** `ldif_parse`: a fresh `SimpleParser` collects every record of the file. */
  method LdifParse(fs: FsView, path: string, rpath: string) returns (r: Result<seq<Entry>>)
    ensures r == ParseFile(fs, path, rpath)
    ensures r.Err? ==> r.error == FileNotFound(Join(path, rpath))
  {
    var p := Join(path, rpath);
    if Canonical(p) !in fs.files {
      return Err(FileNotFound(p));
    }
    var sp := new SimpleParser();
    sp.Parse(fs.files[Canonical(p)]);
    assert sp.entries == fs.files[Canonical(p)];
    r := Ok(sp.entries);
  }

  /** `assert len(entries) == 1` followed by `entries.pop()`. */
  function SingleEntry(path: string, entries: seq<Entry>): (r: Result<Entry>)
    ensures r.Ok? <==> |entries| == 1
    ensures r.Ok? ==> entries == [r.value]
    ensures r.Err? ==> r.error == EntryCountMismatch(path, |entries|)
  {
    if |entries| == 1 then Ok(entries[|entries| - 1])
    else Err(EntryCountMismatch(path, |entries|))
  }

  /** Parsing one configuration file and taking out its only entry. */
  function ReadSingleEntry(fs: FsView, path: string, rpath: string): (r: Result<Entry>)
    ensures r.Ok? <==> ParseFile(fs, path, rpath).Ok? && |ParseFile(fs, path, rpath).value| == 1
    ensures r.Ok? ==> ParseFile(fs, path, rpath).value == [r.value]
    ensures ParseFile(fs, path, rpath).Err? ==> r == Err(ParseFile(fs, path, rpath).error)
    ensures ParseFile(fs, path, rpath).Ok? && |ParseFile(fs, path, rpath).value| != 1 ==>
      r == Err(EntryCountMismatch(Join(path, rpath), |ParseFile(fs, path, rpath).value|))
  {
    match ParseFile(fs, path, rpath)
    case Err(e) => Err(e)
    case Ok(entries) => SingleEntry(Join(path, rpath), entries)
  }

  /** A list comprehension whose element expression may raise: the elements
      in order, or the exception of the first element that raises. */
  function Collect<A, B>(xs: seq<A>, f: A -> Result<B>): (r: Result<seq<B>>)
    ensures r.Ok? <==> forall i :: 0 <= i < |xs| ==> f(xs[i]).Ok?
    ensures r.Ok? ==> |r.value| == |xs| && forall i :: 0 <= i < |xs| ==> f(xs[i]) == Ok(r.value[i])
    ensures r.Err? ==> exists i :: 0 <= i < |xs| && f(xs[i]) == Err(r.error) &&
                                  forall j :: 0 <= j < i ==> f(xs[j]).Ok?
    decreases |xs|
  {
    if xs == [] then Ok([])
    else
      var init, last := xs[..|xs| - 1], xs[|xs| - 1];
      assert forall i :: 0 <= i < |init| ==> init[i] == xs[i];
      match Collect(init, f)
      case Err(e) => Err(e)
      case Ok(prefix) =>
        match f(last)
        case Err(e) => Err(e)
        case Ok(y) => Ok(prefix + [y])
  }

  /** Collecting one more element extends the collected prefix. */
  lemma CollectStep<A, B>(xs: seq<A>, i: nat, f: A -> Result<B>, prefix: seq<B>)
    requires i < |xs| && Collect(xs[..i], f) == Ok(prefix)
    ensures f(xs[i]).Ok? ==> Collect(xs[..i + 1], f) == Ok(prefix + [f(xs[i]).value])
    ensures f(xs[i]).Err? ==> Collect(xs, f) == Err(f(xs[i]).error)
  {
    assert xs[..i + 1][..i] == xs[..i];
    if f(xs[i]).Err? {
      CollectFirstError(xs, i, f);
    }
  }

  /** Once a prefix collected without error, the next raising element
      decides the result of the whole comprehension. */
  lemma {:induction false} CollectFirstError<A, B>(xs: seq<A>, i: nat, f: A -> Result<B>)
    requires i < |xs| && Collect(xs[..i], f).Ok? && f(xs[i]).Err?
    ensures Collect(xs, f) == Err(f(xs[i]).error)
    decreases |xs|
  {
    var init := xs[..|xs| - 1];
    if i == |xs| - 1 {
      assert init == xs[..i];
    } else {
      assert init[..i] == xs[..i] && init[i] == xs[i];
      CollectFirstError(init, i, f);
    }
  }

  // ---------------------------------------------------------------------
  // Which files of cn=config are databases, and their names
  // ---------------------------------------------------------------------

  const DatabasePrefix := "olcDatabase="
  const LdifSuffix := ".ldif"
  /** `olcDatabase={0}config.ldif` */
  const ConfigDatabaseFile := DatabaseFileName("{0}config")
  /** `olcDatabase={-1}frontend.ldif` */
  const FrontendDatabaseFile := DatabaseFileName("{-1}frontend")

  /** `db_cond`: a database file other than the config and frontend ones. */
  predicate DbCond(name: string) {
    if name == ConfigDatabaseFile then false
    else if name == FrontendDatabaseFile then false
    else if StartsWith(name, DatabasePrefix) && EndsWith(name, LdifSuffix) then true
    else false
  }

  /** The file name `olcDatabase=<mid>.ldif`. */
  function DatabaseFileName(mid: string): string {
    DatabasePrefix + mid + LdifSuffix
  }

  lemma DatabaseFileNameParts(mid: string)
    ensures |DatabaseFileName(mid)| == |mid| + 17
    ensures DatabaseFileName(mid)[..12] == DatabasePrefix
    ensures DatabaseFileName(mid)[12..|mid| + 12] == mid
    ensures DatabaseFileName(mid)[|mid| + 12..] == LdifSuffix
  {
  }

  lemma {:induction false} DatabaseFileNameInjective(m1: string, m2: string)
    requires DatabaseFileName(m1) == DatabaseFileName(m2)
    ensures m1 == m2
  {
    DatabaseFileNameParts(m1);
    DatabaseFileNameParts(m2);
  }

  /** The two names `db_cond` refuses outright, and the affixes it demands. */
  lemma DbCondExclusions(name: string)
    ensures !DbCond(ConfigDatabaseFile) && !DbCond(FrontendDatabaseFile)
    ensures !StartsWith(name, DatabasePrefix) ==> !DbCond(name)
    ensures !EndsWith(name, LdifSuffix) ==> !DbCond(name)
    ensures (StartsWith(name, DatabasePrefix) && EndsWith(name, LdifSuffix) &&
             name != ConfigDatabaseFile && name != FrontendDatabaseFile) ==> DbCond(name)
  {
  }

  /** No `.` stands in the prefix, so `olcDatabase=` and `.ldif` cannot share
      characters of one name. */
  lemma AffixesDoNotOverlap(name: string)
    requires StartsWith(name, DatabasePrefix) && EndsWith(name, LdifSuffix)
    ensures |name| >= |DatabasePrefix| + |LdifSuffix|
  {
    var k := |name| - 5;
    assert name[k] == '.' by {
      assert name[|name| - 5..][0] == name[k];
    }
    assert forall j :: 0 <= j < 12 ==> name[j] == DatabasePrefix[j] by {
      assert name[..12] == DatabasePrefix;
    }
    assert forall j :: 0 <= j < 12 ==> DatabasePrefix[j] != '.';
  }

  /** A name `db_cond` accepts has the shape `olcDatabase=<mid>.ldif`. */
  lemma DbCondGivesShape(name: string)
    requires DbCond(name)
    ensures |name| >= 17 && name == DatabaseFileName(name[12..|name| - 5])
  {
    AffixesDoNotOverlap(name);
    var mid := name[12..|name| - 5];
    assert name == name[..12] + mid + name[|name| - 5..];
  }

  /** `olcDatabase=<mid>.ldif` is accepted unless `<mid>` names the config
      or the frontend database. */
  lemma ShapeGivesDbCond(mid: string)
    requires mid != "{0}config" && mid != "{-1}frontend"
    ensures DbCond(DatabaseFileName(mid))
  {
    DatabaseFileNameParts(mid);
    if DatabaseFileName(mid) == ConfigDatabaseFile {
      DatabaseFileNameInjective(mid, "{0}config");
    }
    if DatabaseFileName(mid) == FrontendDatabaseFile {
      DatabaseFileNameInjective(mid, "{-1}frontend");
    }
  }

  /** `db_cond` holds exactly of the names `olcDatabase=<mid>.ldif` whose
      `<mid>` is neither `{0}config` nor `{-1}frontend`: the prefix and the
      suffix cannot overlap. */
  lemma DbCondShape(name: string)
    ensures DbCond(name) <==>
      exists mid :: name == DatabaseFileName(mid) && mid != "{0}config" && mid != "{-1}frontend"
  {
    if DbCond(name) {
      DbCondGivesShape(name);
    }
    forall mid | name == DatabaseFileName(mid) && mid != "{0}config" && mid != "{-1}frontend"
      ensures DbCond(name)
    {
      ShapeGivesDbCond(mid);
    }
  }

  /** `os.path.split(x)[1].replace('.ldif', '')`. */
  function DbName(file: string): string {
    RemoveOccurrences(Basename(file), LdifSuffix)
  }

  lemma PrefixHoldsNoSlashOrDot()
    ensures '/' !in DatabasePrefix && '.' !in DatabasePrefix
  {
    assert forall j :: 0 <= j < |DatabasePrefix| ==> DatabasePrefix[j] != '/' && DatabasePrefix[j] != '.';
  }

  /** The derived name of `olcDatabase=<mid><rest>`, where `<mid>` holds no
      `.` and no `/` and `<rest>` no `/`: only `<rest>` loses text. */
  lemma DbNameOfDatabasePrefix(mid: string, rest: string)
    requires '.' !in mid && '/' !in mid && '/' !in rest
    ensures DbName(DatabasePrefix + mid + rest) == DatabasePrefix + mid + RemoveOccurrences(rest, LdifSuffix)
  {
    var head := DatabasePrefix + mid;
    var file := head + rest;
    PrefixHoldsNoSlashOrDot();
    NotInConcat(DatabasePrefix, mid, '/');
    NotInConcat(DatabasePrefix, mid, '.');
    NotInConcat(head, rest, '/');
    assert Basename(file) == file;
    assert DbName(file) == RemoveOccurrences(file, LdifSuffix);
    RemoveOccurrencesKeepsPrefix(head, rest, LdifSuffix);
  }

  /** For a database file whose `<mid>` holds no `.` and no `/`, the derived
      name is the file name without its suffix, and `olDatabase` re-opens
      exactly the listed file. */
  lemma DbNameOfDatabaseFile(mid: string)
    requires '.' !in mid && '/' !in mid
    ensures DbName(DatabaseFileName(mid)) == DatabasePrefix + mid
    ensures DbName(DatabaseFileName(mid)) + LdifSuffix == DatabaseFileName(mid)
  {
    DbNameOfDatabasePrefix(mid, LdifSuffix);
    RemoveOccurrencesOfPattern(LdifSuffix);
    assert DatabasePrefix + mid + [] == DatabasePrefix + mid;
  }

  /** `replace` drops every `.ldif`, not only the final one: a listed file
      `olcDatabase=<mid>.ldif.ldif` is accepted, but the name derived from it
      is `olcDatabase=<mid>`, so `olDatabase` opens `olcDatabase=<mid>.ldif`,
      a different file. */
  lemma DbNameDropsInteriorSuffix(mid: string)
    requires '.' !in mid && '/' !in mid
    ensures DbCond(DatabaseFileName(mid + LdifSuffix))
    ensures DbName(DatabaseFileName(mid + LdifSuffix)) == DatabasePrefix + mid
    ensures DbName(DatabaseFileName(mid + LdifSuffix)) + LdifSuffix != DatabaseFileName(mid + LdifSuffix)
  {
    var inner := mid + LdifSuffix;
    assert inner[|mid|] == '.';
    assert '.' !in "{0}config" && '.' !in "{-1}frontend";
    ShapeGivesDbCond(inner);
    assert DatabaseFileName(inner) == DatabasePrefix + mid + (LdifSuffix + LdifSuffix);
    DbNameOfDatabasePrefix(mid, LdifSuffix + LdifSuffix);
    RemoveOccurrencesOfRepeatedPattern(LdifSuffix);
    assert DatabasePrefix + mid + [] == DatabasePrefix + mid;
  }

  /** The listed names `db_cond` accepts, in listing order. */
  function AcceptedFiles(listing: seq<string>): (r: seq<string>)
    ensures forall f :: multiset(r)[f] == if DbCond(f) then multiset(listing)[f] else 0
    ensures forall f :: f in r <==> f in listing && DbCond(f)
    ensures |r| <= |listing|
    decreases |listing|
  {
    if listing == [] then []
    else
      var init, last := listing[..|listing| - 1], listing[|listing| - 1];
      assert listing == init + [last];
      var r := AcceptedFiles(init) + (if DbCond(last) then [last] else []);
      assert forall f :: f in r <==> f in multiset(r);
      assert forall f :: f in listing <==> f in multiset(listing);
      r
  }

  /** The comprehension's element expression applied to every accepted file. */
  function DerivedNames(files: seq<string>): (r: seq<string>)
    ensures |r| == |files|
    ensures forall i :: 0 <= i < |files| ==> r[i] == DbName(files[i])
  {
    seq(|files|, i requires 0 <= i < |files| => DbName(files[i]))
  }

  /** `dbs` in `olConfig`: the sorted names of the database files. */
  function DatabaseNames(listing: seq<string>): (r: seq<string>)
    ensures Sorted(r)
    ensures multiset(r) == multiset(DerivedNames(AcceptedFiles(listing)))
    ensures |r| == |AcceptedFiles(listing)|
  {
    Sort(DerivedNames(AcceptedFiles(listing)))
  }

  lemma DerivedNamesSources(files: seq<string>, name: string)
    ensures name in DerivedNames(files) <==> exists f :: f in files && DbName(f) == name
  {
    var derived := DerivedNames(files);
    if name in derived {
      var i :| 0 <= i < |derived| && derived[i] == name;
      assert files[i] in files;
    }
    forall f | f in files && DbName(f) == name
      ensures name in derived
    {
      var i :| 0 <= i < |files| && files[i] == f;
      assert derived[i] == name;
    }
  }

  /** Every derived name comes from a listed file that `db_cond` accepts, and
      every accepted file contributes its derived name. */
  lemma DatabaseNamesSources(listing: seq<string>, name: string)
    ensures name in DatabaseNames(listing) <==>
      exists f :: f in listing && DbCond(f) && DbName(f) == name
  {
    var accepted := AcceptedFiles(listing);
    SortMembers(DerivedNames(accepted), name);
    DerivedNamesSources(accepted, name);
  }

  /** The derived list has one name per accepted listed file, counted with
      repetition, and none for a rejected one. */
  lemma DatabaseNamesCount(listing: seq<string>)
    ensures |DatabaseNames(listing)| == |listing| - |RejectedFiles(listing)|
  {
    AcceptedRejectedPartition(listing);
  }

  /** The listed names `db_cond` refuses. */
  function RejectedFiles(listing: seq<string>): (r: seq<string>)
    ensures forall f :: f in r <==> f in listing && !DbCond(f)
    decreases |listing|
  {
    if listing == [] then []
    else
      var init, last := listing[..|listing| - 1], listing[|listing| - 1];
      assert listing == init + [last];
      RejectedFiles(init) + (if DbCond(last) then [] else [last])
  }

  lemma {:induction false} AcceptedRejectedPartition(listing: seq<string>)
    ensures |AcceptedFiles(listing)| + |RejectedFiles(listing)| == |listing|
    decreases |listing|
  {
    if listing != [] {
      AcceptedRejectedPartition(listing[..|listing| - 1]);
    }
  }

  // ---------------------------------------------------------------------
  // The loaded configuration
  // ---------------------------------------------------------------------

  /** `olOverlay`: the single entry of an overlay file. */
  datatype OlOverlay = OlOverlay(config: Entry)

  /** `olDatabase`: the database's own entry and its overlays. */
  datatype OlDatabase = OlDatabase(config: Entry, overlays: seq<OlOverlay>)

  /** `olSchema`: one entry per schema file. */
  datatype OlSchema = OlSchema(schema: seq<Entry>)

  /** `olConfig`: the `cn=config` entry, the schema and the databases. */
  datatype OlConfig = OlConfig(configEntry: Entry, schema: OlSchema, databases: seq<OlDatabase>)

  const ConfigFile := "cn=config.ldif"
  const ConfigDir := "cn=config"
  const DatabaseDir := "cn=config/"
  const SchemaDir := "cn=config/cn=schema/"

  /** `olOverlay(path, name, log)`. */
  function LoadOverlay(fs: FsView, path: string, name: string): (r: Result<OlOverlay>)
    ensures r.Ok? <==> ReadSingleEntry(fs, path, name).Ok?
    ensures r.Ok? ==> ReadSingleEntry(fs, path, name) == Ok(r.value.config)
    ensures r.Err? ==> ReadSingleEntry(fs, path, name) == Err(r.error)
  {
    match ReadSingleEntry(fs, path, name)
    case Err(e) => Err(e)
    case Ok(config) => Ok(OlOverlay(config))
  }

  /** Every one of `files` in `path` holds exactly one entry. */
  predicate AllSingleEntries(fs: FsView, path: string, files: seq<string>) {
    forall i :: 0 <= i < |files| ==> ReadSingleEntry(fs, path, files[i]).Ok?
  }

  /** `e` is the failure of the first of `files` that does not hold exactly
      one entry. */
  predicate FirstFailure(fs: FsView, path: string, files: seq<string>, e: ConfigError) {
    exists i :: 0 <= i < |files| && ReadSingleEntry(fs, path, files[i]) == Err(e) &&
                forall j :: 0 <= j < i ==> ReadSingleEntry(fs, path, files[j]).Ok?
  }

  function OverlayLoader(fs: FsView, path: string): string -> Result<OlOverlay> {
    x => LoadOverlay(fs, path, x)
  }

  /** The overlay list of `olDatabase`: one overlay per file of `path`, in
      sorted name order. */
  function LoadOverlays(fs: FsView, path: string): (r: Result<seq<OlOverlay>>)
    ensures ListDir(fs, path).Err? ==> r == Err(DirectoryNotFound(path))
    ensures r.Ok? ==>
      && ListDir(fs, path).Ok?
      && var files := Sort(ListDir(fs, path).value);
         && |r.value| == |files|
         && forall i :: 0 <= i < |files| ==> ReadSingleEntry(fs, path, files[i]) == Ok(r.value[i].config)
    ensures ListDir(fs, path).Ok? ==>
      var files := Sort(ListDir(fs, path).value);
      && (r.Ok? <==> AllSingleEntries(fs, path, files))
      && (r.Err? ==> FirstFailure(fs, path, files, r.error))
  {
    match ListDir(fs, path)
    case Err(e) => Err(e)
    case Ok(files) =>
      OverlaysCollected(fs, path, Sort(files));
      Collect(Sort(files), OverlayLoader(fs, path))
  }

  /** The overlay comprehension over `files`, stated file by file. */
  lemma OverlaysCollected(fs: FsView, path: string, files: seq<string>)
    ensures var r := Collect(files, OverlayLoader(fs, path));
      && (r.Ok? ==> |r.value| == |files| &&
                    forall i :: 0 <= i < |files| ==> ReadSingleEntry(fs, path, files[i]) == Ok(r.value[i].config))
      && (r.Ok? <==> AllSingleEntries(fs, path, files))
      && (r.Err? ==> FirstFailure(fs, path, files, r.error))
  {
    var f := OverlayLoader(fs, path);
    var r := Collect(files, f);
    assert forall i :: 0 <= i < |files| ==> f(files[i]) == LoadOverlay(fs, path, files[i]);
    if r.Err? {
      var i :| 0 <= i < |files| && f(files[i]) == Err(r.error) && forall j :: 0 <= j < i ==> f(files[j]).Ok?;
      assert ReadSingleEntry(fs, path, files[i]) == Err(r.error);
    }
  }

  /** A listed directory every file of which holds exactly one entry loads,
      both as an overlay directory and as a schema directory. */
  lemma WellFormedDirectoryLoads(fs: FsView, path: string)
    requires ListDir(fs, path).Ok?
    requires forall x :: x in ListDir(fs, path).value ==> ReadSingleEntry(fs, path, x).Ok?
    ensures LoadOverlays(fs, path).Ok?
    ensures LoadSchema(fs, path).Ok?
  {
    var files := Sort(ListDir(fs, path).value);
    forall i | 0 <= i < |files| ensures ReadSingleEntry(fs, path, files[i]).Ok? {
      SortMembers(ListDir(fs, path).value, files[i]);
    }
  }

  /** `olDatabase(path, name, log)`: the entry of `<name>.ldif`, then the
      overlays in the directory `<name>`. */
  function LoadDatabase(fs: FsView, path: string, name: string): (r: Result<OlDatabase>)
    ensures ReadSingleEntry(fs, path, name + LdifSuffix).Err? ==>
      r == Err(ReadSingleEntry(fs, path, name + LdifSuffix).error)
    ensures ReadSingleEntry(fs, path, name + LdifSuffix).Ok? ==>
      r == match LoadOverlays(fs, Join(path, name))
           case Err(e) => Err(e)
           case Ok(overlays) => Ok(OlDatabase(ReadSingleEntry(fs, path, name + LdifSuffix).value, overlays))
  {
    match ReadSingleEntry(fs, path, name + LdifSuffix)
    case Err(e) => Err(e)
    case Ok(config) =>
      match LoadOverlays(fs, Join(path, name))
      case Err(e) => Err(e)
      case Ok(overlays) => Ok(OlDatabase(config, overlays))
  }

  function EntryReader(fs: FsView, path: string): string -> Result<Entry> {
    x => ReadSingleEntry(fs, path, x)
  }

  /** `olSchema(path, log)`: one entry per file of `path`, in sorted name order. */
  function LoadSchema(fs: FsView, path: string): (r: Result<OlSchema>)
    ensures ListDir(fs, path).Err? ==> r == Err(DirectoryNotFound(path))
    ensures r.Ok? ==>
      && ListDir(fs, path).Ok?
      && var files := Sort(ListDir(fs, path).value);
         && |r.value.schema| == |files|
         && forall i :: 0 <= i < |files| ==> ReadSingleEntry(fs, path, files[i]) == Ok(r.value.schema[i])
    ensures ListDir(fs, path).Ok? ==>
      var files := Sort(ListDir(fs, path).value);
      && (r.Ok? <==> AllSingleEntries(fs, path, files))
      && (r.Err? ==> FirstFailure(fs, path, files, r.error))
  {
    match ListDir(fs, path)
    case Err(e) => Err(e)
    case Ok(files) =>
      match Collect(Sort(files), EntryReader(fs, path))
      case Err(e) => Err(e)
      case Ok(entries) => Ok(OlSchema(entries))
  }

  /** The loop of `olSchema.__init__`: parse each sorted schema file, check it
      holds one entry and append that entry to `schema`. */
  method BuildSchema(fs: FsView, path: string) returns (r: Result<OlSchema>)
    ensures r == LoadSchema(fs, path)
  {
    var listing := ListDir(fs, path);
    if listing.Err? {
      return Err(listing.error);
    }
    var schemas := Sort(listing.value);
    var schema: seq<Entry> := [];
    var i := 0;
    while i < |schemas|
      invariant 0 <= i <= |schemas|
      invariant Collect(schemas[..i], EntryReader(fs, path)) == Ok(schema)
    {
      var entries := LdifParse(fs, path, schemas[i]);
      CollectStep(schemas, i, EntryReader(fs, path), schema);
      if entries.Err? {
        return Err(entries.error);
      }
      if |entries.value| != 1 {
        return Err(EntryCountMismatch(Join(path, schemas[i]), |entries.value|));
      }
      schema := schema + [entries.value[|entries.value| - 1]];
      i := i + 1;
    }
    assert schemas[..i] == schemas;
    r := Ok(OlSchema(schema));
  }

  function DatabaseLoader(fs: FsView, path: string): string -> Result<OlDatabase> {
    x => LoadDatabase(fs, path, x)
  }

  /** The database list of `olConfig`: one database per derived name of
      the listing of `cn=config`, in the same order. */
  function LoadDatabases(fs: FsView, path: string): (r: Result<seq<OlDatabase>>)
    ensures ListDir(fs, Join(path, ConfigDir)).Err? ==> r == Err(DirectoryNotFound(Join(path, ConfigDir)))
    ensures r.Ok? ==>
      && ListDir(fs, Join(path, ConfigDir)).Ok?
      && var dbs := DatabaseNames(ListDir(fs, Join(path, ConfigDir)).value);
         && |r.value| == |dbs|
         && forall i :: 0 <= i < |dbs| ==> LoadDatabase(fs, Join(path, DatabaseDir), dbs[i]) == Ok(r.value[i])
    ensures ListDir(fs, Join(path, ConfigDir)).Ok? ==>
      var dbs := DatabaseNames(ListDir(fs, Join(path, ConfigDir)).value);
      && (r.Ok? <==> AllDatabasesLoad(fs, Join(path, DatabaseDir), dbs))
      && (r.Err? ==> FirstDatabaseFailure(fs, Join(path, DatabaseDir), dbs, r.error))
  {
    match ListDir(fs, Join(path, ConfigDir))
    case Err(e) => Err(e)
    case Ok(files) =>
      DatabasesCollected(fs, Join(path, DatabaseDir), DatabaseNames(files));
      Collect(DatabaseNames(files), DatabaseLoader(fs, Join(path, DatabaseDir)))
  }

  /** Every one of the names `dbs` loads as a database under `path`. */
  predicate AllDatabasesLoad(fs: FsView, path: string, dbs: seq<string>) {
    forall i :: 0 <= i < |dbs| ==> LoadDatabase(fs, path, dbs[i]).Ok?
  }

  /** `e` is the failure of the first of `dbs` that does not load. */
  predicate FirstDatabaseFailure(fs: FsView, path: string, dbs: seq<string>, e: ConfigError) {
    exists i :: 0 <= i < |dbs| && LoadDatabase(fs, path, dbs[i]) == Err(e) &&
                forall j :: 0 <= j < i ==> LoadDatabase(fs, path, dbs[j]).Ok?
  }

  /** The database comprehension over `dbs`, stated name by name. */
  lemma DatabasesCollected(fs: FsView, path: string, dbs: seq<string>)
    ensures var r := Collect(dbs, DatabaseLoader(fs, path));
      && (r.Ok? ==> |r.value| == |dbs| &&
                    forall i :: 0 <= i < |dbs| ==> LoadDatabase(fs, path, dbs[i]) == Ok(r.value[i]))
      && (r.Ok? <==> AllDatabasesLoad(fs, path, dbs))
      && (r.Err? ==> FirstDatabaseFailure(fs, path, dbs, r.error))
  {
    var f := DatabaseLoader(fs, path);
    assert forall i :: 0 <= i < |dbs| ==> f(dbs[i]) == LoadDatabase(fs, path, dbs[i]);
  }

  /** `olConfig(path)`: `cn=config.ldif`, then the schema directory, then the
      databases. */
  function LoadConfig(fs: FsView, path: string): (r: Result<OlConfig>)
    ensures ReadSingleEntry(fs, path, ConfigFile).Err? ==>
      r == Err(ReadSingleEntry(fs, path, ConfigFile).error)
    ensures r.Ok? ==>
      && ReadSingleEntry(fs, path, ConfigFile) == Ok(r.value.configEntry)
      && LoadSchema(fs, Join(path, SchemaDir)) == Ok(r.value.schema)
      && LoadDatabases(fs, path) == Ok(r.value.databases)
    ensures r.Ok? <==>
      ReadSingleEntry(fs, path, ConfigFile).Ok? && LoadSchema(fs, Join(path, SchemaDir)).Ok? && LoadDatabases(fs, path).Ok?
    ensures ReadSingleEntry(fs, path, ConfigFile).Ok? && LoadSchema(fs, Join(path, SchemaDir)).Err? ==>
      r == Err(LoadSchema(fs, Join(path, SchemaDir)).error)
    ensures ReadSingleEntry(fs, path, ConfigFile).Ok? && LoadSchema(fs, Join(path, SchemaDir)).Ok? &&
            LoadDatabases(fs, path).Err? ==>
      r == Err(LoadDatabases(fs, path).error)
  {
    match ReadSingleEntry(fs, path, ConfigFile)
    case Err(e) => Err(e)
    case Ok(configEntry) =>
      match LoadSchema(fs, Join(path, SchemaDir))
      case Err(e) => Err(e)
      case Ok(schema) =>
        match LoadDatabases(fs, path)
        case Err(e) => Err(e)
        case Ok(databases) => Ok(OlConfig(configEntry, schema, databases))
  }

  /** A loaded configuration holds one database per derived name, in the
      sorted order of the names, each from its `<name>.ldif` and `<name>/`. */
  lemma LoadConfigDatabases(fs: FsView, path: string, cfg: OlConfig)
    requires LoadConfig(fs, path) == Ok(cfg)
    ensures ListDir(fs, Join(path, ConfigDir)).Ok?
    ensures var dbs := DatabaseNames(ListDir(fs, Join(path, ConfigDir)).value);
      && Sorted(dbs)
      && |cfg.databases| == |dbs|
      && forall i :: 0 <= i < |dbs| ==> LoadDatabase(fs, Join(path, DatabaseDir), dbs[i]) == Ok(cfg.databases[i])
  {
  }
}
