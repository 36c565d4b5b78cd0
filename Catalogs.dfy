/**
  The format logic of AegeanTools/catalogs.py: which table formats are
  supported, the metadata every written catalog carries, which reader or
  writer a file name selects, the columns and file names of a written
  table, how a table is turned back into sources, the column types of the
  FITS and sqlite writers, and the geometry of the DS9 region files drawn
  around islands.  The writers and readers themselves (astropy, h5py,
  sqlite3, file output) are not part of this model.
 */
module Catalogs {
  import opened Options
  import opened PyText

  // ---------------------------------------------------------------------
  // Supported formats

  /** `get_table_formats()`, given whether h5py could be imported. */
  function TableFormats(hdf5: bool): (r: seq<string>)
    ensures "hdf5" in r <==> hdf5
    ensures "ann" !in r
  {
    ["reg", "fits"] + ["vo", "vot", "xml"] + ["csv", "tab", "tex", "html"]
      + (if hdf5 then ["hdf5"] else []) + ["db", "sqlite"]
  }

  /** `check_table_formats(files)`: whether every comma-separated file name
      has an extension that `get_table_formats()` lists. */
  method CheckTableFormats(files: string, hdf5: bool) returns (cont: bool)
    ensures cont <==> forall t :: t in Split(files, ',') ==> Extension(t) in TableFormats(hdf5)
  {
    var formats := TableFormats(hdf5);
    var names := Split(files, ',');
    cont := AllKnown(names, formats);
  }

  /** The extensions of `names`, in order. */
  function Extensions(names: seq<string>): seq<string>
  {
    if names == [] then [] else Extensions(names[..|names| - 1]) + [Extension(names[|names| - 1])]
  }

  /** Every extension of the list is listed exactly when every name's is. */
  lemma {:induction false} ExtensionsKnown(names: seq<string>, formats: seq<string>)
    ensures (forall e :: e in Extensions(names) ==> e in formats) <==>
      forall t :: t in names ==> Extension(t) in formats
    decreases |names|
  {
    if names != [] {
      var init := names[..|names| - 1];
      ExtensionsKnown(init, formats);
      assert names == init + [names[|names| - 1]];
    }
  }

  /** The loop of `check_table_formats` over the names. */
  method AllKnown(names: seq<string>, formats: seq<string>) returns (cont: bool)
    ensures cont <==> forall t :: t in names ==> Extension(t) in formats
  {
    cont := true;
    ghost var exts: seq<string> := [];
    for i := 0 to |names|
      invariant exts == Extensions(names[..i])
      invariant cont <==> forall e :: e in exts ==> e in formats
    {
      var ext := Extension(names[i]);
      if ext !in formats {
        cont := false;
      }
      assert names[..i + 1][..i] == names[..i];
      exts := exts + [ext];
    }
    assert names[..|names|] == names;
    ExtensionsKnown(names, formats);
  }

  // ---------------------------------------------------------------------
  // Metadata

  const ProgramName: string := "AegeanTools.catalogs"
  /** `"{0}-({1})".format(__version__, __date__)`. */
  const ProgramVersion: string := "1.0-(2016-07-26)"

  /** The metadata after `update_meta_data`, with `now` the formatted time:
      DATE, PROGRAM and PROGVER added where missing, PROGVER only together
      with a missing PROGRAM, and nothing else changed. */
  function WithDefaults(items: map<string, string>, now: string): (r: map<string, string>)
    ensures "DATE" in r && r["DATE"] == (if "DATE" in items then items["DATE"] else now)
    ensures "PROGRAM" in r && r["PROGRAM"] == (if "PROGRAM" in items then items["PROGRAM"] else ProgramName)
    ensures "PROGRAM" !in items ==> "PROGVER" in r && r["PROGVER"] == ProgramVersion
    ensures forall k :: k in items && (k == "PROGVER" ==> "PROGRAM" in items) ==> k in r && r[k] == items[k]
    ensures forall k :: k in r ==> k in items || k == "DATE" || k == "PROGRAM" || k == "PROGVER"
  {
    var dated := if "DATE" in items then items else items["DATE" := now];
    if "PROGRAM" in dated then dated else dated["PROGRAM" := ProgramName]["PROGVER" := ProgramVersion]
  }

  /** Defaults once added stay: a second update, at any later time, changes nothing. */
  lemma WithDefaultsIdempotent(items: map<string, string>, now: string, later: string)
    ensures WithDefaults(WithDefaults(items, now), later) == WithDefaults(items, now)
  {
    var once := WithDefaults(items, now);
    assert "DATE" in once && "PROGRAM" in once;
  }

  /** A metadata dictionary, updated in place. */
  class Meta {
    var items: map<string, string>

    constructor ()
      ensures items == map[]
    {
      items := map[];
    }
  }

  /** `update_meta_data(meta)`: a fresh dictionary for None, otherwise the
      given one, with the defaults filled in. */
  method UpdateMetaData(meta: Meta?, now: string) returns (m: Meta)
    modifies meta
    ensures meta != null ==> m == meta
    ensures meta == null ==> fresh(m)
    ensures m.items == WithDefaults(if meta == null then map[] else old(meta.items), now)
  {
    if meta == null {
      m := new Meta();
    } else {
      m := meta;
    }
    if "DATE" !in m.items {
      m.items := m.items["DATE" := now];
    }
    if "PROGRAM" !in m.items {
      m.items := m.items["PROGRAM" := ProgramName];
      m.items := m.items["PROGVER" := ProgramVersion];
    }
  }

  // ---------------------------------------------------------------------
  // Readers and writers chosen by extension

  /** What `save_catalog` hands the catalog to: the annotation writer, the
      sqlite writer, or `write_catalog` with a format and with or without
      the metadata. */
  datatype Writer = Annotation(ext: string) | Database | Catalog(fmt: string, withMeta: bool)

  /** astropy's names of the plain-text table formats. */
  function AsciiFormat(ext: string): Option<string>
  {
    if ext == "csv" then Some("csv")
    else if ext == "tab" then Some("tab")
    else if ext == "tex" then Some("latex")
    else if ext == "html" then Some("html")
    else None
  }

  /** The writer `save_catalog` picks for a file with extension `ext`. */
  function SaveWriter(ext: string): (r: Writer)
  {
    if ext in ["ann", "reg"] then Annotation(ext)
    else if ext in ["db", "sqlite"] then Database
    else if ext in ["hdf5", "fits", "vo", "vot", "xml"] then Catalog(ext, true)
    else if AsciiFormat(ext).Some? then Catalog(AsciiFormat(ext).value, true)
    else Catalog("tab", false)
  }

  /** `save_catalog(filename, ...)`: the writer, and the metadata it is
      given -- always updated, even where the fallback writer then drops it. */
  function SaveCatalog(filename: string, meta: map<string, string>, now: string): (r: (Writer, map<string, string>))
    ensures r.0 == SaveWriter(Extension(filename))
    ensures r.1 == WithDefaults(meta, now)
  {
    (SaveWriter(Extension(filename)), WithDefaults(meta, now))
  }

  /** Every format that `check_table_formats` accepts is saved by its own
      writer, with the metadata; only an unknown extension falls back to a
      tab-separated table without it. */
  lemma SaveHandlesAcceptedFormats(ext: string, hdf5: bool)
    ensures ext in TableFormats(hdf5) ==>
      match SaveWriter(ext)
      case Annotation(e) => e == ext == "reg"
      case Database => ext in ["db", "sqlite"]
      case Catalog(fmt, withMeta) => withMeta && (fmt == ext || Some(fmt) == AsciiFormat(ext))
    ensures SaveWriter(ext) == Catalog("tab", false) <==> ext !in TableFormats(true) && ext != "ann"
  {
  }

  /** The table writers of `write_catalog`'s inner `writer`. */
  datatype TableWriter = VOTable | HDF5 | FITS | Ascii(fmt: Option<string>)

  /** The writer chosen for a `fmt` argument (None when no format was given). */
  function WriterFor(fmt: Option<string>): (r: TableWriter)
    ensures r == VOTable <==> fmt in [Some("vot"), Some("vo"), Some("xml")]
    ensures r == HDF5 <==> fmt == Some("hdf5")
    ensures r == FITS <==> fmt == Some("fits")
    ensures r.Ascii? ==> r.fmt == fmt
    ensures fmt.None? ==> r == Ascii(None)
  {
    match fmt
    case None => Ascii(None)
    case Some(f) =>
      if f in ["vot", "vo", "xml"] then VOTable
      else if f == "hdf5" then HDF5
      else if f == "fits" then FITS
      else Ascii(fmt)
  }

  /** The table writer a file saved by `save_catalog` ends up with, for the
      extensions that reach `write_catalog`: VO tables, HDF5 and FITS by
      their own writers, the plain-text formats by astropy's ASCII writer
      under astropy's name, and anything unrecognised as a tab table. */
  lemma SavedTableWriter(ext: string)
    ensures SaveWriter(ext).Catalog? <==> ext !in ["ann", "reg", "db", "sqlite"]
    ensures ext in ["vo", "vot", "xml"] ==> WriterFor(Some(SaveWriter(ext).fmt)) == VOTable
    ensures ext == "hdf5" ==> WriterFor(Some(SaveWriter(ext).fmt)) == HDF5
    ensures ext == "fits" ==> WriterFor(Some(SaveWriter(ext).fmt)) == FITS
    ensures AsciiFormat(ext).Some? ==> WriterFor(Some(SaveWriter(ext).fmt)) == Ascii(AsciiFormat(ext))
    ensures ext == "tex" ==> WriterFor(Some(SaveWriter(ext).fmt)) == Ascii(Some("latex"))
    ensures ext !in ["ann", "reg", "db", "sqlite", "hdf5", "fits", "vo", "vot", "xml"] && AsciiFormat(ext).None? ==>
      WriterFor(Some(SaveWriter(ext).fmt)) == Ascii(Some("tab"))
  {
  }

  /** How `load_catalog` reads a file: an astropy ASCII table, a VO table,
      or two whitespace-separated columns of floats. */
  datatype CatalogReader = AsciiTable | VOTableFile | TwoColumns

  function LoadCatalogReader(fmt: string, hdf5: bool): (r: CatalogReader)
    ensures r == AsciiTable <==> fmt in ["csv", "tab", "tex"]
    ensures r == VOTableFile <==> fmt in ["vo", "vot", "xml"]
  {
    var supported := TableFormats(hdf5);
    if fmt in ["csv", "tab", "tex"] && fmt in supported then AsciiTable
    else if fmt in ["vo", "vot", "xml"] && fmt in supported then VOTableFile
    else TwoColumns
  }

  /** How `load_table` reads a file; None where it raises "Table format not
      recognized or supported". */
  datatype TableReader = AsciiRead | TableRead

  function LoadTableReader(fmt: string, hdf5: bool): (r: Option<TableReader>)
    ensures r == Some(AsciiRead) <==> fmt in ["csv", "tab", "tex"]
    ensures r == Some(TableRead) <==> fmt in ["vo", "vot", "xml", "fits"] || (hdf5 && fmt == "hdf5")
  {
    var supported := TableFormats(hdf5);
    if fmt in ["csv", "tab", "tex"] && fmt in supported then Some(AsciiRead)
    else if fmt in ["vo", "vot", "xml", "fits", "hdf5"] && fmt in supported then Some(TableRead)
    else None
  }

  // ---------------------------------------------------------------------
  // Output file names

  /** `"{1}{0}{2}".format(tag, *os.path.splitext(filename))`. */
  function Suffixed(filename: string, tag: string): string
  {
    SplitExt(filename).0 + tag + SplitExt(filename).1
  }

  /** The suffixes of the files `write_catalog` writes. */
  predicate KnownTag(tag: string)
  {
    tag == "_comp" || tag == "_isle" || tag == "_simp"
  }

  /** The files `write_catalog` writes: one per non-empty class of sources,
      components, islands and simple sources in that order. */
  function OutputNames(filename: string, components: nat, islands: nat, simples: nat): (r: seq<string>)
    ensures |r| == (if components > 0 then 1 else 0) + (if islands > 0 then 1 else 0) + (if simples > 0 then 1 else 0)
    ensures forall i :: 0 <= i < |r| ==>
      r[i] == Suffixed(filename, "_comp") || r[i] == Suffixed(filename, "_isle") || r[i] == Suffixed(filename, "_simp")
    ensures components > 0 ==> r[0] == Suffixed(filename, "_comp")
    ensures islands > 0 ==> r[if components > 0 then 1 else 0] == Suffixed(filename, "_isle")
    ensures simples > 0 ==> r[|r| - 1] == Suffixed(filename, "_simp")
  {
    (if components > 0 then [Suffixed(filename, "_comp")] else [])
      + (if islands > 0 then [Suffixed(filename, "_isle")] else [])
      + (if simples > 0 then [Suffixed(filename, "_simp")] else [])
  }

  /** A suffix made of letters keeps the extension of the name it is put into. */
  lemma SuffixKeepsExtension(filename: string, tag: string)
    requires SplitExt(filename).1 != []
    requires |tag| >= 1 && tag[|tag| - 1] != '.' && forall k :: 0 <= k < |tag| ==> tag[k] != '/'
    ensures SplitExt(Suffixed(filename, tag)) == (SplitExt(filename).0 + tag, SplitExt(filename).1)
    ensures Extension(Suffixed(filename, tag)) == Extension(filename)
  {
    var (root, ext) := SplitExt(filename);
    SplitExtSpec(filename);
    assert IsExt(ext) by {
      forall k | 1 <= k < |ext| ensures ext[k] != '.' && ext[k] != '/' {
        assert ext[k] == filename[|root| + k];
      }
    }
    var stem := root + tag;
    RFindPrefix(root, tag, '/');
    assert !AllDots(stem, RFind(stem, '/') + 1, |stem|) by {
      assert stem[|stem| - 1] != '.';
    }
    SplitExtJoin(stem, ext);
  }

  /** Each suffix `write_catalog` uses keeps the extension. */
  lemma TagKeepsExtension(filename: string, tag: string)
    requires SplitExt(filename).1 != [] && KnownTag(tag)
    ensures Extension(Suffixed(filename, tag)) == Extension(filename)
  {
    assert |tag| == 5 && tag[4] != '.' && forall k :: 0 <= k < 5 ==> tag[k] != '/';
    SuffixKeepsExtension(filename, tag);
  }

  /** Every file that `write_catalog` writes for a table format that
      `load_table` knows has the extension of the name it was given, so
      `load_table` reads it back with the same reader. */
  lemma WrittenTablesLoad(filename: string, hdf5: bool, components: nat, islands: nat, simples: nat)
    requires LoadTableReader(Extension(filename), hdf5).Some?
    ensures var names := OutputNames(filename, components, islands, simples);
      forall i :: 0 <= i < |names| ==>
        Extension(names[i]) == Extension(filename) &&
        LoadTableReader(Extension(names[i]), hdf5) == LoadTableReader(Extension(filename), hdf5)
  {
    assert SplitExt(filename).1 != [] by {
      assert Extension(filename) != [];
    }
    TagKeepsExtension(filename, "_comp");
    TagKeepsExtension(filename, "_isle");
    TagKeepsExtension(filename, "_simp");
  }

  // ---------------------------------------------------------------------
  // Columns of a written table

  predicate StartsWith(s: string, p: string)
  {
    |p| <= |s| && s[..|p|] == p
  }

  predicate EndsWith(s: string, p: string)
  {
    |p| <= |s| && s[|s| - |p|..] == p
  }

  /** The column name `writer` uses for attribute `name`: with galactic
      coordinates the first of these rules that matches renames it -- a
      leading "ra" becomes "lon", a trailing "ra" becomes "lon", a leading
      "dec" becomes "lat", a trailing "dec" becomes "lat". */
  function ColumnName(name: string, galactic: bool): (r: string)
    ensures !galactic ==> r == name
    ensures (galactic && !StartsWith(name, "ra") && !EndsWith(name, "ra") &&
             !StartsWith(name, "dec") && !EndsWith(name, "dec")) ==> r == name
  {
    if !galactic then name
    else if StartsWith(name, "ra") then "lon" + name[2..]
    else if EndsWith(name, "ra") then name[..|name| - 2] + "lon"
    else if StartsWith(name, "dec") then "lat" + name[3..]
    else if EndsWith(name, "dec") then name[..|name| - 3] + "lat"
    else name
  }

  /** The galactic name, by the shape of the equatorial one: the part of the
      name that is not the coordinate stays as it is. */
  lemma ColumnNameByShape(rest: string)
    ensures ColumnName("ra" + rest, true) == "lon" + rest
    ensures !StartsWith(rest + "ra", "ra") ==> ColumnName(rest + "ra", true) == rest + "lon"
    ensures !StartsWith("dec" + rest, "ra") && !EndsWith("dec" + rest, "ra") ==>
      ColumnName("dec" + rest, true) == "lat" + rest
    ensures !StartsWith(rest + "dec", "ra") && !EndsWith(rest + "dec", "ra") && !StartsWith(rest + "dec", "dec") ==>
      ColumnName(rest + "dec", true) == rest + "lat"
  {
    assert ("ra" + rest)[..2] == "ra" && ("ra" + rest)[2..] == rest;
    assert (rest + "ra")[|rest|..] == "ra" && (rest + "ra")[..|rest|] == rest;
    assert ("dec" + rest)[..3] == "dec" && ("dec" + rest)[3..] == rest;
    assert (rest + "dec")[|rest|..] == "dec" && (rest + "dec")[..|rest|] == rest;
  }

  /** A value of a source attribute or a table cell, by Python type. */
  datatype Value =
    | Bool(b: bool)
    | Int(i: int)          // int, numpy.int32, numpy.int64
    | Float(f: real)       // float, numpy.float64
    | Float32(g: real)     // numpy.float32
    | Str(s: string)
    | NoneValue
    | Other                // any other type, numpy.bool_ among them

  /** A source, by the attributes it has. */
  type Record = map<string, Value>

  /** `[getattr(c, name, None) for c in catalog]`. */
  function Attribute(catalog: seq<Record>, name: string): (r: seq<Option<Value>>)
    ensures |r| == |catalog|
    ensures forall k :: 0 <= k < |catalog| ==> (r[k].Some? <==> name in catalog[k])
    ensures forall k :: 0 <= k < |catalog| && name in catalog[k] ==> r[k] == Some(catalog[k][name])
  {
    seq(|catalog|, k requires 0 <= k < |catalog| => if name in catalog[k] then Some(catalog[k][name]) else None)
  }

  /** No later entry of `names` equals entry `i`. */
  predicate LastOf(names: seq<string>, i: int)
    requires 0 <= i < |names|
  {
    forall j :: i < j < |names| ==> names[j] != names[i]
  }

  /** The loop of `writer`: the column dictionary and the column order.  A
      column holds the attribute of the last name that maps to it. */
  method BuildColumns(names: seq<string>, galactic: bool, catalog: seq<Record>)
    returns (tab: map<string, seq<Option<Value>>>, nameList: seq<string>)
    ensures |nameList| == |names| && forall i :: 0 <= i < |names| ==> nameList[i] == ColumnName(names[i], galactic)
    ensures forall c :: c in tab <==> c in nameList
    ensures forall i :: 0 <= i < |names| && LastOf(nameList, i) ==> tab[nameList[i]] == Attribute(catalog, names[i])
  {
    tab := map[];
    nameList := [];
    for i := 0 to |names|
      invariant |nameList| == i && forall k :: 0 <= k < i ==> nameList[k] == ColumnName(names[k], galactic)
      invariant forall c :: c in tab <==> c in nameList
      invariant forall k :: 0 <= k < i && LastOf(nameList, k) ==> tab[nameList[k]] == Attribute(catalog, names[k])
    {
      var colName := ColumnName(names[i], galactic);
      ColumnStep(tab, nameList, names, catalog, colName, i);
      tab := tab[colName := Attribute(catalog, names[i])];
      nameList := nameList + [colName];
    }
  }

  /** Adding column `colName` keeps the columns whose name is not taken again. */
  lemma ColumnStep(tab: map<string, seq<Option<Value>>>, nameList: seq<string>, names: seq<string>,
                   catalog: seq<Record>, colName: string, i: int)
    requires 0 <= i < |names| && |nameList| == i
    requires forall c :: c in tab <==> c in nameList
    requires forall k :: 0 <= k < i && LastOf(nameList, k) ==> tab[nameList[k]] == Attribute(catalog, names[k])
    ensures forall k :: 0 <= k <= i && LastOf(nameList + [colName], k) ==>
      tab[colName := Attribute(catalog, names[i])][(nameList + [colName])[k]] == Attribute(catalog, names[k])
  {
    var list1 := nameList + [colName];
    forall k | 0 <= k < i && LastOf(list1, k)
      ensures tab[colName := Attribute(catalog, names[i])][list1[k]] == Attribute(catalog, names[k])
    {
      assert list1[i] == colName && list1[k] == nameList[k] != colName;
      assert LastOf(nameList, k) by {
        forall j | k < j < i ensures nameList[j] != nameList[k] {
          assert nameList[j] == list1[j];
        }
      }
    }
  }

  // ---------------------------------------------------------------------
  // Tables back to sources

  /** A table: its column names and its rows. */
  datatype Table = Table(colnames: seq<string>, rows: seq<Record>)

  /** Every row has a value in every column. */
  predicate WellFormed(t: Table)
  {
    forall i, c :: 0 <= i < |t.rows| && c in t.colnames ==> c in t.rows[i]
  }

  /** A float32 cell is read as a float64 of the same value. */
  function Widen(v: Value): (r: Value)
    ensures !r.Float32?
    ensures v.Float32? ==> r == Float(v.g)
    ensures !v.Float32? ==> r == v
  {
    if v.Float32? then Float(v.g) else v
  }

  /** A kind of source: the attribute names it declares, and the attributes
      a new one starts with. */
  datatype SourceType = SourceType(names: seq<string>, defaults: Record)

  /** The attributes of the source made from `row`: the defaults, and every
      declared name that is also a column set to the row's (widened) value. */
  ghost function Copied(st: SourceType, colnames: seq<string>, row: Record): (r: Record)
    requires forall c :: c in colnames ==> c in row
    ensures forall k :: k in r <==> k in st.defaults || (k in st.names && k in colnames)
    ensures forall k :: k in r ==> r[k] == if k in st.names && k in colnames then Widen(row[k]) else st.defaults[k]
  {
    map k | k in st.defaults.Keys + (set n | n in st.names && n in colnames) ::
      if k in st.names && k in colnames then Widen(row[k]) else st.defaults[k]
  }

  /** A source object whose attributes are set one by one. */
  class Source {
    var fields: Record

    constructor (defaults: Record)
      ensures fields == defaults
    {
      fields := defaults;
    }
  }

  /** `table_to_source_list(table, src_type)`: no sources for no table,
      otherwise one new source per row, in row order. */
  method TableToSourceList(table: Option<Table>, st: SourceType) returns (sources: seq<Source>)
    requires table.Some? ==> WellFormed(table.value)
    ensures table.None? ==> sources == []
    ensures table.Some? ==> |sources| == |table.value.rows|
    ensures table.Some? ==>
      forall i :: 0 <= i < |sources| ==> sources[i].fields == Copied(st, table.value.colnames, table.value.rows[i])
    ensures forall i, j :: 0 <= i < j < |sources| ==> sources[i] != sources[j]
    ensures forall i :: 0 <= i < |sources| ==> fresh(sources[i])
  {
    sources := [];
    if table.None? {
      return;
    }
    var t := table.value;
    for i := 0 to |t.rows|
      invariant |sources| == i
      invariant forall k :: 0 <= k < i ==> sources[k].fields == Copied(st, t.colnames, t.rows[k])
      invariant forall k, j :: 0 <= k < j < i ==> sources[k] != sources[j]
      invariant forall k :: 0 <= k < i ==> fresh(sources[k])
    {
      var src := SourceFromRow(t, i, st);
      sources := sources + [src];
    }
  }

  /** The body of the loop over rows: a new source with the row copied in. */
  method SourceFromRow(t: Table, i: int, st: SourceType) returns (src: Source)
    requires WellFormed(t) && 0 <= i < |t.rows|
    ensures fresh(src) && src.fields == Copied(st, t.colnames, t.rows[i])
  {
    var row := t.rows[i];
    src := new Source(st.defaults);
    for j := 0 to |st.names|
      invariant forall k :: k in src.fields <==> k in st.defaults || (k in st.names[..j] && k in t.colnames)
      invariant forall k :: k in src.fields ==>
        src.fields[k] == if k in st.names[..j] && k in t.colnames then Widen(row[k]) else st.defaults[k]
    {
      var param := st.names[j];
      assert st.names[..j + 1] == st.names[..j] + [param];
      if param in t.colnames {
        var val := row[param];
        if val.Float32? {
          val := Float(val.g);
        }
        src.fields := src.fields[param := val];
      }
    }
    assert st.names[..|st.names|] == st.names;
    ghost var want := Copied(st, t.colnames, row);
    assert src.fields.Keys == want.Keys;
  }

  // ---------------------------------------------------------------------
  // Column types

  /** `isinstance(v, int)`: Python's bools are ints too. */
  predicate IsInt(v: Value)
  {
    v.Bool? || v.Int?
  }

  /** `FITSTableType(val)`: the FITS column format of a value -- bool is
      tested before int, a string of `n` characters is `"<n>A"`, and any
      other type falls back to `"5A"`. */
  function FitsType(v: Value): (r: string)
    ensures r == "L" <==> v.Bool?
    ensures r == "J" <==> v.Int?
    ensures r == "E" <==> v.Float? || v.Float32?
    ensures |r| >= 2 <==> v.Str? || !(IsInt(v) || v.Float? || v.Float32?)
    ensures |r| >= 2 ==> r[|r| - 1] == 'A' && forall k :: 0 <= k < |r| - 1 ==> '0' <= r[k] <= '9'
    ensures v.Str? ==> DigitsValue(r[..|r| - 1]) == |v.s|
    ensures !v.Str? && !(IsInt(v) || v.Float? || v.Float32?) ==> r == "5A"
  {
    if v.Bool? then "L"
    else if IsInt(v) then "J"
    else if v.Float? || v.Float32? then "E"
    else if v.Str? then
      var d := Decimal(|v.s|);
      DecimalValue(|v.s|);
      assert (d + "A")[..|d|] == d;
      d + "A"
    else "5A"
  }

  /** The sqlite column type of a value, from `sqlTypes`: bool before int,
      and VARCHAR for strings and for anything unknown. */
  function SqlType(v: Value): (r: string)
  {
    if v.Bool? then "BOOL"
    else if IsInt(v) then "INT"
    else if v.Float? || v.Float32? then "FLOAT"
    else "VARCHAR"
  }

  /** `sqlTypes(obj, names)`: the type of each named attribute, or None
      where a name is missing and `getattr` raises. */
  function SqlTypes(obj: Record, names: seq<string>): (r: Option<seq<string>>)
    ensures r.Some? <==> forall n :: n in names ==> n in obj
    ensures r.Some? ==> |r.value| == |names| && forall i :: 0 <= i < |names| ==> r.value[i] == SqlType(obj[names[i]])
  {
    if forall n :: n in names ==> n in obj then
      Some(seq(|names|, i requires 0 <= i < |names| => SqlType(obj[names[i]])))
    else None
  }

  /** The FITS and sqlite writers classify values alike: the same values are
      booleans, integers and floats for both, and the rest are text. */
  lemma TypesAgree(v: Value)
    ensures FitsType(v) == "L" <==> SqlType(v) == "BOOL"
    ensures FitsType(v) == "J" <==> SqlType(v) == "INT"
    ensures FitsType(v) == "E" <==> SqlType(v) == "FLOAT"
    ensures |FitsType(v)| >= 2 <==> SqlType(v) == "VARCHAR"
  {
    if v.Bool? || IsInt(v) || v.Float? || v.Float32? {
      assert |FitsType(v)| == 1;
    } else if v.Str? {
      assert |FitsType(v)| == |Decimal(|v.s|)| + 1;
    } else {
      assert FitsType(v) == "5A";
    }
  }

  // ---------------------------------------------------------------------
  // Missing values in the database

  /** A Python object handed to `nulls`: a single value or a list of them. */
  datatype PyObject = Scalar(v: Value) | List(items: seq<Value>)

  /** `x == -1` in Python: true for the numbers equal to -1 only (a bool is
      0 or 1, and a list never equals a number). */
  predicate IsMinusOne(x: PyObject)
  {
    x.Scalar? && (x.v == Int(-1) || x.v == Float(-1.0) || x.v == Float32(-1.0))
  }

  /** `nulls(x)`: None in place of -1, anything else unchanged. */
  function Nulls(x: PyObject): (r: Option<PyObject>)
    ensures r.None? <==> IsMinusOne(x)
    ensures r.Some? ==> r.value == x
  {
    if IsMinusOne(x) then None else Some(x)
  }

  /** The parameters `writeDB` passes to `executemany`, as written: `nulls`
      mapped over the rows, each of which is a list. */
  function DbRowsAsWritten(rows: seq<seq<Value>>): (r: seq<Option<PyObject>>)
    ensures |r| == |rows|
  {
    seq(|rows|, i requires 0 <= i < |rows| => Nulls(List(rows[i])))
  }

  /** As written, no row changes: a -1 is stored as -1, never as NULL. */
  lemma DbRowsAsWrittenKeepMinusOne(rows: seq<seq<Value>>)
    ensures forall i :: 0 <= i < |rows| ==> DbRowsAsWritten(rows)[i] == Some(List(rows[i]))
    ensures DbRowsAsWritten([[Int(-1)]]) == [Some(List([Int(-1)]))]
  {
  }

  /** `nulls` on a single value. */
  function NullValue(v: Value): (r: Option<Value>)
    ensures r.None? <==> IsMinusOne(Scalar(v))
    ensures r.Some? ==> r.value == v
  {
    if Nulls(Scalar(v)).None? then None else Some(v)
  }

  /** The parameters as evidently intended: `nulls` applied to every value
      of every row. */
  function DbRows(rows: seq<seq<Value>>): (r: seq<seq<Option<Value>>>)
  {
    seq(|rows|, i requires 0 <= i < |rows| =>
      seq(|rows[i]|, j requires 0 <= j < |rows[i]| => NullValue(rows[i][j])))
  }

  /** Intended: exactly the -1 values become NULL, the rest are kept. */
  lemma DbRowsNullMinusOne(rows: seq<seq<Value>>)
    ensures |DbRows(rows)| == |rows|
    ensures forall i, j :: 0 <= i < |rows| && 0 <= j < |rows[i]| ==>
      |DbRows(rows)[i]| == |rows[i]| &&
      (DbRows(rows)[i][j].None? <==> IsMinusOne(Scalar(rows[i][j]))) &&
      (DbRows(rows)[i][j].Some? ==> DbRows(rows)[i][j].value == rows[i][j])
    ensures DbRows([[Int(-1)]]) == [[None]]
  {
    assert DbRows([[Int(-1)]])[0] == [None];
  }

  // ---------------------------------------------------------------------
  // Region files

  /** A straight line or an x-shaped point in DS9 image coordinates. */
  datatype Mark = Line(x1: real, y1: real, x2: real, y2: real) | XPoint(x: int, y: int)

  /** A contour vertex `(row, column)` as DS9 `(x, y)`: swapped, and moved
      half a pixel so that lines run between pixels. */
  function Vertex(p: (int, int)): (real, real)
  {
    (p.1 as real + 0.5, p.0 as real + 0.5)
  }

  function Edge(p: (int, int), q: (int, int)): Mark
  {
    Line(Vertex(p).0, Vertex(p).1, Vertex(q).0, Vertex(q).1)
  }

  /** The lines of `writeIslandContours` for one contour: none for a contour
      of one point or none, otherwise one per vertex -- the consecutive pairs
      and one closing line from the last vertex back to the first. */
  function ContourLines(contour: seq<(int, int)>): (r: seq<Mark>)
    ensures |contour| <= 1 ==> r == []
    ensures |contour| > 1 ==> |r| == |contour|
    ensures |contour| > 1 ==> forall i :: 0 <= i < |r| - 1 ==> r[i] == Edge(contour[i], contour[i + 1])
    ensures |contour| > 1 ==> r[|r| - 1] == Edge(contour[|r| - 1], contour[0])
  {
    if |contour| <= 1 then []
    else
      var n := |contour|;
      seq(n - 1, i requires 0 <= i < n - 1 => Edge(contour[i], contour[i + 1])) + [Edge(contour[n - 1], contour[0])]
  }

  /** The lines of a contour close up: each ends where the next begins, and
      the last ends where the first begins. */
  lemma ContourClosed(contour: seq<(int, int)>)
    requires |contour| > 1
    ensures var r := ContourLines(contour);
      && (forall i :: 0 <= i < |r| - 1 ==> r[i].x2 == r[i + 1].x1 && r[i].y2 == r[i + 1].y1)
      && r[|r| - 1].x2 == r[0].x1 && r[|r| - 1].y2 == r[0].y1
  {
  }

  /** A pixel of the island's mask, 0-based `(row, column)`, as a 1-based DS9 point. */
  function MaskPoint(p: (int, int)): Mark
  {
    XPoint(p.1 + 1, p.0 + 1)
  }

  /** An island as the region writers see it. */
  datatype IslandShape = IslandShape(
    island: int,
    contour: seq<(int, int)>,
    anchors: seq<int>,              // max_angular_size_anchors
    pixMask: seq<(int, int)>,
    extent: (int, int, int, int))   // (ymin, ymax, xmin, xmax)

  /** The marks `writeIslandContours` draws for one island: its contour, the
      line between the anchors of its largest angular size when there are
      four of them, and a point on each pixel of its mask. */
  function IslandMarks(c: IslandShape): (r: seq<Mark>)
    ensures |r| == |ContourLines(c.contour)| + (if |c.anchors| == 4 then 1 else 0) + |c.pixMask|
    ensures r[..|ContourLines(c.contour)|] == ContourLines(c.contour)
    ensures |c.anchors| == 4 ==>
      r[|ContourLines(c.contour)|] == Edge((c.anchors[0], c.anchors[1]), (c.anchors[2], c.anchors[3]))
    ensures forall k :: 0 <= k < |c.pixMask| ==> r[|r| - |c.pixMask| + k] == MaskPoint(c.pixMask[k])
  {
    var lines := ContourLines(c.contour);
    var head := lines + AnchorLine(c.anchors);
    var points := MaskPoints(c.pixMask);
    Concat(lines, AnchorLine(c.anchors));
    Concat(head, points);
    head + points
  }

  /** `a + b` starts with `a` and ends with `b`. */
  lemma Concat<T>(a: seq<T>, b: seq<T>)
    ensures |a + b| == |a| + |b| && (a + b)[..|a|] == a
    ensures forall k :: 0 <= k < |b| ==> (a + b)[|a| + k] == b[k]
  {
  }

  /** The line between the anchors of an island's largest angular size, when
      there are four of them: the anchors are the pixels `(a[0], a[1])` and
      `(a[2], a[3])`, and the line joins them as a contour edge would. */
  function AnchorLine(a: seq<int>): (r: seq<Mark>)
    ensures |r| == if |a| == 4 then 1 else 0
    ensures |a| == 4 ==> r == [Edge((a[0], a[1]), (a[2], a[3]))]
  {
    if |a| == 4 then [Line(a[1] as real + 0.5, a[0] as real + 0.5, a[3] as real + 0.5, a[2] as real + 0.5)]
    else []
  }

  /** One point per mask pixel. */
  function MaskPoints(pixMask: seq<(int, int)>): (r: seq<Mark>)
    ensures |r| == |pixMask| && forall k :: 0 <= k < |pixMask| ==> r[k] == MaskPoint(pixMask[k])
  {
    seq(|pixMask|, k requires 0 <= k < |pixMask| => MaskPoint(pixMask[k]))
  }

  /** `writeIslandContours(filename, catalog, fmt)`: only the "reg" format is
      written. */
  function ContourRegions(fmt: string, islands: seq<IslandShape>): (r: Option<seq<seq<Mark>>>)
    ensures r.Some? <==> fmt == "reg"
    ensures r.Some? ==> |r.value| == |islands| && forall i :: 0 <= i < |islands| ==> r.value[i] == IslandMarks(islands[i])
  {
    if fmt != "reg" then None
    else Some(seq(|islands|, i requires 0 <= i < |islands| => IslandMarks(islands[i])))
  }

  /** A box of `writeIslandBoxes`: centre and size in 1-based pixels. */
  datatype BoxRegion = BoxRegion(xcen: real, ycen: real, xwidth: int, ywidth: int, island: int)

  /** The box around an island's extent. */
  function IslandBox(c: IslandShape): (r: BoxRegion)
  {
    var (ymin, ymax, xmin, xmax) := c.extent;
    BoxRegion((xmin + xmax) as real / 2.0 + 1.0, (ymin + ymax) as real / 2.0 + 1.0,
              xmax - xmin + 1, ymax - ymin + 1, c.island)
  }

  /** The box runs from half a pixel before the island's first pixel to half
      a pixel after its last, on both axes, in DS9's 1-based pixels. */
  lemma IslandBoxEdges(c: IslandShape)
    ensures var r := IslandBox(c);
      var (ymin, ymax, xmin, xmax) := c.extent;
      && r.xcen - r.xwidth as real / 2.0 == (xmin + 1) as real - 0.5
      && r.xcen + r.xwidth as real / 2.0 == (xmax + 1) as real + 0.5
      && r.ycen - r.ywidth as real / 2.0 == (ymin + 1) as real - 0.5
      && r.ycen + r.ywidth as real / 2.0 == (ymax + 1) as real + 0.5
      && r.island == c.island
  {
  }

  /** `writeIslandBoxes(filename, catalog, fmt)`: the coordinate-system line
      and one box per island for "reg" and "ann", nothing otherwise. */
  function BoxRegions(fmt: string, islands: seq<IslandShape>): (r: Option<(string, seq<BoxRegion>)>)
    ensures r.Some? <==> fmt == "reg" || fmt == "ann"
    ensures r.Some? ==> r.value.0 == (if fmt == "reg" then "IMAGE" else "COORD P")
    ensures r.Some? ==> |r.value.1| == |islands| && forall i :: 0 <= i < |islands| ==> r.value.1[i] == IslandBox(islands[i])
  {
    if fmt != "reg" && fmt != "ann" then None
    else Some((if fmt == "reg" then "IMAGE" else "COORD P",
               seq(|islands|, i requires 0 <= i < |islands| => IslandBox(islands[i]))))
  }
}
