/** Choosing how to load a data source (`load_data`): a frame is taken as
    it is, a path is dispatched on its extension as `os.path.splitext`
    computes it on POSIX systems and lower-cased, anything else is refused.
    Reading the file itself is a parameter of the model. */
module Loading {
  import opened Base
  import opened Tables

  /** The pandas reader a supported extension selects. */
  datatype Reader = Csv | Excel | Json

  /** What `load_data` is handed: a data frame, a path, or some other value. */
  datatype Source = Frame(table: Table) | Path(path: string) | OtherValue

  /** The last position of `c` in `s`, or -1 (`str.rfind`). */
  function RFind(s: string, c: char): (i: int)
    ensures -1 <= i < |s|
    ensures i >= 0 ==> s[i] == c
    ensures forall j :: i < j < |s| ==> s[j] != c
  {
    if |s| == 0 then -1
    else if s[|s| - 1] == c then |s| - 1
    else
      assert forall j :: 0 <= j < |s| - 1 ==> s[..|s| - 1][j] == s[j];
      RFind(s[..|s| - 1], c)
  }

  /** Some character of `p[lo..hi]` is not a dot. */
  predicate HasNonDot(p: string, lo: int, hi: int)
    requires 0 <= lo && hi <= |p|
  {
    exists k :: lo <= k < hi && p[k] != '.'
  }

  /** `os.path.splitext`: the extension starts at the last dot, provided that
      dot lies in the last path component and is preceded there by something
      other than dots; otherwise the extension is empty. */
  function SplitExt(p: string): (r: (string, string))
    ensures r.0 + r.1 == p
    ensures r.1 == [] || (r.1[0] == '.' && forall i :: 0 < i < |r.1| ==> r.1[i] != '.' && r.1[i] != '/')
  {
    var sep := RFind(p, '/');
    var dot := RFind(p, '.');
    if dot > sep && HasNonDot(p, sep + 1, dot) then
      assert p[..dot] + p[dot..] == p;
      (p[..dot], p[dot..])
    else (p, [])
  }

  /** The final component of `stem` contains something other than dots, so a
      suffix appended to it is recognised as an extension. */
  predicate HasStem(stem: string) {
    var sep := RFind(stem, '/');
    HasNonDot(stem, sep + 1, |stem|)
  }

  /** Appending an extension (a dot followed by neither dots nor slashes) to a
      path whose last component is not made of dots alone is undone by
      `SplitExt`. */
  lemma SplitExtOfAppended(stem: string, ext: string)
    requires HasStem(stem)
    requires |ext| > 0 && ext[0] == '.' && forall i :: 0 < i < |ext| ==> ext[i] != '.' && ext[i] != '/'
    ensures SplitExt(stem + ext) == (stem, ext)
  {
    var p := stem + ext;
    var sep := RFind(p, '/');
    var dot := RFind(p, '.');
    assert dot == |stem| by {
      assert p[|stem|] == '.';
      assert forall j :: |stem| < j < |p| ==> p[j] == ext[j - |stem|];
    }
    assert sep == RFind(stem, '/') by {
      var s0 := RFind(stem, '/');
      assert forall j :: |stem| <= j < |p| ==> p[j] == ext[j - |stem|];
      if s0 >= 0 {
        assert p[s0] == '/';
      }
    }
    var k :| sep + 1 <= k < |stem| && stem[k] != '.';
    assert p[k] == stem[k];
    assert p[..dot] == stem && p[dot..] == ext;
  }

  /** ASCII lower-casing; other characters are left alone. */
  function Lower(c: char): char {
    if 'A' <= c <= 'Z' then (c as int + 32) as char else c
  }

  function LowerString(s: string): (r: string)
    ensures |r| == |s|
    ensures forall i :: 0 <= i < |s| ==> r[i] == Lower(s[i])
  {
    if |s| == 0 then [] else [Lower(s[0])] + LowerString(s[1..])
  }

  /** The extension `load_data` dispatches on. */
  function Extension(path: string): string {
    LowerString(SplitExt(path).1)
  }

  /** The extensions, in lower case, each reader accepts. */
  function ReaderExtensions(reader: Reader): set<string> {
    match reader
    case Csv => {".csv"}
    case Excel => {".xlsx", ".xls"}
    case Json => {".json"}
  }

  /** The reader chosen for a path, or the unsupported extension. */
  function ReaderFor(path: string): (r: Result<Reader, Error>)
    ensures r.Success? ==> Extension(path) in ReaderExtensions(r.value)
    ensures r.Failure? ==> r.error == UnsupportedFormat(Extension(path))
    ensures r.Failure? ==> forall reader :: Extension(path) !in ReaderExtensions(reader)
  {
    ReaderOfExtension(Extension(path))
  }

  /** The reader a lower-cased extension selects, or the unsupported extension. */
  function ReaderOfExtension(ext: string): (r: Result<Reader, Error>)
    ensures r.Success? ==> ext in ReaderExtensions(r.value)
    ensures r.Failure? ==> r.error == UnsupportedFormat(ext)
    ensures r.Failure? ==> forall reader :: ext !in ReaderExtensions(reader)
  {
    if ext == ".csv" then Success(Csv)
    else if ext == ".xlsx" || ext == ".xls" then Success(Excel)
    else if ext == ".json" then Success(Json)
    else Failure(UnsupportedFormat(ext))
  }

  /** A file name ending in an extension of `reader`, written in any mix of
      upper and lower case, is read with `reader`. */
  lemma ReaderForAppended(stem: string, ext: string, reader: Reader)
    requires HasStem(stem)
    requires LowerString(ext) in ReaderExtensions(reader)
    ensures ReaderFor(stem + ext) == Success(reader)
  {
    var lowered := LowerString(ext);
    assert |ext| > 0 && ext[0] == '.' && forall i :: 0 < i < |ext| ==> ext[i] != '.' && ext[i] != '/' by {
      assert forall i :: 0 <= i < |ext| ==> lowered[i] == Lower(ext[i]);
    }
    SplitExtOfAppended(stem, ext);
    assert Extension(stem + ext) == lowered;
    ExtensionSelects(lowered, reader);
  }

  /** Each extension a reader accepts selects that reader. */
  lemma ExtensionSelects(ext: string, reader: Reader)
    requires ext in ReaderExtensions(reader)
    ensures ReaderOfExtension(ext) == Success(reader)
  {
  }

  /** `load_data` on a source: the table it holds afterwards, reading paths
      with `read`, or why it refused. */
  function LoadData(source: Source, read: (Reader, string) -> Table): (r: Result<Table, Error>)
    ensures source.Frame? ==> r == Success(source.table)
    ensures source.OtherValue? ==> r == Failure(NotFileOrFrame)
    ensures source.Path? ==>
      (r.Success? <==> ReaderFor(source.path).Success?) &&
      (r.Success? ==> r.value == read(ReaderFor(source.path).value, source.path)) &&
      (r.Failure? ==> r.error == UnsupportedFormat(Extension(source.path)))
  {
    match source
    case Frame(t) => Success(t)
    case Path(p) =>
      (match ReaderFor(p)
       case Success(reader) => Success(read(reader, p))
       case Failure(e) => Failure(e))
    case OtherValue => Failure(NotFileOrFrame)
  }
}
