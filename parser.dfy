/** The scattering-data input checks run when a job is submitted: the plain
    three-column DAT validator, the GNOM header detector and the GNOM to DAT
    converter (server/parser.go).

    Content sniffing, float parsing and the three regular expressions are library
    calls; they are the fields of `Lib` and stay uninterpreted. Line splitting,
    trimming and field splitting are the concrete functions of module Text. */
module Parser {
  import opened Wrappers
  import opened Text

  /** The library calls the parsers make. */
  datatype Lib = Lib(
    /** http.DetectContentType */
    detectContentType: string -> string,
    /** strconv.ParseFloat(_, 64): the finite value, or None on any error
        (syntax or range); NaN and the infinities are not values here */
    parseFloat: string -> Option<real>,
    /** the version capture of the GNOM header pattern, when the line matches it */
    gnomVersion: string -> Option<string>,
    /** the size capture of the GNOM "Maximum characteristic size" pattern */
    gnomDmax: string -> Option<string>,
    /** whether the line matches the "S  J EXP  ERROR  J REG  I REG" pattern */
    isScatteringHeader: string -> bool
  )

  datatype InputError =
    | NotText
    | BadFloat(line: nat)
    | Empty
    | GnomNotText
    | NotGnom
    | NoScatteringHeader
    | BadColumns(line: nat)
    | OnlyTwoColumns

  /** The error text the server shows for each failure. */
  function Message(e: InputError): string {
    match e
    case NotText => "Invalid input data. Please provide an ascii text file"
    case BadFloat(n) => "Invalid floating point numbers found on line " + IntToString(n)
    case Empty => "Input data file was empty"
    case GnomNotText => "Invalid GNOME input file not an ascii text file"
    case NotGnom => "Input data is not GNOM"
    case NoScatteringHeader => "Failed to find Scattering data header line in GNOM file"
    case BadColumns(n) => "Input data format must be 2 or 5 columns: error on line " + IntToString(n)
    case OnlyTwoColumns => "Input data only consists of 2 columns"
  }

  predicate IsPlainText(contentType: string) {
    "text/plain" <= contentType
  }

  // ---------------------------------------------------------------------------
  // Line classification

  /** A line that is blank or whose first non-space character is '#'. */
  predicate Skipped(l: string)
    decreases |l|
  {
    l == [] || if IsSpace(l[0]) then Skipped(l[1..]) else l[0] == '#'
  }

  /** Skipped is the test the scanner loops make on the trimmed line. */
  lemma {:induction false} SkippedTrim(l: string)
    ensures Skipped(l) <==> TrimSpace(l) == [] || TrimSpace(l)[0] == '#'
    decreases |l|
  {
    if l != [] {
      if IsSpace(l[0]) {
        assert TrimLeft(l) == TrimLeft(l[1..]);
        SkippedTrim(l[1..]);
      } else {
        assert TrimLeft(l) == l;
        TrimRightRemovesSpace(l);
        TrimRightPrefix(l);
        assert TrimSpace(l) != [] && TrimSpace(l)[0] == l[0];
      }
    }
  }

  predicate AllFloat(lib: Lib, ws: seq<string>) {
    forall m :: 0 <= m < |ws| ==> lib.parseFloat(ws[m]).Some?
  }

  /** The token loop of the scanners: whether every token parses as a float. */
  method AllFloats(lib: Lib, parts: seq<string>) returns (ok: bool)
    ensures ok <==> AllFloat(lib, parts)
  {
    var k := 0;
    while k < |parts|
      invariant 0 <= k <= |parts|
      invariant forall m :: 0 <= m < k ==> lib.parseFloat(parts[m]).Some?
    {
      if lib.parseFloat(parts[k]).None? {
        return false;
      }
      k := k + 1;
    }
    return true;
  }

  /** A line the DAT validator examines and rejects. */
  predicate LineBad(lib: Lib, l: string) {
    !Skipped(l) && !AllFloat(lib, Fields(l))
  }

  /** The trimming and the blank-or-comment test every scanner loop makes on a
      line, with what they mean for the untrimmed line. */
  method Classify(l: string) returns (line: string, skip: bool)
    ensures line == TrimSpace(l)
    ensures skip <==> Skipped(l)
    ensures Fields(line) == Fields(l)
  {
    line := TrimSpace(l);
    SkippedTrim(l);
    FieldsTrimSpace(l);
    skip := line == "" || "#" <= line;
  }

  // ---------------------------------------------------------------------------
  // First and last matching lines

  /** The line tests the scanner loops search for. */
  datatype LineTest = DataLine | BadLine | VersionLine | DataHeaderLine | DmaxLine | DmaxRowLine | ThreeToken

  predicate Holds(lib: Lib, t: LineTest, l: string) {
    match t
    case DataLine => !Skipped(l)
    case BadLine => LineBad(lib, l)
    case VersionLine => Version(lib, l).Some?
    case DataHeaderLine => IsDataHeader(lib, l)
    case DmaxLine => lib.gnomDmax(l).Some?
    case DmaxRowLine => IsDmaxRow(lib, l)
    case ThreeToken => IsThreeTokenLine(l)
  }

  /** Index of the first line satisfying `p`, defined on the prefixes of `ls` in
      the order a forward scan reads them. */
  function FirstWhere(lib: Lib, ls: seq<string>, p: LineTest): (r: Option<nat>)
    ensures r.Some? ==> r.value < |ls|
  {
    if ls == [] then None
    else
      match FirstWhere(lib, ls[..|ls| - 1], p)
      case Some(i) => Some(i)
      case None => if Holds(lib, p, ls[|ls| - 1]) then Some(|ls| - 1) else None
  }

  /** Index of the last line satisfying `p`. */
  function LastWhere(lib: Lib, ls: seq<string>, p: LineTest): (r: Option<nat>)
    ensures r.Some? ==> r.value < |ls|
  {
    if ls == [] then None
    else if Holds(lib, p, ls[|ls| - 1]) then Some(|ls| - 1)
    else LastWhere(lib, ls[..|ls| - 1], p)
  }

  lemma {:induction false} FirstWhereSpec(lib: Lib, ls: seq<string>, p: LineTest)
    ensures FirstWhere(lib, ls, p).None? <==> forall k :: 0 <= k < |ls| ==> !Holds(lib, p, ls[k])
    ensures FirstWhere(lib, ls, p).Some? ==>
              FirstWhere(lib, ls, p).value < |ls| && Holds(lib, p, ls[FirstWhere(lib, ls, p).value])
              && forall k :: 0 <= k < FirstWhere(lib, ls, p).value ==> !Holds(lib, p, ls[k])
  {
    if ls != [] {
      var init := ls[..|ls| - 1];
      FirstWhereSpec(lib, init, p);
      assert forall k :: 0 <= k < |init| ==> init[k] == ls[k];
    }
  }

  lemma {:induction false} LastWhereSpec(lib: Lib, ls: seq<string>, p: LineTest)
    ensures LastWhere(lib, ls, p).None? <==> forall k :: 0 <= k < |ls| ==> !Holds(lib, p, ls[k])
    ensures LastWhere(lib, ls, p).Some? ==>
              LastWhere(lib, ls, p).value < |ls| && Holds(lib, p, ls[LastWhere(lib, ls, p).value])
              && forall k :: LastWhere(lib, ls, p).value < k < |ls| ==> !Holds(lib, p, ls[k])
  {
    if ls != [] {
      var init := ls[..|ls| - 1];
      LastWhereSpec(lib, init, p);
      assert forall k :: 0 <= k < |init| ==> init[k] == ls[k];
    }
  }

  /** One more line read by a forward scan. */
  lemma FirstWhereNext(lib: Lib, ls: seq<string>, p: LineTest, i: nat)
    requires i < |ls|
    ensures FirstWhere(lib, ls[..i + 1], p) ==
      match FirstWhere(lib, ls[..i], p)
      case Some(j) => Some(j)
      case None => if Holds(lib, p, ls[i]) then Some(i) else None
  {
    assert ls[..i + 1][..i] == ls[..i];
  }

  lemma LastWhereNext(lib: Lib, ls: seq<string>, p: LineTest, i: nat)
    requires i < |ls|
    ensures LastWhere(lib, ls[..i + 1], p) == if Holds(lib, p, ls[i]) then Some(i) else LastWhere(lib, ls[..i], p)
  {
    assert ls[..i + 1][..i] == ls[..i];
  }

  /** A first match found in a prefix is the first match of the whole. */
  lemma {:induction false} FirstWhereStable(lib: Lib, ls: seq<string>, p: LineTest, n: nat)
    requires n <= |ls| && FirstWhere(lib, ls[..n], p).Some?
    ensures FirstWhere(lib, ls, p) == FirstWhere(lib, ls[..n], p)
  {
    if n < |ls| {
      var init := ls[..|ls| - 1];
      assert init[..n] == ls[..n];
      FirstWhereStable(lib, init, p, n);
    } else {
      assert ls[..n] == ls;
    }
  }

  /** A line in front that does not match shifts the first match by one. */
  lemma {:induction false} FirstWhereCons(lib: Lib, l: string, ls: seq<string>, p: LineTest)
    requires !Holds(lib, p, l)
    ensures FirstWhere(lib, [l] + ls, p) ==
      match FirstWhere(lib, ls, p)
      case None => None
      case Some(i) => Some(i + 1)
  {
    if ls != [] {
      var s := [l] + ls;
      assert s[..|s| - 1] == [l] + ls[..|ls| - 1];
      FirstWhereCons(lib, l, ls[..|ls| - 1], p);
    } else {
      assert [l] + ls == [l];
      assert [l][..0] == [];
    }
  }

  /** A line in front that does not match shifts the last match by one. */
  lemma {:induction false} LastWhereCons(lib: Lib, l: string, ls: seq<string>, p: LineTest)
    requires !Holds(lib, p, l)
    ensures LastWhere(lib, [l] + ls, p) ==
      match LastWhere(lib, ls, p)
      case None => None
      case Some(i) => Some(i + 1)
  {
    if ls != [] {
      var s := [l] + ls;
      assert s[..|s| - 1] == [l] + ls[..|ls| - 1];
      LastWhereCons(lib, l, ls[..|ls| - 1], p);
    } else {
      assert [l] + ls == [l];
      assert [l][..0] == [];
    }
  }

  /** A line that is not skipped has at least one field, and its first field
      does not start with '#'. */
  lemma {:induction false} DataLineHasFields(l: string)
    requires !Skipped(l)
    ensures Fields(l) != [] && Fields(l)[0] != [] && Fields(l)[0][0] != '#'
    decreases |l|
  {
    if IsSpace(l[0]) {
      DataLineHasFields(l[1..]);
    } else {
      FieldsHead(l);
    }
  }

  // ---------------------------------------------------------------------------
  // validateDAT

  /** The outcome of validateDAT on the lines of a text file: the first line with
      a token that is not a float, counting every line from 1; otherwise "empty"
      when every line is skipped; otherwise the number of fields of the last line
      that is not skipped. */
  function DatLines(lib: Lib, ls: seq<string>): Result<nat, InputError> {
    match FirstWhere(lib, ls, BadLine)
    case Some(i) => Failure(BadFloat(i + 1))
    case None =>
      match LastWhere(lib, ls, DataLine)
      case None => Failure(Empty)
      case Some(j) => Success(|Fields(ls[j])|)
  }

  lemma DatLinesMeaning(lib: Lib, ls: seq<string>)
    ensures var r := DatLines(lib, ls);
      && (r.Success? ==> r.value > 0)
      && (r.Success? <==> (forall k :: 0 <= k < |ls| ==> !LineBad(lib, ls[k]))
                          && exists k :: 0 <= k < |ls| && !Skipped(ls[k]))
      && (r.Success? ==> exists k :: 0 <= k < |ls| && !Skipped(ls[k]) && r.value == |Fields(ls[k])|
                                     && forall j :: k < j < |ls| ==> Skipped(ls[j]))
      && (r == Failure(Empty) <==> forall k :: 0 <= k < |ls| ==> Skipped(ls[k]))
      && (r.Failure? && r.error.BadFloat? ==>
            1 <= r.error.line <= |ls| && LineBad(lib, ls[r.error.line - 1])
            && forall k :: 0 <= k < r.error.line - 1 ==> !LineBad(lib, ls[k]))
      && (r.Failure? ==> r.error == Empty || r.error.BadFloat?)
  {
    match FirstWhere(lib, ls, BadLine)
    case Some(i) =>
      DatLinesBadLine(lib, ls, i);
      assert !Skipped(ls[i]);
    case None =>
      DatLinesClean(lib, ls);
  }

  /** A bad line makes the verdict name it. */
  lemma DatLinesBadLine(lib: Lib, ls: seq<string>, i: nat)
    requires FirstWhere(lib, ls, BadLine) == Some(i)
    ensures i < |ls| && LineBad(lib, ls[i]) && forall k :: 0 <= k < i ==> !LineBad(lib, ls[k])
    ensures DatLines(lib, ls) == Failure(BadFloat(i + 1))
  {
    FirstWhereSpec(lib, ls, BadLine);
    assert Holds(lib, BadLine, ls[i]);
    forall k | 0 <= k < i
      ensures !LineBad(lib, ls[k])
    {
      assert !Holds(lib, BadLine, ls[k]);
    }
  }

  /** With no bad line, the verdict depends on the last data line only. */
  lemma DatLinesClean(lib: Lib, ls: seq<string>)
    requires FirstWhere(lib, ls, BadLine).None?
    ensures forall k :: 0 <= k < |ls| ==> !LineBad(lib, ls[k])
    ensures var r := DatLines(lib, ls);
      && (r.Success? <==> exists k :: 0 <= k < |ls| && !Skipped(ls[k]))
      && (r.Success? ==> r.value > 0)
      && (r.Success? ==>
            exists k :: 0 <= k < |ls| && !Skipped(ls[k]) && r.value == |Fields(ls[k])|
                        && forall j :: k < j < |ls| ==> Skipped(ls[j]))
      && (r.Failure? ==> r == Failure(Empty))
      && (r == Failure(Empty) <==> forall k :: 0 <= k < |ls| ==> Skipped(ls[k]))
  {
    FirstWhereSpec(lib, ls, BadLine);
    forall k | 0 <= k < |ls|
      ensures !LineBad(lib, ls[k])
    {
      assert !Holds(lib, BadLine, ls[k]);
    }
    LastWhereSpec(lib, ls, DataLine);
    match LastWhere(lib, ls, DataLine)
    case None =>
      assert forall k :: 0 <= k < |ls| ==> Skipped(ls[k]);
    case Some(j) =>
      DataLineHasFields(ls[j]);
      assert !Skipped(ls[j]);
      assert forall i :: j < i < |ls| ==> Skipped(ls[i]);
  }

  /** validateDAT's verdict on a whole upload. */
  function DatVerdict(lib: Lib, data: string): Result<nat, InputError> {
    if !IsPlainText(lib.detectContentType(data)) then Failure(NotText)
    else DatLines(lib, Lines(data))
  }

  /** server/parser.go validateDAT: checks the content type, then scans the lines,
      skipping blank and comment lines, failing at the first token that is not a
      float and remembering the field count of the last data line. */
  method ValidateDat(lib: Lib, data: string) returns (r: Result<nat, InputError>)
    ensures r == DatVerdict(lib, data)
  {
    if !IsPlainText(lib.detectContentType(data)) {
      return Failure(NotText);
    }
    var ls := Lines(data);
    var i := 0;
    var cols: nat := 0;
    var isEmpty := true;
    while i < |ls|
      invariant 0 <= i <= |ls|
      invariant FirstWhere(lib, ls[..i], BadLine).None?
      invariant isEmpty <==> LastWhere(lib, ls[..i], DataLine).None?
      invariant !isEmpty ==> cols == |Fields(ls[LastWhere(lib, ls[..i], DataLine).value])|
    {
      var lineno := i + 1;
      DatStep(lib, ls, i);
      var line, skip := Classify(ls[i]);
      if !skip {
        var parts := Fields(line);
        DataLineHasFields(ls[i]);
        var ok := AllFloats(lib, parts);
        if !ok {
          return Failure(BadFloat(lineno));
        }
        isEmpty := false;
        if |parts| > 0 {
          cols := |parts|;
        }
      }
      i := i + 1;
    }
    assert ls[..i] == ls;
    if isEmpty {
      return Failure(Empty);
    }
    return Success(cols);
  }

  /** What validateDAT's loop learns from line `i`. */
  lemma DatStep(lib: Lib, ls: seq<string>, i: nat)
    requires i < |ls| && FirstWhere(lib, ls[..i], BadLine).None?
    ensures !LineBad(lib, ls[i]) ==> FirstWhere(lib, ls[..i + 1], BadLine).None?
    ensures LineBad(lib, ls[i]) ==> DatLines(lib, ls) == Failure(BadFloat(i + 1))
    ensures LastWhere(lib, ls[..i + 1], DataLine)
            == if !Skipped(ls[i]) then Some(i) else LastWhere(lib, ls[..i], DataLine)
  {
    FirstWhereNext(lib, ls, BadLine, i);
    LastWhereNext(lib, ls, DataLine, i);
    if LineBad(lib, ls[i]) {
      FirstWhereStable(lib, ls, BadLine, i + 1);
    }
  }

  /** Blank and comment lines change nothing but the line numbers of later errors. */
  lemma SkippedLineIgnored(lib: Lib, l: string, ls: seq<string>)
    requires Skipped(l)
    ensures DatLines(lib, [l] + ls) ==
      match DatLines(lib, ls)
      case Failure(BadFloat(n)) => Failure(BadFloat(n + 1))
      case other => other
  {
    FirstWhereCons(lib, l, ls, BadLine);
    LastWhereCons(lib, l, ls, DataLine);
    var j := LastWhere(lib, ls, DataLine);
    if j.Some? {
      assert ([l] + ls)[j.value + 1] == ls[j.value];
    }
  }

  // ---------------------------------------------------------------------------
  // parseGNOMHeader

  /** Lines examined for the header: the scan breaks after the 21st line. */
  const HeaderWindow: nat := 21

  /** The version a line declares, if it matches the header pattern and its
      capture parses as a float. */
  function Version(lib: Lib, l: string): Option<real> {
    match lib.gnomVersion(l)
    case None => None
    case Some(c) => lib.parseFloat(c)
  }

  function Window(ls: seq<string>): seq<string> {
    if |ls| <= HeaderWindow then ls else ls[..HeaderWindow]
  }

  /** parseGNOMHeader's verdict: the version of the first of the first 21 lines
      that declares one. */
  function HeaderVerdict(lib: Lib, data: string): Result<real, InputError> {
    if !IsPlainText(lib.detectContentType(data)) then Failure(GnomNotText)
    else
      var w := Window(Lines(data));
      match FirstWhere(lib, w, VersionLine)
      case None => Failure(NotGnom)
      case Some(i) => Success(Version(lib, w[i]).GetOr(0.0))
  }

  lemma HeaderVerdictMeaning(lib: Lib, data: string)
    ensures var r := HeaderVerdict(lib, data); var ls := Lines(data);
      && (!IsPlainText(lib.detectContentType(data)) ==> r == Failure(GnomNotText))
      && (r.Success? ==> exists i :: 0 <= i < |ls| && i < HeaderWindow
                                     && Version(lib, ls[i]) == Some(r.value)
                                     && forall j :: 0 <= j < i ==> Version(lib, ls[j]).None?)
      && (r == Failure(NotGnom) <==>
            IsPlainText(lib.detectContentType(data))
            && forall i :: 0 <= i < |ls| && i < HeaderWindow ==> Version(lib, ls[i]).None?)
      && (r.Failure? ==> r.error == GnomNotText || r.error == NotGnom)
  {
    var ls := Lines(data);
    var w := Window(ls);
    FirstWhereSpec(lib, w, VersionLine);
    assert forall i :: 0 <= i < |w| ==> w[i] == ls[i];
    assert |w| == if |ls| <= HeaderWindow then |ls| else HeaderWindow;
    if HeaderVerdict(lib, data).Success? {
      HeaderVersionFound(lib, data);
    }
  }

  /** A successful header verdict is the version of a line among the first 21,
      and no line before it declares one. */
  lemma HeaderVersionFound(lib: Lib, data: string)
    requires HeaderVerdict(lib, data).Success?
    ensures exists i :: 0 <= i < |Lines(data)| && i < HeaderWindow
                        && Version(lib, Lines(data)[i]) == Some(HeaderVerdict(lib, data).value)
                        && forall j :: 0 <= j < i ==> Version(lib, Lines(data)[j]).None?
  {
    var ls := Lines(data);
    var w := Window(ls);
    FirstWhereSpec(lib, w, VersionLine);
    var i := FirstWhere(lib, w, VersionLine).value;
    assert forall j :: 0 <= j <= i ==> w[j] == ls[j];
    assert i < |ls|;
    assert i < HeaderWindow;
    assert Version(lib, ls[i]) == Some(HeaderVerdict(lib, data).value);
    assert forall j :: 0 <= j < i ==> Version(lib, ls[j]).None?;
  }

  /** server/parser.go parseGNOMHeader */
  method ParseGnomHeader(lib: Lib, data: string) returns (r: Result<real, InputError>)
    ensures r == HeaderVerdict(lib, data)
  {
    if !IsPlainText(lib.detectContentType(data)) {
      return Failure(GnomNotText);
    }
    var ls := Lines(data);
    var lineno := 0;
    while lineno < |ls|
      invariant 0 <= lineno <= |ls| && lineno <= HeaderWindow
      invariant FirstWhere(lib, ls[..lineno], VersionLine).None?
    {
      var line := ls[lineno];
      FirstWhereNext(lib, ls, VersionLine, lineno);
      lineno := lineno + 1;
      var m := lib.gnomVersion(line);
      if m.Some? {
        var v := lib.parseFloat(m.value);
        if v.Some? {
          ghost var w := Window(ls);
          assert w[..lineno] == ls[..lineno];
          FirstWhereStable(lib, w, VersionLine, lineno);
          return Success(v.value);
        }
      }
      if lineno > 20 {
        break;
      }
    }
    assert Window(ls) == ls[..lineno];
    return Failure(NotGnom);
  }

  // ---------------------------------------------------------------------------
  // convertGNOM

  /** One row of the converted table; `err` is "" when the GNOM line had only
      two columns and the error is filled in later. */
  datatype Row = Row(q: string, intensity: string, err: string)

  /** Where the data section scan stopped: the rows it kept and the index of the
      line the scanner resumes at (just past a terminator, or the end). */
  datatype Scan = Scan(rows: seq<Row>, next: nat)

  /** A converted file and the Dmax it reports. */
  datatype Converted = Converted(dat: string, dmax: real)

  /** The line before which the data rows start: a scattering header line that
      the Dmax pattern does not also match (that pattern is tried first). */
  predicate IsDataHeader(lib: Lib, l: string) {
    lib.gnomDmax(l).None? && lib.isScatteringHeader(l)
  }

  /** The value of a Dmax line; a capture that does not parse gives 0. */
  function DmaxOf(lib: Lib, l: string): real
    requires lib.gnomDmax(l).Some?
  {
    lib.parseFloat(lib.gnomDmax(l).value).GetOr(0.0)
  }

  /** The Dmax read before the data header: that of the last Dmax line, or 0. */
  function LeadDmax(lib: Lib, ls: seq<string>): real {
    LastWhereSpec(lib, ls, DmaxLine);
    match LastWhere(lib, ls, DmaxLine)
    case None => 0.0
    case Some(k) => DmaxOf(lib, ls[k])
  }

  /** Any of the phrases that end the data section in GNOM job types 0, 3, 4, 5 and 6. */
  predicate IsTerminator(t: string) {
    Contains(t, "function of particle") || Contains(t, "particle thickness")
    || Contains(t, "function of cross-section") || Contains(t, "function of long cylinders")
    || Contains(t, "function of spherical shells")
  }

  predicate IsFloatField(lib: Lib, w: string) {
    IsField(w) && lib.parseFloat(w).Some?
  }

  /** What every kept row satisfies: its values are float fields, the first does
      not start with '#', and a present error value is a float field too. */
  predicate RowOk(lib: Lib, r: Row) {
    IsFloatField(lib, r.q) && r.q[0] != '#' && IsFloatField(lib, r.intensity)
    && (r.err == "" || IsFloatField(lib, r.err))
  }

  predicate RowsOk(lib: Lib, rows: seq<Row>) {
    forall k :: 0 <= k < |rows| ==> RowOk(lib, rows[k])
  }

  /** The row a data line gives: (q, I) from two columns, (q, I REG, ERROR) from five. */
  function RowOf(parts: seq<string>): Row
    requires |parts| == 2 || |parts| == 5
  {
    if |parts| == 2 then Row(parts[0], parts[1], "") else Row(parts[0], parts[4], parts[2])
  }


  /** Rows `rs` in front of a scan result. */
  function Glue(rs: seq<Row>, s: Result<Scan, InputError>): Result<Scan, InputError> {
    match s
    case Failure(e) => Failure(e)
    case Success(Scan(rows, next)) => Success(Scan(rs + rows, next))
  }

  lemma GlueNothing(s: Result<Scan, InputError>)
    ensures Glue([], s) == s
  {
    if s.Success? {
      assert [] + s.value.rows == s.value.rows;
    }
  }

  lemma GlueGlue(a: seq<Row>, b: seq<Row>, s: Result<Scan, InputError>)
    ensures Glue(a, Glue(b, s)) == Glue(a + b, s)
  {
    if s.Success? {
      assert a + (b + s.value.rows) == a + b + s.value.rows;
    }
  }

  /** The data section scan from line `i` on: blank and comment lines are passed
      over, a terminator ends the section, every token must be a float (the error
      names the line, counting from 1) and a line must have 2 or 5 tokens. */
  function ScanFrom(lib: Lib, ls: seq<string>, i: nat): (r: Result<Scan, InputError>)
    requires i <= |ls|
    ensures r.Success? ==> i <= r.value.next <= |ls|
    decreases |ls| - i
  {
    if i == |ls| then Success(Scan([], i))
    else if Skipped(ls[i]) then ScanFrom(lib, ls, i + 1)
    else if IsTerminator(TrimSpace(ls[i])) then Success(Scan([], i + 1))
    else
      var parts := Fields(ls[i]);
      if !AllFloat(lib, parts) then Failure(BadFloat(i + 1))
      else if |parts| == 2 || |parts| == 5 then Glue([RowOf(parts)], ScanFrom(lib, ls, i + 1))
      else Failure(BadColumns(i + 1))
  }

  /** The scan keeps only well-formed rows and stops at the end or just after a
      terminator line. */
  lemma {:induction false} ScanFromRows(lib: Lib, ls: seq<string>, i: nat)
    requires i <= |ls|
    ensures var r := ScanFrom(lib, ls, i);
      r.Success? ==> RowsOk(lib, r.value.rows)
                     && (r.value.next == |ls| || (i < r.value.next && !Skipped(ls[r.value.next - 1])
                                                 && IsTerminator(TrimSpace(ls[r.value.next - 1]))))
    decreases |ls| - i
  {
    if i < |ls| {
      var parts := Fields(ls[i]);
      if Skipped(ls[i]) {
        ScanFromRows(lib, ls, i + 1);
      } else if !IsTerminator(TrimSpace(ls[i])) && AllFloat(lib, parts) && (|parts| == 2 || |parts| == 5) {
        ScanFromRows(lib, ls, i + 1);
        DataLineHasFields(ls[i]);
        FieldsAreFields(ls[i]);
        var row := RowOf(parts);
        assert RowOk(lib, row);
        var s := ScanFrom(lib, ls, i + 1);
        if s.Success? {
          var rows := [row] + s.value.rows;
          assert forall k :: 1 <= k < |rows| ==> rows[k] == s.value.rows[k - 1];
        }
      }
    }
  }

  /** A failed scan names a line after `i`, counting from 1: one with a token that
      is not a float, or one of floats whose count is neither 2 nor 5. */
  lemma {:induction false} ScanFromErrors(lib: Lib, ls: seq<string>, i: nat)
    requires i <= |ls|
    ensures var r := ScanFrom(lib, ls, i);
      r.Failure? ==> match r.error
        case BadFloat(n) => i < n <= |ls| && LineBad(lib, ls[n - 1])
        case BadColumns(n) => i < n <= |ls| && !Skipped(ls[n - 1]) && AllFloat(lib, Fields(ls[n - 1]))
                              && |Fields(ls[n - 1])| != 2 && |Fields(ls[n - 1])| != 5
        case _ => false
    decreases |ls| - i
  {
    if i < |ls| {
      var parts := Fields(ls[i]);
      if Skipped(ls[i]) {
        ScanFromErrors(lib, ls, i + 1);
      } else if !IsTerminator(TrimSpace(ls[i])) && AllFloat(lib, parts) && (|parts| == 2 || |parts| == 5) {
        ScanFromErrors(lib, ls, i + 1);
      }
    }
  }

  /** The first error value among the rows, or "" when every row has two columns. */
  function Fill(rows: seq<Row>): string {
    if rows == [] then ""
    else if rows[0].err != "" then rows[0].err
    else Fill(rows[1..])
  }

  /** Fill is empty exactly when no row has an error value, and otherwise it is
      the error value of the first row that has one. */
  lemma {:induction false} FillSpec(rows: seq<Row>)
    ensures Fill(rows) == "" <==> forall k :: 0 <= k < |rows| ==> rows[k].err == ""
    ensures Fill(rows) != "" ==> exists k :: 0 <= k < |rows| && rows[k].err == Fill(rows)
                                             && forall j :: 0 <= j < k ==> rows[j].err == ""
  {
    if rows != [] && rows[0].err == "" {
      FillSpec(rows[1..]);
      assert forall k :: 1 <= k < |rows| ==> rows[k] == rows[1..][k - 1];
      if Fill(rows) != "" {
        var k :| 0 <= k < |rows[1..]| && rows[1..][k].err == Fill(rows)
                 && forall j :: 0 <= j < k ==> rows[1..][j].err == "";
        assert rows[k + 1].err == Fill(rows);
      }
    }
  }

  lemma {:induction false} FillSnoc(rows: seq<Row>, r: Row)
    ensures Fill(rows + [r]) == if Fill(rows) != "" then Fill(rows) else r.err
  {
    if rows != [] {
      assert (rows + [r])[1..] == rows[1..] + [r];
      FillSnoc(rows[1..], r);
    }
  }

  /** A kept row as written to the DAT file, with a missing error filled in. */
  function RowText(r: Row, fill: string): string {
    Join([r.q, r.intensity, if r.err == "" then fill else r.err], " ")
  }

  /** The converted file: one line per row, in order. */
  function Render(rows: seq<Row>, fill: string): string {
    if rows == [] then "" else RowText(rows[0], fill) + "\n" + Render(rows[1..], fill)
  }

  lemma {:induction false} RenderSnoc(rows: seq<Row>, r: Row, fill: string)
    ensures Render(rows + [r], fill) == Render(rows, fill) + RowText(r, fill) + "\n"
  {
    if rows == [] {
      assert [r][1..] == [];
    } else {
      assert (rows + [r])[1..] == rows[1..] + [r];
      RenderSnoc(rows[1..], r, fill);
    }
  }

  /** A Dmax row of the distance distribution table, as the code intends it:
      three tokens that all parse as floats. */
  predicate IsDmaxRow(lib: Lib, l: string) {
    !Skipped(l) && |Fields(l)| == 3 && AllFloat(lib, Fields(l))
  }

  /** The fallback Dmax: the first value of the last three-float line after the
      data section, or 0 when there is none. */
  function TailDmax(lib: Lib, tail: seq<string>): real {
    LastWhereSpec(lib, tail, DmaxRowLine);
    match LastWhere(lib, tail, DmaxRowLine)
    case None => 0.0
    case Some(k) => lib.parseFloat(Fields(tail[k])[0]).value
  }

  /** The last line satisfying `p` is the one `LastWhere` finds. */
  lemma LastWhereIs(lib: Lib, ls: seq<string>, p: LineTest, k: nat)
    requires k < |ls| && Holds(lib, p, ls[k])
    requires forall j :: k < j < |ls| ==> !Holds(lib, p, ls[j])
    ensures LastWhere(lib, ls, p) == Some(k)
  {
    LastWhereSpec(lib, ls, p);
  }

  lemma TailDmaxMeaning(lib: Lib, tail: seq<string>)
    ensures (forall k :: 0 <= k < |tail| ==> !IsDmaxRow(lib, tail[k])) ==> TailDmax(lib, tail) == 0.0
    ensures forall k :: 0 <= k < |tail| && IsDmaxRow(lib, tail[k])
                        && (forall j :: k < j < |tail| ==> !IsDmaxRow(lib, tail[j])) ==>
              lib.parseFloat(Fields(tail[k])[0]) == Some(TailDmax(lib, tail))
    ensures TailDmax(lib, tail) != 0.0 ==>
              exists k :: 0 <= k < |tail| && IsDmaxRow(lib, tail[k])
                          && lib.parseFloat(Fields(tail[k])[0]) == Some(TailDmax(lib, tail))
                          && forall j :: k < j < |tail| ==> !IsDmaxRow(lib, tail[j])
  {
    LastWhereSpec(lib, tail, DmaxRowLine);
    forall k | 0 <= k < |tail| && IsDmaxRow(lib, tail[k]) && (forall j :: k < j < |tail| ==> !IsDmaxRow(lib, tail[j]))
      ensures lib.parseFloat(Fields(tail[k])[0]) == Some(TailDmax(lib, tail))
    {
      LastWhereIs(lib, tail, DmaxRowLine, k);
    }
  }

  /** Any line after the data section with exactly three tokens, which is what
      the fallback scan accepts as written: the `continue` inside its token loop
      only moves on to the next token. */
  predicate IsThreeTokenLine(l: string) {
    !Skipped(l) && |Fields(l)| == 3
  }

  /** The fallback Dmax as written: the first token of the last three-token line,
      parsed with the error ignored (0 when it is not a float). */
  function TailDmaxAsWritten(lib: Lib, tail: seq<string>): real {
    LastWhereSpec(lib, tail, ThreeToken);
    match LastWhere(lib, tail, ThreeToken)
    case None => 0.0
    case Some(k) => lib.parseFloat(Fields(tail[k])[0]).GetOr(0.0)
  }

  /** The scan as written returns 0 when no line after the data has three
      tokens, and otherwise the parse of the first token of the last such line,
      or 0 when that token is not a float. */
  lemma TailDmaxAsWrittenMeaning(lib: Lib, tail: seq<string>)
    ensures (forall k :: 0 <= k < |tail| ==> !IsThreeTokenLine(tail[k])) ==> TailDmaxAsWritten(lib, tail) == 0.0
    ensures forall k :: 0 <= k < |tail| && IsThreeTokenLine(tail[k])
                        && (forall j :: k < j < |tail| ==> !IsThreeTokenLine(tail[j])) ==>
              TailDmaxAsWritten(lib, tail) == lib.parseFloat(Fields(tail[k])[0]).GetOr(0.0)
  {
    LastWhereSpec(lib, tail, ThreeToken);
    forall k | 0 <= k < |tail| && IsThreeTokenLine(tail[k]) && (forall j :: k < j < |tail| ==> !IsThreeTokenLine(tail[j]))
      ensures TailDmaxAsWritten(lib, tail) == lib.parseFloat(Fields(tail[k])[0]).GetOr(0.0)
    {
      LastWhereIs(lib, tail, ThreeToken, k);
    }
  }

  /** The two scans agree whenever every three-token line after the data is made
      of floats, as in the distance distribution table GNOM writes. */
  lemma TailDmaxAgrees(lib: Lib, tail: seq<string>)
    requires forall k :: 0 <= k < |tail| && IsThreeTokenLine(tail[k]) ==> AllFloat(lib, Fields(tail[k]))
    ensures TailDmaxAsWritten(lib, tail) == TailDmax(lib, tail)
  {
    LastWhereSpec(lib, tail, ThreeToken);
    LastWhereSpec(lib, tail, DmaxRowLine);
    match LastWhere(lib, tail, ThreeToken)
    case None =>
    case Some(k) =>
      LastWhereIs(lib, tail, DmaxRowLine, k);
      assert lib.parseFloat(Fields(tail[k])[0]).Some?;
  }

  /** A trailing three-token line that is not numeric (a column heading or a
      note) discards the Dmax of the table above it in the code as written; the
      intended scan keeps it. */
  lemma TailDmaxDiscardedByTrailingText(lib: Lib, a: string, b: string)
    requires a == "1 0 0" && b == "R P E"
    requires lib.parseFloat("1") == Some(1.0)
    requires lib.parseFloat("0") == Some(0.0)
    requires lib.parseFloat("R") == None
    ensures TailDmaxAsWritten(lib, [a, b]) == 0.0
    ensures TailDmax(lib, [a, b]) == 1.0
  {
    SampleLines(a, b);
    var fa := Fields(a);
    assert AllFloat(lib, fa) by {
      assert forall m :: 0 <= m < 3 ==> fa[m] == "1" || fa[m] == "0";
    }
    TrailingTextDiscards(lib, a, b);
  }

  /** The general form: a three-float line followed by a three-token line whose
      first token is not a float. */
  lemma TrailingTextDiscards(lib: Lib, a: string, b: string)
    requires IsDmaxRow(lib, a) && IsThreeTokenLine(b) && lib.parseFloat(Fields(b)[0]).None?
    ensures TailDmaxAsWritten(lib, [a, b]) == 0.0
    ensures TailDmax(lib, [a, b]) == lib.parseFloat(Fields(a)[0]).value
  {
    var tail := [a, b];
    assert Holds(lib, ThreeToken, tail[1]);
    assert LastWhere(lib, tail, ThreeToken) == Some(1);
    assert !AllFloat(lib, Fields(b));
    assert !Holds(lib, DmaxRowLine, tail[1]) && Holds(lib, DmaxRowLine, tail[0]);
    assert tail[..1] == [a];
    assert LastWhere(lib, tail, DmaxRowLine) == LastWhere(lib, [a], DmaxRowLine) == Some(0);
  }

  /** The two lines of the example above, split into fields. */
  lemma SampleLines(a: string, b: string)
    requires a == "1 0 0" && b == "R P E"
    ensures Fields(a) == ["1", "0", "0"] && !Skipped(a)
    ensures Fields(b) == ["R", "P", "E"] && !Skipped(b)
  {
    JoinThree("1", "0", "0", " ");
    JoinThree("R", "P", "E", " ");
    FieldsOfJoin(["1", "0", "0"]);
    FieldsOfJoin(["R", "P", "E"]);
    assert "1" + " " + "0" + " " + "0" == a;
    assert "R" + " " + "P" + " " + "E" == b;
    assert a[0] == '1' && b[0] == 'R';
  }

  /** convertGNOM's result, with the fallback Dmax scan as written. */
  function ConvertVerdict(lib: Lib, data: string): Result<Converted, InputError> {
    var ls := Lines(data);
    match FirstWhere(lib, ls, DataHeaderLine)
    case None => Failure(NoScatteringHeader)
    case Some(h) =>
      match ScanFrom(lib, ls, h + 1)
      case Failure(e) => Failure(e)
      case Success(Scan(rows, next)) =>
        var fill := Fill(rows);
        if fill == "" then Failure(OnlyTwoColumns)
        else
          var d := LeadDmax(lib, ls[..h]);
          Success(Converted(Render(rows, fill), if d == 0.0 then TailDmaxAsWritten(lib, ls[next..]) else d))
  }

  /** The first loop of convertGNOM: the index of the data header line, and the
      Dmax of the last "Maximum characteristic size" line before it (0 when there
      is none or its capture does not parse). */
  method FindDataHeader(lib: Lib, ls: seq<string>) returns (h: Option<nat>, dmax: real)
    ensures h == FirstWhere(lib, ls, DataHeaderLine)
    ensures h.Some? ==> dmax == LeadDmax(lib, ls[..h.value])
  {
    var lineno := 0;
    dmax := 0.0;
    while lineno < |ls|
      invariant 0 <= lineno <= |ls|
      invariant FirstWhere(lib, ls[..lineno], DataHeaderLine).None?
      invariant dmax == LeadDmax(lib, ls[..lineno])
    {
      FirstWhereNext(lib, ls, DataHeaderLine, lineno);
      LastWhereNext(lib, ls, DmaxLine, lineno);
      var line := ls[lineno];
      var m := lib.gnomDmax(line);
      if m.Some? {
        dmax := lib.parseFloat(m.value).GetOr(0.0);
      } else if lib.isScatteringHeader(line) {
        FirstWhereStable(lib, ls, DataHeaderLine, lineno + 1);
        return Some(lineno), dmax;
      }
      lineno := lineno + 1;
    }
    assert ls[..lineno] == ls;
    return None, dmax;
  }

  /** The second loop of convertGNOM: the rows of the data section from line
      `start` on, with the first error value seen in a five-column row. */
  method ScanData(lib: Lib, ls: seq<string>, start: nat) returns (r: Result<Scan, InputError>, fill: string)
    requires start <= |ls|
    ensures r == ScanFrom(lib, ls, start)
    ensures r.Success? ==> fill == Fill(r.value.rows)
  {
    var lineno := start;
    var records: seq<Row> := [];
    fill := "";
    GlueNothing(ScanFrom(lib, ls, lineno));
    while lineno < |ls|
      invariant start <= lineno <= |ls|
      invariant ScanFrom(lib, ls, start) == Glue(records, ScanFrom(lib, ls, lineno))
      invariant fill == Fill(records)
    {
      var line, skip := Classify(ls[lineno]);
      if skip {
        ScanSkipStep(lib, ls, start, lineno, records);
        lineno := lineno + 1;
        continue;
      }
      if IsTerminator(line) {
        ScanStopStep(lib, ls, start, lineno, records);
        return Success(Scan(records, lineno + 1)), fill;
      }
      var parts := Fields(line);
      var ok := AllFloats(lib, parts);
      if !ok {
        ScanErrorStep(lib, ls, start, lineno, records);
        return Failure(BadFloat(lineno + 1)), fill;
      }
      if |parts| == 2 || |parts| == 5 {
        var row := RowOf(parts);
        ScanRowStep(lib, ls, start, lineno, records, row);
        records := records + [row];
        if fill == "" {
          fill := row.err;
        }
      } else {
        ScanErrorStep(lib, ls, start, lineno, records);
        return Failure(BadColumns(lineno + 1)), fill;
      }
      lineno := lineno + 1;
    }
    assert records + [] == records;
    return Success(Scan(records, lineno)), fill;
  }

  /** A blank or comment line in the data section is passed over. */
  lemma ScanSkipStep(lib: Lib, ls: seq<string>, start: nat, i: nat, records: seq<Row>)
    requires start <= i < |ls|
    requires ScanFrom(lib, ls, start) == Glue(records, ScanFrom(lib, ls, i))
    requires Skipped(ls[i])
    ensures ScanFrom(lib, ls, start) == Glue(records, ScanFrom(lib, ls, i + 1))
  {
  }

  /** A terminator line ends the data section with the rows read so far. */
  lemma ScanStopStep(lib: Lib, ls: seq<string>, start: nat, i: nat, records: seq<Row>)
    requires start <= i < |ls|
    requires ScanFrom(lib, ls, start) == Glue(records, ScanFrom(lib, ls, i))
    requires !Skipped(ls[i]) && IsTerminator(TrimSpace(ls[i]))
    ensures ScanFrom(lib, ls, start) == Success(Scan(records, i + 1))
  {
    assert records + [] == records;
  }

  /** A data line with a token that is not a float, or with a column count other
      than 2 or 5, ends the scan with that line's error. */
  lemma ScanErrorStep(lib: Lib, ls: seq<string>, start: nat, i: nat, records: seq<Row>)
    requires start <= i < |ls|
    requires ScanFrom(lib, ls, start) == Glue(records, ScanFrom(lib, ls, i))
    requires !Skipped(ls[i]) && !IsTerminator(TrimSpace(ls[i]))
    requires !AllFloat(lib, Fields(ls[i])) || (|Fields(ls[i])| != 2 && |Fields(ls[i])| != 5)
    ensures ScanFrom(lib, ls, start)
            == Failure(if !AllFloat(lib, Fields(ls[i])) then BadFloat(i + 1) else BadColumns(i + 1))
  {
  }

  /** A data row read by convertGNOM's second loop joins the rows before it. */
  lemma ScanRowStep(lib: Lib, ls: seq<string>, start: nat, i: nat, records: seq<Row>, row: Row)
    requires start <= i < |ls|
    requires ScanFrom(lib, ls, start) == Glue(records, ScanFrom(lib, ls, i))
    requires !Skipped(ls[i]) && !IsTerminator(TrimSpace(ls[i])) && AllFloat(lib, Fields(ls[i]))
    requires |Fields(ls[i])| == 2 || |Fields(ls[i])| == 5
    requires row == RowOf(Fields(ls[i]))
    ensures ScanFrom(lib, ls, start) == Glue(records + [row], ScanFrom(lib, ls, i + 1))
    ensures Fill(records + [row]) == if Fill(records) != "" then Fill(records) else row.err
  {
    GlueGlue(records, [row], ScanFrom(lib, ls, i + 1));
    FillSnoc(records, row);
  }

  /** The third loop of convertGNOM, run when no Dmax was found before the data.
      Its token loop parses every token and discards the result, so every
      three-token line sets Dmax to its parsed first token, 0 when that fails. */
  method FallbackDmax(lib: Lib, ls: seq<string>, next: nat) returns (dmax: real)
    requires next <= |ls|
    ensures dmax == TailDmaxAsWritten(lib, ls[next..])
  {
    ghost var tail := ls[next..];
    dmax := 0.0;
    var i := next;
    while i < |ls|
      invariant next <= i <= |ls|
      invariant dmax == TailDmaxAsWritten(lib, tail[..i - next])
    {
      LastWhereNext(lib, tail, ThreeToken, i - next);
      assert tail[i - next] == ls[i];
      var line, skip := Classify(ls[i]);
      if !skip {
        var parts := Fields(line);
        if |parts| == 3 {
          dmax := lib.parseFloat(parts[0]).GetOr(0.0);
        }
      }
      i := i + 1;
    }
    assert tail[..i - next] == tail;
  }

  /** The last loop of convertGNOM: one "q I err" line per row. */
  method RenderRows(records: seq<Row>, fill: string) returns (buf: string)
    ensures buf == Render(records, fill)
  {
    buf := "";
    var j := 0;
    while j < |records|
      invariant 0 <= j <= |records|
      invariant buf == Render(records[..j], fill)
    {
      var rec := records[j];
      var e := if rec.err == "" then fill else rec.err;
      var line := rec.q + " " + rec.intensity + " " + e;
      JoinThree(rec.q, rec.intensity, e, " ");
      assert records[..j + 1] == records[..j] + [rec];
      RenderSnoc(records[..j], rec, fill);
      buf := buf + line + "\n";
      j := j + 1;
    }
    assert records[..j] == records;
  }

  /** server/parser.go convertGNOM: finds the data header, collects the 2- and
      5-column rows up to a terminator, falls back to the distance distribution
      table for Dmax when none was found before the data, and writes the rows
      as "q I err" lines. */
  method ConvertGnom(lib: Lib, data: string) returns (r: Result<Converted, InputError>)
    ensures r == ConvertVerdict(lib, data)
  {
    var ls := Lines(data);
    var h, dmax := FindDataHeader(lib, ls);
    if h.None? {
      return Failure(NoScatteringHeader);
    }
    var scan, fill := ScanData(lib, ls, h.value + 1);
    if scan.Failure? {
      return Failure(scan.error);
    }
    if fill == "" {
      return Failure(OnlyTwoColumns);
    }
    if dmax == 0.0 {
      dmax := FallbackDmax(lib, ls, scan.value.next);
    }
    var buf := RenderRows(scan.value.rows, fill);
    return Success(Converted(buf, dmax));
  }

  // ---------------------------------------------------------------------------
  // What a conversion produces

  /** The lines of a rendered table, one per row. */
  function RowLines(rows: seq<Row>, fill: string): seq<string> {
    seq(|rows|, k requires 0 <= k < |rows| => RowText(rows[k], fill))
  }

  /** A kept row, written out with a float error value, is one line of three float
      fields that the DAT scanners do not skip. */
  lemma RowTextShape(lib: Lib, r: Row, fill: string)
    requires RowOk(lib, r) && IsFloatField(lib, fill)
    ensures var t := RowText(r, fill);
      && '\n' !in t && DropCR(t) == t && !Skipped(t)
      && Fields(t) == [r.q, r.intensity, if r.err == "" then fill else r.err]
      && AllFloat(lib, Fields(t))
  {
    var e := if r.err == "" then fill else r.err;
    var t := RowText(r, fill);
    JoinThree(r.q, r.intensity, e, " ");
    assert t == r.q + " " + r.intensity + " " + e;
    FieldsOfJoin([r.q, r.intensity, e]);
    assert t[0] == r.q[0];
    assert t[|t| - 1] == e[|e| - 1];
    assert forall c :: c in t ==> c in r.q || c == ' ' || c in r.intensity || c in e;
  }

  lemma {:induction false} LinesOfRender(lib: Lib, rows: seq<Row>, fill: string)
    requires RowsOk(lib, rows) && IsFloatField(lib, fill) && ScansFully(Render(rows, fill))
    ensures Lines(Render(rows, fill)) == RowLines(rows, fill)
  {
    if rows != [] {
      RowTextShape(lib, rows[0], fill);
      var rest := rows[1..];
      assert forall k :: 0 <= k < |rest| ==> rest[k] == rows[k + 1];
      assert RowText(rows[0], fill) + "\n" + Render(rest, fill) == Render(rows, fill);
      LinesCons(RowText(rows[0], fill), Render(rest, fill));
      LinesOfRender(lib, rest, fill);
    }
  }

  /** A non-empty table of kept rows, with a float as the missing-error value,
      is a three-column DAT file, provided no rendered line is too long for the
      scanner. */
  lemma RenderedIsDat(lib: Lib, rows: seq<Row>, fill: string)
    requires RowsOk(lib, rows) && IsFloatField(lib, fill) && rows != [] && ScansFully(Render(rows, fill))
    ensures DatLines(lib, Lines(Render(rows, fill))) == Success(3)
  {
    LinesOfRender(lib, rows, fill);
    var out := RowLines(rows, fill);
    forall i | 0 <= i < |out|
      ensures !Skipped(out[i]) && AllFloat(lib, Fields(out[i])) && |Fields(out[i])| == 3
    {
      RowTextShape(lib, rows[i], fill);
    }
    FirstWhereSpec(lib, out, BadLine);
    assert LastWhere(lib, out, DataLine) == Some(|out| - 1);
  }

  /** A successful conversion yields a file that validateDAT accepts with three
      columns, every line "q I err" with three float fields, provided the
      scanner reads it to the end. */
  lemma ConvertedIsDat(lib: Lib, data: string)
    requires ConvertVerdict(lib, data).Success? && ScansFully(ConvertVerdict(lib, data).value.dat)
    ensures DatLines(lib, Lines(ConvertVerdict(lib, data).value.dat)) == Success(3)
  {
    var ls := Lines(data);
    var h := FirstWhere(lib, ls, DataHeaderLine).value;
    var scan := ScanFrom(lib, ls, h + 1);
    var rows := scan.value.rows;
    var fill := Fill(rows);
    FillSpec(rows);
    ScanFromRows(lib, ls, h + 1);
    var k :| 0 <= k < |rows| && rows[k].err == fill;
    assert RowOk(lib, rows[k]);
    assert ConvertVerdict(lib, data).value.dat == Render(rows, fill);
    RenderedIsDat(lib, rows, fill);
  }
}
