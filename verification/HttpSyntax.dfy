/** The formats that src/HTTPUnit.cpp reads and writes, as pure splitting and printing: an HTTP/1.1
    request (RFC 9112, sections 3 and 5) with LF-ended lines and a closing line that is exactly CR,
    and a response head with LF-ended lines and an empty closing line. */
module HttpSyntax {
  import opened Options
  import opened CString

  /** The five places where parsing throws. */
  datatype Error = NoMethod | NoPath | NoVersion | NoHeaderLine | NoHeaderValue

  datatype Result<+T> = Ok(value: T) | Err(error: Error)

  const SP := " "
  const LF := "\n"
  const CR := "\r"
  const COLON := ": "

  // --- Splitting at the first occurrence ---------------------------------------------------------------

  /** Every text has a first occurrence, or none. */
  lemma {:induction false} FirstExists(text: string, sep: string, m: nat) returns (r: int)
    requires m <= |text| && forall j: nat :: j < m ==> !Match(text, sep, j)
    ensures IsFirst(text, sep, r)
    decreases |text| - m
  {
    if Match(text, sep, m) {
      r := m;
    } else if m == |text| {
      r := -1;
    } else {
      r := FirstExists(text, sep, m + 1);
    }
  }

  /** The parts before and after the first occurrence of sep. */
  ghost function Split(text: string, sep: string): (o: Option<(string, string)>)
    ensures o.Some? ==> |o.value.1| <= |text| && (sep != "" ==> |o.value.1| < |text|)
  {
    assert exists i :: IsFirst(text, sep, i) by {
      var i := FirstExists(text, sep, 0);
    }
    var i :| IsFirst(text, sep, i);
    if i < 0 then None else Some((text[..i], text[i + |sep|..]))
  }

  predicate Fresh(sep: string) {
    sep != "" && sep[0] !in sep[1..]
  }

  /** sep does not occur in text. */
  ghost predicate Free(text: string, sep: string) {
    forall m: nat :: !Match(text, sep, m)
  }

  /** Splitting is at the first occurrence, whichever way that is found. */
  lemma SplitAtFirst(text: string, sep: string, i: int)
    requires IsFirst(text, sep, i)
    ensures Split(text, sep) == if i < 0 then None else Some((text[..i], text[i + |sep|..]))
  {
    var j :| IsFirst(text, sep, j) && Split(text, sep) == if j < 0 then None else Some((text[..j], text[j + |sep|..]));
    FirstIsUnique(text, sep, i, j);
  }

  /** incrementParse splits where Split does, for separators like those of this program. */
  lemma ParseIsSplit(text: string, sep: string)
    requires Fresh(sep)
    ensures var i := Parse(text, sep);
            if i < 0 then Split(text, sep) == None
            else i + |sep| <= |text| && Split(text, sep) == Some((text[..i], text[i + |sep|..]))
  {
    FreshFirstCharacter(sep);
    FindsFirstIffRestartable(sep);
    SplitAtFirst(text, sep, Parse(text, sep));
  }

  lemma SplitJoins(text: string, sep: string)
    requires sep != ""
    ensures match Split(text, sep)
            case None => Free(text, sep)
            case Some((a, b)) => text == a + sep + b && Free(a, sep)
  {
    var i := FirstExists(text, sep, 0);
    SplitAtFirst(text, sep, i);
    if i >= 0 {
      assert text == text[..i] + text[i..i + |sep|] + text[i + |sep|..];
      forall m: nat | m + |sep| <= i ensures !Match(text[..i], sep, m) {
        assert text[..i][m..m + |sep|] == text[m..m + |sep|];
        assert !Match(text, sep, m);
      }
    }
  }

  lemma SplitOfJoin(a: string, sep: string, b: string)
    requires Fresh(sep) && Free(a, sep)
    ensures Split(a + sep + b, sep) == Some((a, b))
  {
    var text := a + sep + b;
    assert text[|a|..|a| + |sep|] == sep;
    forall m: nat | m < |a| ensures !Match(text, sep, m) {
      if m + |sep| <= |a| {
        assert text[m..m + |sep|] == a[m..m + |sep|];
        assert !Match(a, sep, m);
      } else if m + |sep| <= |text| {
        assert text[m..m + |sep|][|a| - m] == sep[0];
        assert sep[1..][|a| - m - 1] == sep[|a| - m];
      }
    }
    SplitAtFirst(text, sep, |a|);
    assert text[..|a|] == a && text[|a| + |sep|..] == b;
  }

  lemma FreeOfChar(a: string, c: char)
    ensures Free(a, [c]) <==> c !in a
  {
    if c in a {
      var i :| 0 <= i < |a| && a[i] == c;
      assert Match(a, [c], i);
    }
    forall m: nat ensures Match(a, [c], m) ==> c in a {
      if Match(a, [c], m) {
        assert a[m..m + 1][0] == a[m];
      }
    }
  }

  // --- Header fields -------------------------------------------------------------------------------------

  datatype Field = Field(key: string, value: string)

  function FieldLine(f: Field): string {
    f.key + COLON + f.value
  }

  ghost predicate FieldOk(f: Field) {
    Free(f.key, ": ") && '\n' !in f.key && '\n' !in f.value
  }

  ghost predicate FieldsOk(fs: seq<Field>) {
    forall i :: 0 <= i < |fs| ==> FieldOk(fs[i])
  }

  /** Fields up to a line that is exactly `stop`, and what follows that line. */
  ghost function ParseFields(text: string, stop: string): Result<(seq<Field>, string)>
    decreases |text|
  {
    match Split(text, LF)
    case None => Err(NoHeaderLine)
    case Some((line, rest)) =>
      if line == stop then Ok(([], rest))
      else
        match Split(line, COLON)
        case None => Err(NoHeaderValue)
        case Some((k, v)) =>
          match ParseFields(rest, stop)
          case Err(e) => Err(e)
          case Ok((fs, body)) => Ok(([Field(k, v)] + fs, body))
  }

  function PrintFields(fs: seq<Field>, stop: string, body: string): string {
    if fs == [] then stop + LF + body
    else FieldLine(fs[0]) + LF + PrintFields(fs[1..], stop, body)
  }

  /** The lines of the fields as they are written. */
  function FieldLines(fs: seq<Field>): string {
    if fs == [] then "" else fs[0].key + ": " + fs[0].value + "\n" + FieldLines(fs[1..])
  }

  lemma {:induction false} PrintedFields(fs: seq<Field>, stop: string, body: string)
    ensures PrintFields(fs, stop, body) == FieldLines(fs) + (stop + "\n" + body)
  {
    if fs != [] {
      PrintedFields(fs[1..], stop, body);
    }
  }

  /** A closing line is no field line. */
  ghost predicate StopOk(stop: string) {
    Free(stop, COLON) && '\n' !in stop
  }

  lemma StopsOk()
    ensures StopOk(CR) && StopOk("") && CR == "\r"
    ensures Fresh(SP) && Fresh(LF) && Fresh(COLON) && |SP| == |LF| == 1 && |COLON| == 2
    ensures NUL !in SP && NUL !in LF && NUL !in COLON
  {
  }

  lemma {:induction false} FieldsRoundTrip(fs: seq<Field>, stop: string, body: string)
    requires FieldsOk(fs) && StopOk(stop)
    ensures ParseFields(PrintFields(fs, stop, body), stop) == Ok((fs, body))
  {
    StopsOk();
    if fs == [] {
      FreeOfChar(stop, '\n');
      SplitOfJoin(stop, LF, body);
    } else {
      var line, rest := FieldLine(fs[0]), PrintFields(fs[1..], stop, body);
      assert FieldOk(fs[0]);
      assert line != stop by {
        assert line[|fs[0].key|..|fs[0].key| + 2] == COLON;
        assert Match(line, COLON, |fs[0].key|);
      }
      FreeOfChar(line, '\n');
      SplitOfJoin(line, LF, rest);
      SplitOfJoin(fs[0].key, COLON, fs[0].value);
      FieldsRoundTrip(fs[1..], stop, body);
      assert fs == [fs[0]] + fs[1..];
    }
  }

  lemma {:induction false} FieldsLossless(text: string, stop: string)
    ensures match ParseFields(text, stop)
            case Err(_) => true
            case Ok((fs, body)) => FieldsOk(fs) && text == PrintFields(fs, stop, body)
    decreases |text|
  {
    SplitJoins(text, LF);
    match Split(text, LF) {
      case None =>
      case Some((line, rest)) =>
        FreeOfChar(line, '\n');
        if line != stop {
          SplitJoins(line, COLON);
          FieldsLossless(rest, stop);
        }
    }
  }

  predicate HasKey(fs: seq<Field>, key: string) {
    exists i :: 0 <= i < |fs| && fs[i].key == key
  }

  /** What a run of std::map::insert leaves, in order of insertion. */
  function KeepFirst(fs: seq<Field>): seq<Field> {
    if fs == [] then []
    else
      var kept, f := KeepFirst(fs[..|fs| - 1]), fs[|fs| - 1];
      if HasKey(kept, f.key) then kept else kept + [f]
  }

  predicate FirstOfItsKey(fs: seq<Field>, i: nat) {
    i < |fs| && !HasKey(fs[..i], fs[i].key)
  }

  /** Duplicate keys keep their first value: the kept fields are exactly those that come before any
      other of their key, and no two share a key. */
  lemma {:induction false} KeepsTheFirst(fs: seq<Field>)
    ensures forall f :: f in KeepFirst(fs) <==> exists i: nat :: FirstOfItsKey(fs, i) && fs[i] == f
    ensures forall key :: HasKey(KeepFirst(fs), key) <==> HasKey(fs, key)
    ensures forall i, j :: 0 <= i < j < |KeepFirst(fs)| ==> KeepFirst(fs)[i].key != KeepFirst(fs)[j].key
  {
    if fs != [] {
      var n := |fs| - 1;
      var fs', f := fs[..n], fs[n];
      var kept := KeepFirst(fs');
      KeepsTheFirst(fs');
      forall i: nat ensures FirstOfItsKey(fs, i) <==> if i == n then !HasKey(fs', f.key) else FirstOfItsKey(fs', i) {
        assert i < n ==> fs[..i] == fs'[..i];
      }
      forall key ensures HasKey(fs, key) <==> HasKey(fs', key) || key == f.key {
        assert fs == fs' + [f];
        HasKeyAppend(fs', f, key);
      }
      forall key ensures HasKey(KeepFirst(fs), key) <==> HasKey(fs, key) {
        HasKeyAppend(kept, f, key);
      }
      forall g ensures g in KeepFirst(fs) <==> exists i: nat :: FirstOfItsKey(fs, i) && fs[i] == g {
        if g in kept {
          var i: nat :| FirstOfItsKey(fs', i) && fs'[i] == g;
          assert FirstOfItsKey(fs, i) && fs[i] == g;
        }
        if !HasKey(fs', f.key) && g == f {
          assert FirstOfItsKey(fs, n) && fs[n] == g;
        }
      }
    }
  }

  lemma HasKeyAppend(fs: seq<Field>, f: Field, key: string)
    ensures HasKey(fs + [f], key) <==> HasKey(fs, key) || key == f.key
  {
    if HasKey(fs, key) {
      var i :| 0 <= i < |fs| && fs[i].key == key;
      assert (fs + [f])[i].key == key;
    }
    assert (fs + [f])[|fs|] == f;
  }

  // --- Requests -------------------------------------------------------------------------------------------

  datatype Request = Request(httpMethod: string, path: string, protocol: string, fields: seq<Field>, body: string)

  /** The request line: method, path and protocol, and what follows. */
  ghost function ParseRequestLine(text: string): Result<(string, string, string, string)> {
    match Split(text, SP)
    case None => Err(NoMethod)
    case Some((m, r0)) =>
      match Split(r0, SP)
      case None => Err(NoPath)
      case Some((p, r1)) =>
        match Split(r1, LF)
        case None => Err(NoVersion)
        case Some((v, rest)) => Ok((m, p, v, rest))
  }

  ghost function ParseRequest(text: string): Result<Request> {
    match ParseRequestLine(text)
    case Err(e) => Err(e)
    case Ok((m, p, v, rest)) =>
      match ParseFields(rest, CR)
      case Err(e) => Err(e)
      case Ok((fs, body)) => Ok(Request(m, p, v, fs, body))
  }

  function PrintRequest(r: Request): string {
    r.httpMethod + SP + (r.path + SP + (r.protocol + LF + PrintFields(r.fields, CR, r.body)))
  }

  ghost predicate RequestOk(r: Request) {
    && ' ' !in r.httpMethod && ' ' !in r.path && '\n' !in r.protocol
    && FieldsOk(r.fields)
  }

  /** A request as it is written. */
  function RequestText(r: Request): string {
    r.httpMethod + " " + r.path + " " + r.protocol + "\n" + FieldLines(r.fields) + "\r\n" + r.body
  }

  lemma PrintedRequest(r: Request)
    ensures PrintRequest(r) == RequestText(r)
  {
    PrintedFields(r.fields, CR, r.body);
  }

  /** Writing a request and parsing it gives it back, exactly for the requests that can be written
      down: no space in method or path, no LF in the protocol, no LF or ": " in a key, no LF in a
      value. */
  lemma RequestRoundTrip(r: Request)
    ensures ParseRequest(RequestText(r)) == Ok(r) <==>
              && ' ' !in r.httpMethod && ' ' !in r.path && '\n' !in r.protocol
              && (forall f :: f in r.fields ==> Free(f.key, ": ") && '\n' !in f.key && '\n' !in f.value)
  {
    PrintedRequest(r);
    assert FieldsOk(r.fields) <==> forall f :: f in r.fields ==> FieldOk(f);
    if RequestOk(r) {
      StopsOk();
      FreeOfChar(r.httpMethod, ' ');
      FreeOfChar(r.path, ' ');
      FreeOfChar(r.protocol, '\n');
      var fields := PrintFields(r.fields, CR, r.body);
      var fromProtocol := r.protocol + LF + fields;
      var fromPath := r.path + SP + fromProtocol;
      SplitOfJoin(r.httpMethod, SP, fromPath);
      SplitOfJoin(r.path, SP, fromProtocol);
      SplitOfJoin(r.protocol, LF, fields);
      FieldsRoundTrip(r.fields, CR, r.body);
    } else {
      ParsedRequestIsWritten(PrintRequest(r));
    }
  }

  /** Conversely whatever parses is the writing of what it parses to: no text has two readings, nothing
      of it is dropped, and the line before the body is exactly CR. */
  lemma ParsedRequestIsWritten(text: string)
    ensures match ParseRequest(text)
            case Err(_) => true
            case Ok(r) => RequestOk(r) && text == RequestText(r)
  {
    SplitJoins(text, SP);
    match Split(text, SP) {
      case None =>
      case Some((m, r0)) =>
        FreeOfChar(m, ' ');
        SplitJoins(r0, SP);
        match Split(r0, SP) {
          case None =>
          case Some((p, r1)) =>
            FreeOfChar(p, ' ');
            SplitJoins(r1, LF);
            match Split(r1, LF) {
              case None =>
              case Some((v, rest)) =>
                FreeOfChar(v, '\n');
                FieldsLossless(rest, CR);
                match ParseFields(rest, CR) {
                  case Err(_) =>
                  case Ok((fs, body)) => PrintedRequest(Request(m, p, v, fs, body));
                }
            }
        }
    }
  }

  /** Where parsing the fields fails: behind the whole fields fs, at a text without LF, or at a line that
      is not CR and has no ": ". */
  lemma {:induction false} FieldsFail(text: string) returns (fs: seq<Field>, line: string, rest: string)
    requires ParseFields(text, CR).Err?
    ensures FieldsOk(fs)
    ensures match ParseFields(text, CR).error
            case NoHeaderLine => text == FieldLines(fs) + line && '\n' !in line
            case NoHeaderValue =>
              text == FieldLines(fs) + (line + "\n" + rest) && '\n' !in line && line != "\r" && Free(line, ": ")
            case _ => false
    decreases |text|
  {
    fs, line, rest := [], text, "";
    SplitJoins(text, LF);
    match Split(text, LF) {
      case None => FreeOfChar(text, '\n');
      case Some((l, more)) =>
        FreeOfChar(l, '\n');
        SplitJoins(l, COLON);
        match Split(l, COLON) {
          case None => line, rest := l, more;
          case Some((k, v)) =>
            var f := Field(k, v);
            fs, line, rest := FieldsFail(more);
            fs := [f] + fs;
            assert fs[1..] == fs[1..] && text == FieldLine(f) + "\n" + more;
        }
    }
  }

  /** What each error of the request line means. */
  lemma RequestLineFails(text: string) returns (m: string, p: string, rest: string)
    ensures match ParseRequestLine(text)
            case Ok(_) => true
            case Err(NoMethod) => ' ' !in text
            case Err(NoPath) => text == m + " " + rest && ' ' !in m && ' ' !in rest
            case Err(NoVersion) => text == m + " " + (p + " " + rest) && ' ' !in m && ' ' !in p && '\n' !in rest
            case Err(_) => false
  {
    hide Split, Free;
    m, p, rest := "", "", "";
    SplitJoins(text, SP);
    FreeOfChar(text, ' ');
    match Split(text, SP) {
      case None =>
      case Some((a, r0)) =>
        m, rest := a, r0;
        FreeOfChar(a, ' ');
        FreeOfChar(r0, ' ');
        SplitJoins(r0, SP);
        match Split(r0, SP) {
          case None =>
          case Some((b, r1)) =>
            p, rest := b, r1;
            FreeOfChar(b, ' ');
            FreeOfChar(r1, '\n');
            SplitJoins(r1, LF);
        }
    }
  }

  // --- Response heads ---------------------------------------------------------------------------------------

  datatype Response = Response(httpVer: string, status: string, headers: seq<Field>)

  function PrintResponse(r: Response, body: string): string {
    r.httpVer + SP + (r.status + LF + PrintFields(r.headers, "", body))
  }

  /** A reader for it. */
  ghost function ReadResponse(text: string): Option<(Response, string)> {
    match Split(text, SP)
    case None => None
    case Some((ver, r0)) =>
      match Split(r0, LF)
      case None => None
      case Some((status, rest)) =>
        match ParseFields(rest, "")
        case Err(_) => None
        case Ok((fs, body)) => Some((Response(ver, status, fs), body))
  }

  ghost predicate ResponseOk(r: Response) {
    ' ' !in r.httpVer && '\n' !in r.status && FieldsOk(r.headers)
  }

  /** A response as it is written. */
  function ResponseText(r: Response, body: string): string {
    r.httpVer + " " + r.status + "\n" + FieldLines(r.headers) + "\n" + body
  }

  lemma PrintedResponse(r: Response, body: string)
    ensures PrintResponse(r, body) == ResponseText(r, body)
  {
    PrintedFields(r.headers, "", body);
  }

  /** The response printer is uniquely readable: version, status, every header in order and the
      start of the body come back, whatever the body is, exactly when version has no space, status
      and values no LF, and keys no LF and no ": ". */
  lemma ResponseRoundTrip(r: Response, body: string)
    ensures ReadResponse(ResponseText(r, body)) == Some((r, body)) <==>
              && ' ' !in r.httpVer && '\n' !in r.status
              && (forall f :: f in r.headers ==> Free(f.key, ": ") && '\n' !in f.key && '\n' !in f.value)
  {
    PrintedResponse(r, body);
    assert FieldsOk(r.headers) <==> forall f :: f in r.headers ==> FieldOk(f);
    var text := PrintResponse(r, body);
    if ResponseOk(r) {
      StopsOk();
      FreeOfChar(r.httpVer, ' ');
      FreeOfChar(r.status, '\n');
      var fields := PrintFields(r.headers, "", body);
      SplitOfJoin(r.httpVer, SP, r.status + LF + fields);
      SplitOfJoin(r.status, LF, fields);
      FieldsRoundTrip(r.headers, "", body);
    } else {
      SplitJoins(text, SP);
      match Split(text, SP) {
        case None =>
        case Some((ver, r0)) =>
          FreeOfChar(ver, ' ');
          SplitJoins(r0, LF);
          match Split(r0, LF) {
            case None =>
            case Some((status, rest)) =>
              FreeOfChar(status, '\n');
              FieldsLossless(rest, "");
          }
      }
    }
  }

  /** The loop of getResponseHeaders over the header map, in its iteration order. */
  method GetResponseHeaders(response: Response) returns (res: string)
    ensures res == ResponseText(response, "")
    ensures forall body :: ResponseText(response, body) == res + body
  {
    res := response.httpVer + " " + response.status + "\n";
    ghost var head := res;
    var i := 0;
    assert response.headers[0..] == response.headers;
    while i < |response.headers|
      invariant i <= |response.headers|
      invariant head + FieldLines(response.headers) == res + FieldLines(response.headers[i..])
    {
      var h := response.headers[i];
      assert response.headers[i..][1..] == response.headers[i + 1..];
      assert res + (h.key + ": " + h.value + "\n" + FieldLines(response.headers[i + 1..]))
          == (res + h.key + ": " + h.value + "\n") + FieldLines(response.headers[i + 1..]);
      res := res + h.key + ": " + h.value + "\n";
      i := i + 1;
    }
    assert FieldLines(response.headers[i..]) == "";
    res := res + "\n";
  }
}
