/** Parsing a request in place (src/HTTPUnit.cpp:108-164): the parser cuts the request buffer by
    writing NULs over separators, and the header map keeps views into that buffer. */
module HttpParser {
  import opened Options
  import opened CString
  import opened HttpSyntax
  import opened QueryArgs

  /** A std::string_view into the request buffer. */
  datatype View = View(off: nat, len: nat)

  datatype Entry = Entry(key: View, value: View)

  predicate Inside(v: View, n: nat) {
    v.off + v.len <= n
  }

  function Text(b: seq<char>, v: View): string
    requires Inside(v, |b|)
  {
    b[v.off..v.off + v.len]
  }

  predicate Holds(b: seq<char>, v: View, t: string) {
    Inside(v, |b|) && Text(b, v) == t
  }

  /** HTTP::HTTPRequest, as far as the parser fills it. */
  class HttpRequest {
    var httpMethod: string
    var path: string
    var protocol: string
    var headers: seq<Entry>  // the map's entries, keyed by the text of `key`
    var rawBody: View
    var args: map<string, string>

    constructor ()
      ensures httpMethod == path == protocol == "" && headers == [] && rawBody == View(0, 0) && args == map[]
    {
      httpMethod, path, protocol, headers, rawBody, args := "", "", "", [], View(0, 0), map[];
    }
  }

  /** b' is b with NULs written over some separators. */
  predicate OnlyCuts(b: seq<char>, b': seq<char>) {
    && |b'| == |b|
    && forall j :: 0 <= j < |b| ==> b'[j] == b[j] || (b'[j] == NUL && b[j] in {' ', '\n', ':'})
  }

  /** Cutting a C string at a separator leaves two. */
  lemma CutString(b: seq<char>, c: nat, a: string, sep: string, rest: string)
    requires IsCStr(b, c, a + sep + rest) && sep != ""
    ensures var i := c + |a|;
            && i + |sep| < |b| && b[i] == sep[0]
            && IsCStr(b[i := NUL], c, a)
            && IsCStr(b[i := NUL], i + |sep|, rest)
  {
    var i, t := c + |a|, a + sep + rest;
    assert b[i] == t[|a|];
    var b' := b[i := NUL];
    forall j | c <= j < i ensures b'[j] == a[j - c] != NUL {
      assert b[j] == t[j - c] != NUL;
    }
    assert c + |a| < |b'| && b'[c + |a|] == NUL;
    assert IsCStr(b', c, a);
    var k := i + |sep|;
    forall j | k <= j < k + |rest| ensures b'[j] == rest[j - k] != NUL {
      assert b[j] == t[j - c] != NUL;
    }
    assert k + |rest| == c + |t|;
    assert b'[k + |rest|] == NUL;
    assert IsCStr(b', k, rest);
  }

  /** The C string `text` at c of b has been cut at sep: `a` now stands at c of b', `rest` behind the
      separator, and nothing but the separator's first byte has changed. */
  ghost predicate CutTo(b: seq<char>, c: nat, text: string, sep: string, a: string, rest: string, b': seq<char>) {
    && Split(text, sep) == Some((a, rest)) && text == a + sep + rest && sep != ""
    && c + |a| < |b| && b[c + |a|] == sep[0] && b' == b[c + |a| := NUL]
    && IsCStr(b', c, a) && IsCStr(b', c + |a| + |sep|, rest)
  }

  /** Such a cut changes one byte. */
  lemma CutChanges(b: seq<char>, c: nat, text: string, sep: string, a: string, rest: string, b': seq<char>)
    requires CutTo(b, c, text, sep, a, rest, b') && sep[0] in {' ', '\n', ':'}
    ensures OnlyCuts(b, b') && c + |a| < |b| == |b'|
    ensures b'[..c + |a|] == b[..c + |a|] && b'[..c] == b[..c]
    ensures b'[c..c + |a|] == a && b'[c + |a|] == NUL && b'[c + |a| + 1..] == b[c + |a| + 1..]
  {
  }

  lemma CutAt(b: seq<char>, c: nat, text: string, sep: string, i: int)
    requires IsCStr(b, c, text) && Fresh(sep) && i == Parse(text, sep)
    ensures i < 0 ==> Split(text, sep) == None
    ensures i >= 0 ==>
              && i + |sep| <= |text| && c + i < |b| && 0 < |sep|
              && var a, rest, b' := text[..i], text[i + |sep|..], b[c + i := NUL];
                 CutTo(b, c, text, sep, a, rest, b') && IsCStr(b', c, a) && IsCStr(b', c + i + |sep|, rest)
  {
    hide IsCStr;
    ParseIsSplit(text, sep);
    SplitJoins(text, sep);
    if i >= 0 {
      CutString(b, c, text[..i], sep, text[i + |sep|..]);
    }
  }

  /** The pattern of every parsing step: find the separator in the C string at c and write a NUL
      over it, or report failure. */
  method Cut(buf: array<char>, c: nat, ghost text: string, sep: string)
    returns (idx: int, ghost a: string, ghost rest: string)
    requires IsCStr(buf[..], c, text) && Fresh(sep) && NUL !in sep
    modifies buf
    ensures idx < 0 ==> Split(text, sep) == None && buf[..] == old(buf[..])
    ensures idx >= 0 ==> idx == |a| && CutTo(old(buf[..]), c, text, sep, a, rest, buf[..])
    ensures idx >= 0 ==> IsCStr(buf[..], c, a) && IsCStr(buf[..], c + idx + |sep|, rest) && |a| + |rest| < |text|
  {
    ghost var b := buf[..];
    idx := IncrementParse(buf, c, text, sep);
    CutAt(b, c, text, sep, idx);
    a, rest := "", "";
    if idx >= 0 {
      hide *;
      a, rest := text[..idx], text[idx + |sep|..];
      buf[c + idx] := NUL;
      assert buf[..] == b[c + idx := NUL];
    }
  }

  /** A std::string made from a char pointer. */
  method FromPointer(buf: array<char>, c: nat, ghost text: string) returns (t: string)
    requires IsCStr(buf[..], c, text)
    ensures t == text
  {
    var n := StrLen(buf, c, text);
    t := buf[..][c..c + n];
  }

  /** A std::string_view made from a char pointer. */
  method ViewFromPointer(buf: array<char>, c: nat, ghost text: string) returns (v: View)
    requires IsCStr(buf[..], c, text)
    ensures v == View(c, |text|) && Inside(v, buf.Length) && Text(buf[..], v) == text
  {
    var n := StrLen(buf, c, text);
    v := View(c, n);
  }

  /** What dispatchHTTP makes of a buffer b that starts with `text`: the parts of the request line,
      each readable where it stands, NULs over separators and nothing else, nothing written from
      the headers on, and where these start. */
  ghost predicate LineDispatched(b: seq<char>, text: string, b': seq<char>, m: string, p: string, v: string,
                                 r: Result<nat>) {
    && OnlyCuts(b, b')
    && match ParseRequestLine(text)
       case Err(e) => r == Err(e)
       case Ok((m', p', v', rest)) =>
         && m == m' && p == p' && v == v'
         && r == Ok(|m| + |p| + |v| + 3)
         && IsCStr(b', r.value, rest)
         && IsCStr(b', 0, m) && IsCStr(b', |m| + 1, p) && IsCStr(b', |m| + |p| + 2, v)
         && b' == m + [NUL] + (p + [NUL] + (v + [NUL] + b[r.value..]))
  }

  /** In a buffer cut three times in a row the parts follow each other. */
  lemma ThreeParts(b: seq<char>, b3: seq<char>, m: string, p: string, v: string)
    requires IsCStr(b3, 0, m) && IsCStr(b3, |m| + 1, p) && IsCStr(b3, |m| + |p| + 2, v)
    requires |b3| == |b| && b3[|m| + |p| + |v| + 3..] == b[|m| + |p| + |v| + 3..]
    ensures b3 == m + [NUL] + (p + [NUL] + (v + [NUL] + b[|m| + |p| + |v| + 3..]))
  {
    hide IsCStr;
    CStrBytes(b3, 0, m);
    CStrBytes(b3, |m| + 1, p);
    CStrBytes(b3, |m| + |p| + 2, v);
    assert b3[0..] == b3;
  }

  lemma CStrBytes(b: seq<char>, i: nat, t: string)
    requires IsCStr(b, i, t)
    ensures b[i..] == t + [NUL] + b[i + |t| + 1..]
  {
    assert b[i..i + |t|] == t;
  }

  lemma LineComplete(b: seq<char>, b1: seq<char>, b2: seq<char>, b3: seq<char>, text: string,
                     m: string, r0: string, p: string, r1: string, v: string, rest: string)
    requires CutTo(b, 0, text, SP, m, r0, b1)
    requires CutTo(b1, |m| + 1, r0, SP, p, r1, b2)
    requires CutTo(b2, |m| + |p| + 2, r1, LF, v, rest, b3)
    ensures LineDispatched(b, text, b3, m, p, v, Ok(|m| + |p| + |v| + 3))
  {
    hide IsCStr, Split;
    CStrKept(b1, 0, m, |m| + |p| + 1);
    CStrKept(b2, 0, m, |m| + |p| + |v| + 2);
    CStrKept(b2, |m| + 1, p, |m| + |p| + |v| + 2);
    ThreeParts(b, b3, m, p, v);
  }

  lemma LineBroken(b: seq<char>, b1: seq<char>, b2: seq<char>, text: string, m: string, r0: string, p: string,
                   r1: string,
                   m': string, p': string, v': string)
    ensures Split(text, SP) == None ==> LineDispatched(b, text, b, m', p', v', Err(NoMethod))
    ensures CutTo(b, 0, text, SP, m, r0, b1) && Split(r0, SP) == None ==>
              LineDispatched(b, text, b1, m', p', v', Err(NoPath))
    ensures CutTo(b, 0, text, SP, m, r0, b1) && CutTo(b1, |m| + 1, r0, SP, p, r1, b2) && Split(r1, LF) == None ==>
              LineDispatched(b, text, b2, m', p', v', Err(NoVersion))
  {
  }

  /** HTTPUnit::dispatchHTTP. */
  method DispatchHTTP(buf: array<char>, ghost text: string, request: HttpRequest) returns (r: Result<nat>)
    requires IsCStr(buf[..], 0, text)
    modifies buf, request`httpMethod, request`path, request`protocol
    ensures LineDispatched(old(buf[..]), text, buf[..], request.httpMethod, request.path, request.protocol, r)
  {
    hide *;
    StopsOk();
    ghost var b := buf[..];
    var i, m, r0 := Cut(buf, 0, text, SP);
    ghost var b1 := buf[..];
    if i < 0 {
      LineBroken(b, b1, b1, text, m, r0, m, r0, request.httpMethod, request.path, request.protocol);
      return Err(NoMethod);
    }
    request.httpMethod := FromPointer(buf, 0, m);
    assert buf[..] == b1;
    var j, p, r1 := Cut(buf, i + 1, r0, SP);
    ghost var b2 := buf[..];
    if j < 0 {
      LineBroken(b, b1, b1, text, m, r0, p, r1, request.httpMethod, request.path, request.protocol);
      return Err(NoPath);
    }
    request.path := FromPointer(buf, i + 1, p);
    assert buf[..] == b2;
    var k, v, rest := Cut(buf, i + j + 2, r1, LF);
    ghost var b3 := buf[..];
    if k < 0 {
      LineBroken(b, b1, b2, text, m, r0, p, r1, request.httpMethod, request.path, request.protocol);
      return Err(NoVersion);
    }
    request.protocol := FromPointer(buf, i + j + 2, v);
    assert buf[..] == b3;
    LineComplete(b, b1, b2, b3, text, m, r0, p, r1, v, rest);
    return Ok(i + j + k + 3);
  }

  // --- The header -------------------------------------------------------------------------------------

  predicate HoldsField(b: seq<char>, e: Entry, f: Field) {
    Holds(b, e.key, f.key) && Holds(b, e.value, f.value)
  }

  /** The entries, read through their views, are the fields fs. */
  predicate HoldsFields(b: seq<char>, es: seq<Entry>, fs: seq<Field>) {
    |es| == |fs| && forall i :: 0 <= i < |es| ==> HoldsField(b, es[i], fs[i])
  }

  /** No view reaches beyond c. */
  predicate Below(es: seq<Entry>, c: nat) {
    forall i :: 0 <= i < |es| ==> Inside(es[i].key, c) && Inside(es[i].value, c)
  }

  /** What the cutting makes of a field line. */
  function CutLine(f: Field): string {
    f.key + "\0" + " " + f.value + "\0"
  }

  function CutLines(fs: seq<Field>): string {
    if fs == [] then "" else CutLines(fs[..|fs| - 1]) + CutLine(fs[|fs| - 1])
  }

  /** Views below c survive whatever happens from c on. */
  lemma ViewsKept(b: seq<char>, b': seq<char>, c: nat, es: seq<Entry>, fs: seq<Field>)
    requires HoldsFields(b, es, fs) && Below(es, c) && c <= |b| == |b'| && b'[..c] == b[..c]
    ensures HoldsFields(b', es, fs)
  {
    forall i | 0 <= i < |es| ensures HoldsField(b', es[i], fs[i]) {
      assert HoldsField(b, es[i], fs[i]);
      TextKept(b, b', c, es[i].key);
      TextKept(b, b', c, es[i].value);
    }
  }

  lemma TextKept(b: seq<char>, b': seq<char>, c: nat, v: View)
    requires Inside(v, c) && c <= |b| == |b'| && b'[..c] == b[..c]
    ensures Text(b', v) == Text(b, v)
  {
    assert Text(b', v) == b'[..c][v.off..v.off + v.len];
    assert Text(b, v) == b[..c][v.off..v.off + v.len];
  }

  /** headers.insert({key, val}): an entry whose key reads the same stays. */
  method Insert(buf: array<char>, headers: seq<Entry>, e: Entry, ghost fs: seq<Field>, ghost f: Field)
    returns (hs: seq<Entry>)
    requires HoldsFields(buf[..], headers, fs) && HoldsField(buf[..], e, f)
    ensures hs == if HasKey(fs, f.key) then headers else headers + [e]
  {
    var i := 0;
    while i < |headers|
      invariant i <= |headers|
      invariant forall j :: 0 <= j < i ==> fs[j].key != f.key
    {
      assert HoldsField(buf[..], headers[i], fs[i]);
      if Text(buf[..], headers[i].key) == Text(buf[..], e.key) {
        return headers;
      }
      i := i + 1;
    }
    return headers + [e];
  }

  /** What the rest of the parse adds to the fields already read. */
  ghost function Resume(done: seq<Field>, rest: string): Result<(seq<Field>, string)> {
    match ParseFields(rest, CR)
    case Err(e) => Err(e)
    case Ok((fs, body)) => Ok((done + fs, body))
  }

  /** Where the loop of dispatchHeader stands: it started on b, which holds `text` at c0, has read the
      fields `done`, and is at c of the buffer b', with `rest` still to read. */
  ghost predicate HeaderAt(b: seq<char>, c0: nat, text: string, done: seq<Field>, b': seq<char>, c: nat, rest: string,
                           es: seq<Entry>) {
    && ParseFields(text, CR) == Resume(done, rest)
    && c0 <= c <= |b| == |b'| && OnlyCuts(b, b')
    && b'[..c] == b[..c0] + CutLines(done) && b'[c..] == b[c..]
    && IsCStr(b', c, rest)
    && HoldsFields(b', es, KeepFirst(done)) && Below(es, c)
  }

  /** What dispatchHeader makes of a buffer b that holds `text` at c0: the first value of each key,
      readable where it stands, NULs over the separators of every line read and no other change, and
      the offset of the body, from which on nothing is written. */
  ghost predicate HeaderDispatched(b: seq<char>, c0: nat, text: string, b': seq<char>, es: seq<Entry>, r: Result<nat>) {
    && OnlyCuts(b, b')
    && match ParseFields(text, CR)
       case Err(e) => r == Err(e)
       case Ok((fs, body)) =>
         && r.Ok? && c0 <= r.value <= |b|
         && b' == b[..c0] + CutLines(fs) + "\r" + [NUL] + b[r.value..]
         && IsCStr(b', r.value, body)
         && HoldsFields(b', es, KeepFirst(fs))
  }

  /** A line is cut off. */
  lemma LineCut(b: seq<char>, c0: nat, text: string, done: seq<Field>, b1: seq<char>, c: nat, t: string, es: seq<Entry>,
                line: string, rest: string, b2: seq<char>)
    requires HeaderAt(b, c0, text, done, b1, c, t, es) && CutTo(b1, c, t, LF, line, rest, b2)
    ensures OnlyCuts(b, b2) && c + |line| + 1 <= |b| == |b2|
    ensures b2[..c] == b[..c0] + CutLines(done)
    ensures b2[c..c + |line|] == line && b2[c + |line|] == NUL && b2[c + |line| + 1..] == b[c + |line| + 1..]
    ensures IsCStr(b2, c, line) && IsCStr(b2, c + |line| + 1, rest)
    ensures HoldsFields(b2, es, KeepFirst(done)) && Below(es, c)
    ensures ParseFields(text, CR) == Resume(done, t) && c0 <= c
  {
    hide IsCStr, Split, KeepFirst, HoldsFields, HasKey, CutLines, ParseFields, Resume, OnlyCuts, Below;
    CutChanges(b1, c, t, LF, line, rest, b2);
    OnlyCutsAgain(b, b1, b2);
    ViewsKept(b1, b2, c, es, KeepFirst(done));
    Later(b, b1, c, c + |line| + 1);
  }

  lemma Later(b: seq<char>, b1: seq<char>, c: nat, d: nat)
    requires c <= d <= |b| == |b1| && b1[c..] == b[c..]
    ensures b1[d..] == b[d..]
  {
    assert b1[d..] == b1[c..][d - c..] && b[d..] == b[c..][d - c..];
  }

  /** The closing line ends it. */
  lemma HeaderDone(b: seq<char>, c0: nat, text: string, done: seq<Field>, b1: seq<char>, c: nat, t: string,
                   es: seq<Entry>,
                   rest: string, b2: seq<char>)
    requires HeaderAt(b, c0, text, done, b1, c, t, es) && CutTo(b1, c, t, LF, CR, rest, b2)
    ensures HeaderDispatched(b, c0, text, b2, es, Ok(c + |CR| + 1))
  {
    hide IsCStr, Split;
    LineCut(b, c0, text, done, b1, c, t, es, CR, rest, b2);
    assert ParseFields(t, CR) == Ok(([], rest)) && done + [] == done;
    assert b2 == b2[..c] + b2[c..c + 1] + [b2[c + 1]] + b2[c + 2..];
  }

  lemma ResumeStep(done: seq<Field>, b1: seq<char>, c: nat, t: string, line: string, rest: string, b2: seq<char>,
                   k: string, v: string, b3: seq<char>)
    requires CutTo(b1, c, t, LF, line, rest, b2) && line != CR && CutTo(b2, c, line, COLON, k, v, b3)
    ensures Resume(done, t) == Resume(done + [Field(k, v)], rest)
  {
    hide IsCStr;
    match ParseFields(rest, CR)
    case Err(_) =>
    case Ok((fs, _)) => assert done + ([Field(k, v)] + fs) == done + [Field(k, v)] + fs;
  }

  /** A field line takes it one field further. */
  lemma HeaderStep(b: seq<char>, c0: nat, text: string, done: seq<Field>, b1: seq<char>, c: nat, t: string,
                   es: seq<Entry>,
                   line: string, rest: string, b2: seq<char>, k: string, v: string, b3: seq<char>, es': seq<Entry>)
    requires HeaderAt(b, c0, text, done, b1, c, t, es)
    requires CutTo(b1, c, t, LF, line, rest, b2) && line != CR && CutTo(b2, c, line, COLON, k, v, b3)
    requires es' == if HasKey(KeepFirst(done), k) then es
                    else es + [Entry(View(c, |k|), View(c + |k| + 2, |v|))]
    ensures HeaderAt(b, c0, text, done + [Field(k, v)], b3, c + |line| + 1, rest, es')
  {
    hide *;
    var f, d := Field(k, v), c + |line| + 1;
    var done' := done + [f];
    ResumeStep(done, b1, c, t, line, rest, b2, k, v, b3);
    LineCut(b, c0, text, done, b1, c, t, es, line, rest, b2);
    FieldCut(b2, c, line, k, v, b3);
    FieldEntered(b2, b3, c, es, done, k, v, es');
    CutLinesAppend(done, f);
    Joined(b3, c, d, b[..c0], CutLines(done), CutLine(f));
    OnlyCutsAgain(b, b2, b3);
    Arrived(b, c0, text, done', b3, d, rest, es');
  }

  lemma Arrived(b: seq<char>, c0: nat, text: string, done: seq<Field>, b': seq<char>, c: nat, rest: string,
                es: seq<Entry>)
    requires ParseFields(text, CR) == Resume(done, rest)
    requires c0 <= c <= |b| == |b'| && OnlyCuts(b, b')
    requires b'[..c] == b[..c0] + CutLines(done) && b'[c..] == b[c..]
    requires IsCStr(b', c, rest)
    requires HoldsFields(b', es, KeepFirst(done)) && Below(es, c)
    ensures HeaderAt(b, c0, text, done, b', c, rest, es)
  {
  }

  lemma CutLinesAppend(done: seq<Field>, f: Field)
    ensures CutLines(done + [f]) == CutLines(done) + CutLine(f)
  {
    assert (done + [f])[..|done|] == done;
  }

  lemma Joined(b: seq<char>, c: nat, d: nat, x: string, y: string, z: string)
    requires c <= d <= |b| && b[..c] == x + y && b[c..d] == z
    ensures b[..d] == x + (y + z)
  {
    assert b[..d] == b[..c] + b[c..d];
  }

  lemma OnlyCutsAgain(b: seq<char>, b2: seq<char>, b3: seq<char>)
    requires OnlyCuts(b, b2) && OnlyCuts(b2, b3)
    ensures OnlyCuts(b, b3)
  {
  }

  lemma FieldCut(b2: seq<char>, c: nat, line: string, k: string, v: string, b3: seq<char>)
    requires CutTo(b2, c, line, COLON, k, v, b3) && IsCStr(b2, c, line)
    ensures |line| == |k| + 2 + |v| && c + |line| + 1 <= |b3| == |b2|
    ensures forall i: nat, t :: c + |line| < i && IsCStr(b2, i, t) ==> IsCStr(b3, i, t)
    ensures b3[c..c + |line| + 1] == CutLine(Field(k, v))
    ensures b3[..c] == b2[..c] && b3[c + |line| + 1..] == b2[c + |line| + 1..] && OnlyCuts(b2, b3)
    ensures Holds(b3, View(c, |k|), k) && Holds(b3, View(c + |k| + 2, |v|), v)
    ensures HoldsField(b3, Entry(View(c, |k|), View(c + |k| + 2, |v|)), Field(k, v))
  {
    hide IsCStr, Split, OnlyCuts;
    LaterStringsKept(b2, c, line, k, v, b3);
    CutChanges(b2, c, line, COLON, k, v, b3);
    var d := c + |k| + 2;
    CharThere(b2, c, line, |k| + 1);
    TextThere(b3, d, v);
    assert line[|k| + 1] == COLON[1];
    assert b3[d - 1] == b2[d - 1];
    hide *;
    CutLineThere(b3, c, k, v);
    Later(b2, b3, c + |k| + 1, c + |line| + 1);
    FieldHeld(b3, c, k, v);
  }

  lemma CharThere(b: seq<char>, i: nat, t: string, j: nat)
    requires IsCStr(b, i, t) && j < |t|
    ensures i + j < |b| && b[i + j] == t[j]
  {
    assert b[i + j] == t[i + j - i];
  }

  lemma CutLineThere(b: seq<char>, c: nat, k: string, v: string)
    requires var d := c + |k| + 2;
             && d + |v| < |b| && b[c..c + |k|] == k && b[c + |k|] == NUL && b[d - 1] == ' '
             && b[d..d + |v|] == v && b[d + |v|] == NUL
    ensures b[c..c + |k| + 2 + |v| + 1] == CutLine(Field(k, v))
  {
    var d := c + |k| + 2;
    var e := d + |v|;
    Parted(b, c, d - 2, d - 1);
    Parted(b, c, d - 1, d);
    Parted(b, c, d, e);
    Parted(b, c, e, e + 1);
    assert b[d - 2..d - 1] == [NUL] && b[d - 1..d] == " " && b[e..e + 1] == [NUL];
  }

  lemma Parted(b: seq<char>, i: nat, j: nat, k: nat)
    requires i <= j <= k <= |b|
    ensures b[i..k] == b[i..j] + b[j..k]
  {
  }

  lemma TextThere(b: seq<char>, i: nat, t: string)
    requires IsCStr(b, i, t)
    ensures i + |t| < |b| && b[i..i + |t|] == t && b[i + |t|] == NUL
  {
  }

  lemma FieldHeld(b: seq<char>, c: nat, k: string, v: string)
    requires c + |k| + 2 + |v| <= |b| && b[c..c + |k|] == k && b[c + |k| + 2..c + |k| + 2 + |v|] == v
    ensures Holds(b, View(c, |k|), k) && Holds(b, View(c + |k| + 2, |v|), v)
    ensures HoldsField(b, Entry(View(c, |k|), View(c + |k| + 2, |v|)), Field(k, v))
  {
  }

  lemma LaterStringsKept(b2: seq<char>, c: nat, line: string, k: string, v: string, b3: seq<char>)
    requires CutTo(b2, c, line, COLON, k, v, b3)
    ensures |line| == |k| + 2 + |v|
    ensures forall i: nat, t :: c + |line| < i && IsCStr(b2, i, t) ==> IsCStr(b3, i, t)
  {
    hide IsCStr, Split;
    forall i: nat, t | c + |line| < i && IsCStr(b2, i, t) ensures IsCStr(b3, i, t) {
      CStrKept(b2, i, t, c + |k|);
    }
  }

  lemma FieldEntered(b2: seq<char>, b3: seq<char>, c: nat, es: seq<Entry>, done: seq<Field>, k: string, v: string,
                     es': seq<Entry>)
    requires HoldsFields(b2, es, KeepFirst(done)) && Below(es, c) && c <= |b2| == |b3| && b3[..c] == b2[..c]
    requires Holds(b3, View(c, |k|), k) && Holds(b3, View(c + |k| + 2, |v|), v)
    requires es' == if HasKey(KeepFirst(done), k) then es
                    else es + [Entry(View(c, |k|), View(c + |k| + 2, |v|))]
    ensures HoldsFields(b3, es', KeepFirst(done + [Field(k, v)])) && Below(es', c + |k| + |v| + 3)
  {
    var f, e, kept := Field(k, v), Entry(View(c, |k|), View(c + |k| + 2, |v|)), KeepFirst(done);
    ViewsKept(b2, b3, c, es, kept);
    FieldHeldThere(b3, e, f);
    KeepFirstAppend(done, f);
    BelowMore(es, e, c, c + |k| + |v| + 3);
    hide *;
    if !HasKey(kept, k) {
      HeldMore(b3, es, kept, e, f);
    }
  }

  lemma FieldHeldThere(b: seq<char>, e: Entry, f: Field)
    requires Holds(b, e.key, f.key) && Holds(b, e.value, f.value)
    ensures HoldsField(b, e, f)
  {
  }

  lemma HeldMore(b: seq<char>, es: seq<Entry>, fs: seq<Field>, e: Entry, f: Field)
    requires HoldsFields(b, es, fs) && HoldsField(b, e, f)
    ensures HoldsFields(b, es + [e], fs + [f])
  {
  }

  lemma BelowMore(es: seq<Entry>, e: Entry, c: nat, d: nat)
    requires Below(es, c) && c <= d && Inside(e.key, d) && Inside(e.value, d)
    ensures Below(es, d) && Below(es + [e], d)
  {
  }

  lemma KeepFirstAppend(done: seq<Field>, f: Field)
    ensures KeepFirst(done + [f]) == if HasKey(KeepFirst(done), f.key) then KeepFirst(done) else KeepFirst(done) + [f]
  {
    assert (done + [f])[..|done|] == done;
  }

  lemma HeaderStart(b: seq<char>, c0: nat, text: string)
    requires IsCStr(b, c0, text)
    ensures HeaderAt(b, c0, text, [], b, c0, text, [])
  {
    match ParseFields(text, CR)
    case Err(_) =>
    case Ok((fs, _)) => assert [] + fs == fs;
  }

  /** No further line, or a line that is no field. */
  lemma HeaderBroken(b: seq<char>, c0: nat, text: string, done: seq<Field>, b1: seq<char>, c: nat, t: string,
                     es: seq<Entry>)
    requires HeaderAt(b, c0, text, done, b1, c, t, es)
    ensures IsCStr(b1, c, t) && HoldsFields(b1, es, KeepFirst(done)) && Below(es, c)
    ensures Split(t, LF) == None ==> HeaderDispatched(b, c0, text, b1, es, Err(NoHeaderLine))
    ensures forall line, rest, b2 :: CutTo(b1, c, t, LF, line, rest, b2) && line != CR && Split(line, COLON) == None ==>
              HeaderDispatched(b, c0, text, b2, es, Err(NoHeaderValue))
  {
    hide IsCStr, HoldsFields;
  }

  /** The second half of a turn of dispatchHeader: key and value are cut apart and entered. */
  method CutField(buf: array<char>, c: nat, ghost line: string, headers: seq<Entry>, ghost done: seq<Field>)
    returns (ok: bool, headers': seq<Entry>, ghost k: string, ghost v: string)
    requires IsCStr(buf[..], c, line) && HoldsFields(buf[..], headers, KeepFirst(done)) && Below(headers, c)
    modifies buf
    ensures ok ==> CutTo(old(buf[..]), c, line, COLON, k, v, buf[..])
    ensures ok ==> headers' == if HasKey(KeepFirst(done), k) then headers
                               else headers + [Entry(View(c, |k|), View(c + |k| + 2, |v|))]
    ensures !ok ==> Split(line, COLON) == None && headers' == headers && buf[..] == old(buf[..])
  {
    hide *;
    StopsOk();
    ghost var b := buf[..];
    var i;
    i, k, v := Cut(buf, c, line, COLON);
    if i < 0 {
      return false, headers, k, v;
    }
    var key := ViewFromPointer(buf, c, k);
    var val := ViewFromPointer(buf, c + i + 2, v);
    FieldCut(b, c, line, k, v, buf[..]);
    ViewsKept(b, buf[..], c, headers, KeepFirst(done));
    headers' := Insert(buf, headers, Entry(key, val), KeepFirst(done), Field(k, v));
    ok := true;
  }

  /** HTTPUnit::dispatchHeader. */
  method DispatchHeader(buf: array<char>, c0: nat, ghost text: string, request: HttpRequest) returns (r: Result<nat>)
    requires IsCStr(buf[..], c0, text) && request.headers == []
    modifies buf, request`headers
    ensures HeaderDispatched(old(buf[..]), c0, text, buf[..], request.headers, r)
  {
    hide *;
    StopsOk();
    HeaderStart(buf[..], c0, text);
    var c: nat := c0;
    ghost var b, done, t := buf[..], [], text;
    while true
      invariant HeaderAt(b, c0, text, done, buf[..], c, t, request.headers)
      decreases |t|
    {
      ghost var b1, es := buf[..], request.headers;
      HeaderBroken(b, c0, text, done, b1, c, t, es);
      var nextLine, line, rest := Cut(buf, c, t, LF);
      ghost var b2 := buf[..];
      if nextLine < 0 {
        return Err(NoHeaderLine);
      }
      var l := FromPointer(buf, c, line);
      if l == "\r" {
        HeaderDone(b, c0, text, done, b1, c, t, es, rest, b2);
        return Ok(c + nextLine + 1);
      }
      LineCut(b, c0, text, done, b1, c, t, es, line, rest, b2);
      var ok, headers, k, v := CutField(buf, c, line, request.headers, done);
      if !ok {
        return Err(NoHeaderValue);
      }
      ghost var b3 := buf[..];
      HeaderStep(b, c0, text, done, b1, c, t, es, line, rest, b2, k, v, b3, headers);
      request.headers := headers;
      assert buf[..] == b3;
      c := c + nextLine + 1;
      done, t := done + [Field(k, v)], rest;
    }
  }

  // --- The request ------------------------------------------------------------------------------------

  /** What the cutting makes of the head of a request. */
  function CutHead(q: Request): string {
    q.httpMethod + "\0" + (q.path + "\0" + (q.protocol + "\0" + (CutLines(q.fields) + "\r" + "\0")))
  }

  /** What the parser makes of a buffer that starts with `text`: it fails exactly where the grammar
      does; otherwise every part of the request can be read back at the end, the head has been cut
      as CutHead says, and the body and all behind it are untouched. */
  ghost predicate RequestParsed(b: seq<char>, text: string, b': seq<char>, m: string, p: string, v: string,
                                es: seq<Entry>,
                                body: View, args: map<string, string>, r: Result<nat>) {
    match ParseRequest(text)
    case Err(e) => r == Err(e)
    case Ok(q) =>
      && m == q.httpMethod && p == q.path && v == q.protocol && args == LastWins(ArgList(q.path, 0))
      && HoldsFields(b', es, KeepFirst(q.fields)) && Holds(b', body, q.body)
      && r == Ok(|CutHead(q)|) && r.value <= |b| && b' == CutHead(q) + b[r.value..]
  }

  lemma BothDispatched(b: seq<char>, text: string, b1: seq<char>, m: string, p: string, v: string, c0: nat,
                       rest: string,
                       b2: seq<char>, es: seq<Entry>, r: Result<nat>)
    requires LineDispatched(b, text, b1, m, p, v, Ok(c0)) && ParseRequestLine(text) == Ok((m, p, v, rest))
    requires HeaderDispatched(b1, c0, rest, b2, es, r) && |b1| == |b2| == |b|
    ensures r.Err? ==> ParseRequest(text) == Err(r.error)
    ensures r.Ok? ==>
              && ParseRequest(text).Ok?
              && var q := ParseRequest(text).value;
              && q.httpMethod == m && q.path == p && q.protocol == v
              && HoldsFields(b2, es, KeepFirst(q.fields)) && IsCStr(b2, r.value, q.body)
              && r.value == |CutHead(q)| && r.value <= |b| && b2 == CutHead(q) + b[r.value..]
  {
    hide IsCStr, HoldsFields, OnlyCuts, ParseFields;
    if r.Ok? {
      var (fs, body) := ParseFields(rest, CR).value;
      var line := m + [NUL] + (p + [NUL] + (v + [NUL]));
      assert b1 == line + b[c0..] && |line| == c0;
      assert b1[..c0] == line && b1[r.value..] == b[r.value..];
      assert line + CutLines(fs) + "\r" + [NUL] == CutHead(Request(m, p, v, fs, body));
    }
  }

  /** The parsing half of HTTPUnit::parseRequest. */
  method ParseInPlace(buf: array<char>, ghost text: string, request: HttpRequest) returns (r: Result<nat>)
    requires IsCStr(buf[..], 0, text) && request.headers == []
    modifies buf, request
    ensures OnlyCuts(old(buf[..]), buf[..])
    ensures RequestParsed(old(buf[..]), text, buf[..], request.httpMethod, request.path, request.protocol,
                          request.headers, request.rawBody, request.args, r)
  {
    ghost var b := buf[..];
    r := DispatchHTTP(buf, text, request);
    ghost var b1 := buf[..];
    if r.Err? {
      return;
    }
    ghost var c0, rest := r.value, ParseRequestLine(text).value.3;
    r := DispatchHeader(buf, r.value, rest, request);
    ghost var b2 := buf[..];
    OnlyCutsAgain(b, b1, b2);
    BothDispatched(b, text, b1, request.httpMethod, request.path, request.protocol, c0, rest, b2, request.headers, r);
    if r.Ok? {
      ghost var q := ParseRequest(text).value;
      request.rawBody := ViewFromPointer(buf, r.value, q.body);
      request.args := ParseArgs(request.path);
    }
  }

  /** The round trip through the parser in place: a printed request comes back, duplicate keys with
      their first value. */
  lemma PrintedRequestComesBack(q: Request, b: seq<char>, b': seq<char>, m: string, p: string, v: string,
                                es: seq<Entry>,
                                body: View, args: map<string, string>, r: Result<nat>)
    requires RequestOk(q) && RequestParsed(b, RequestText(q), b', m, p, v, es, body, args, r)
    ensures r.Ok? && m == q.httpMethod && p == q.path && v == q.protocol
    ensures HoldsFields(b', es, KeepFirst(q.fields)) && Holds(b', body, q.body)
  {
    RequestRoundTrip(q);
  }
}
