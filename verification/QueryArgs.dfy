/** HTTPUnit::parseArgs (src/HTTPUnit.cpp:194-205): the arguments of a query string, found by repeated
    search for the pattern ([^?]*?)=(.*?)(&|$|\r|\n). */
module QueryArgs {
  import opened Options
  import opened HttpSyntax

  // --- What a backtracking matcher tries, in its order -------------------------------------------------

  datatype Choice = Chr(c: char) | AtEnd

  /** A pattern is a sequence of pieces: a lazy run of any characters but some, or one of several
      choices. */
  datatype Piece = Lazy(excluded: set<char>) | Either(choices: seq<Choice>)

  function AfterChoice(c: Choice, t: string, i: nat): seq<nat> {
    match c
    case Chr(x) => if i < |t| && t[i] == x then [i + 1] else []
    case AtEnd => if i == |t| then [i] else []
  }

  function AfterChoices(cs: seq<Choice>, t: string, i: nat): seq<nat> {
    if cs == [] then [] else AfterChoice(cs[0], t, i) + AfterChoices(cs[1..], t, i)
  }

  /** The positions where a piece that starts at i may end. */
  function After(p: Piece, t: string, i: nat): seq<nat>
    decreases |t| - i
  {
    match p
    case Lazy(x) => [i] + (if i < |t| && t[i] !in x then After(p, t, i + 1) else [])
    case Either(cs) => AfterChoices(cs, t, i)
  }

  /** All ways to match the pieces one after the other from i on: where each of them ends. */
  function Paths(ps: seq<Piece>, t: string, i: nat): seq<seq<nat>>
    decreases |ps|, 0
  {
    if ps == [] then [[]] else PathsFrom(ps[1..], t, After(ps[0], t, i))
  }

  function PathsFrom(ps: seq<Piece>, t: string, starts: seq<nat>): seq<seq<nat>>
    decreases |ps|, 1 + |starts|
  {
    if starts == [] then [] else Behind(starts[0], Paths(ps, t, starts[0])) + PathsFrom(ps, t, starts[1..])
  }

  function Behind(j: nat, paths: seq<seq<nat>>): (r: seq<seq<nat>>)
    ensures |r| == |paths| && forall i :: 0 <= i < |r| ==> r[i] == [j] + paths[i]
  {
    seq(|paths|, i requires 0 <= i < |paths| => [j] + paths[i])
  }

  const KEY := Lazy({'?'})
  const EQUALS := Either([Chr('=')])
  const VALUE := Lazy({'\n', '\r'})
  const TERMINATOR := Either([Chr('&'), AtEnd, Chr('\r'), Chr('\n')])
  const ARG_PATTERN := [KEY, EQUALS, VALUE, TERMINATOR]

  /** std::regex_search from s on: at the first place where there is a match, the one tried first. */
  function RegexSearch(t: string, s: nat): Option<(nat, seq<nat>)>
    decreases |t| - s
  {
    var paths := Paths(ARG_PATTERN, t, s);
    if paths != [] then Some((s, paths[0]))
    else if s < |t| then RegexSearch(t, s + 1)
    else None
  }

  // --- What it finds in this pattern --------------------------------------------------------------------

  predicate Ends(c: char) {
    c == '&' || c == '\r' || c == '\n'
  }

  lemma FirstChoice(c: Choice, cs: seq<Choice>, t: string, i: nat)
    ensures AfterChoices([c] + cs, t, i) == AfterChoice(c, t, i) + AfterChoices(cs, t, i)
  {
    assert ([c] + cs)[1..] == cs;
  }

  lemma AfterTerminator(t: string, i: nat)
    ensures AfterChoices(TERMINATOR.choices, t, i) ==
            if i == |t| then [i] else if i < |t| && Ends(t[i]) then [i + 1] else []
  {
    FirstChoice(Chr('&'), [AtEnd, Chr('\r'), Chr('\n')], t, i);
    FirstChoice(AtEnd, [Chr('\r'), Chr('\n')], t, i);
    FirstChoice(Chr('\r'), [Chr('\n')], t, i);
    FirstChoice(Chr('\n'), [], t, i);
  }

  /** A lazy run stops as soon as the rest matches. */
  lemma LazyStep(x: set<char>, rest: seq<Piece>, t: string, i: nat)
    ensures var here, paths := Paths(rest, t, i), Paths([Lazy(x)] + rest, t, i);
            if here != [] then paths != [] && paths[0] == [i] + here[0]
            else paths == if i < |t| && t[i] !in x then Paths([Lazy(x)] + rest, t, i + 1) else []
  {
    assert ([Lazy(x)] + rest)[1..] == rest;
    var starts := After(Lazy(x), t, i);
    assert starts[0] == i && starts[1..] == if i < |t| && t[i] !in x then After(Lazy(x), t, i + 1) else [];
    assert ([Lazy(x)] + rest)[0] == Lazy(x);
    assert PathsFrom(rest, t, starts) == Behind(i, Paths(rest, t, i)) + PathsFrom(rest, t, starts[1..]);
  }

  lemma EitherStep(cs: seq<Choice>, rest: seq<Piece>, t: string, i: nat)
    requires |AfterChoices(cs, t, i)| <= 1
    ensures var ends, paths := AfterChoices(cs, t, i), Paths([Either(cs)] + rest, t, i);
            paths == if ends == [] then [] else Behind(ends[0], Paths(rest, t, ends[0]))
  {
    assert ([Either(cs)] + rest)[1..] == rest;
    var ends := AfterChoices(cs, t, i);
    if ends != [] {
      assert PathsFrom(rest, t, ends[1..]) == [];
    }
  }

  /** The value ends at the first character that may end it, or at the end of the text. */
  predicate ValueEnds(t: string, i: nat, d: nat, q: nat) {
    && i <= d <= |t| && (forall j :: i <= j < d ==> !Ends(t[j]))
    && if d == |t| then q == d else Ends(t[d]) && q == d + 1
  }

  lemma {:induction false} ValuePaths(t: string, i: nat) returns (d: nat, q: nat)
    requires i <= |t|
    ensures ValueEnds(t, i, d, q)
    ensures Paths([VALUE, TERMINATOR], t, i) != [] && Paths([VALUE, TERMINATOR], t, i)[0] == [d, q]
    decreases |t| - i
  {
    hide Paths, After;
    assert [VALUE, TERMINATOR] == [VALUE] + [TERMINATOR] && [TERMINATOR] == [TERMINATOR] + [];
    LazyStep({'\n', '\r'}, [TERMINATOR], t, i);
    AfterTerminator(t, i);
    EitherStep(TERMINATOR.choices, [], t, i);
    if i == |t| || Ends(t[i]) {
      d, q := i, if i == |t| then i else i + 1;
      NoPieces(t, q);
    } else {
      d, q := ValuePaths(t, i + 1);
    }
  }

  lemma NoPieces(t: string, i: nat)
    ensures Paths([], t, i) == [[]]
  {
  }

  /** The key ends at the first '=', and there is a match at i exactly if no '?' comes before it. */
  predicate KeyEnds(t: string, i: nat, e: nat) {
    i <= e < |t| && t[e] == '=' && forall j :: i <= j < e ==> t[j] != '=' && t[j] != '?'
  }

  lemma EqualsPaths(t: string, i: nat)
    requires i <= |t|
    ensures var paths := Paths([EQUALS, VALUE, TERMINATOR], t, i);
            if i < |t| && t[i] == '=' then
              var rest := Paths([VALUE, TERMINATOR], t, i + 1);
              rest != [] && paths != [] && paths[0] == [i + 1] + rest[0]
            else paths == []
  {
    hide Paths, After;
    assert [EQUALS, VALUE, TERMINATOR] == [EQUALS] + [VALUE, TERMINATOR];
    FirstChoice(Chr('='), [], t, i);
    EitherStep(EQUALS.choices, [VALUE, TERMINATOR], t, i);
    if i < |t| && t[i] == '=' {
      var d, q := ValuePaths(t, i + 1);
    }
  }

  lemma KeyStep(t: string, i: nat)
    ensures var here, paths := Paths([EQUALS, VALUE, TERMINATOR], t, i), Paths(ARG_PATTERN, t, i);
            if here != [] then paths != [] && paths[0] == [i] + here[0]
            else paths == if i < |t| && t[i] != '?' then Paths(ARG_PATTERN, t, i + 1) else []
  {
    assert ARG_PATTERN == [KEY] + [EQUALS, VALUE, TERMINATOR];
    LazyStep({'?'}, [EQUALS, VALUE, TERMINATOR], t, i);
  }

  lemma {:induction false} KeyPaths(t: string, i: nat) returns (e: nat, d: nat, q: nat)
    requires i <= |t|
    ensures Paths(ARG_PATTERN, t, i) == [] ==> forall e :: !KeyEnds(t, i, e)
    ensures Paths(ARG_PATTERN, t, i) != [] ==>
              KeyEnds(t, i, e) && ValueEnds(t, e + 1, d, q) && Paths(ARG_PATTERN, t, i)[0] == [e, e + 1, d, q]
    decreases |t| - i
  {
    hide Paths, ValueEnds, ARG_PATTERN, VALUE, TERMINATOR, EQUALS;
    e, d, q := i, 0, 0;
    EqualsPaths(t, i);
    KeyStep(t, i);
    if i < |t| && t[i] == '=' {
      d, q := ValuePaths(t, i + 1);
    } else if i < |t| && t[i] != '?' {
      e, d, q := KeyPaths(t, i + 1);
      assert forall e :: KeyEnds(t, i, e) ==> KeyEnds(t, i + 1, e);
    }
  }

  /** What one search finds: the first '=', the key before it back to the nearest '?', and the value
      up to the first '&', CR, LF or the end.  These conditions leave no choice. */
  ghost predicate Found(t: string, s: nat, p: nat, e: nat, d: nat, q: nat) {
    && s <= p <= e < |t| && t[e] == '='
    && (forall j :: s <= j < e ==> t[j] != '=')
    && (forall j :: p <= j < e ==> t[j] != '?')
    && (p == s || t[p - 1] == '?')
    && ValueEnds(t, e + 1, d, q)
  }

  /** Leftmost, lazy matching of the pattern is this scan. */
  lemma {:induction false} SearchIsScan(t: string, s: nat)
    requires s <= |t|
    ensures match RegexSearch(t, s)
            case None => forall j :: s <= j < |t| ==> t[j] != '='
            case Some((p, path)) => |path| == 4 && path[1] == path[0] + 1 && Found(t, s, p, path[0], path[2], path[3])
    decreases |t| - s
  {
    hide Paths, ValueEnds;
    var e, d, q := KeyPaths(t, s);
    if Paths(ARG_PATTERN, t, s) == [] && s < |t| {
      SearchIsScan(t, s + 1);
      assert !KeyEnds(t, s, s);
      match RegexSearch(t, s + 1) {
        case None =>
        case Some((p, path)) => assert !KeyEnds(t, s, path[0]);
      }
    }
  }

  lemma FoundIsUnique(t: string, s: nat, p: nat, e: nat, d: nat, q: nat, p': nat, e': nat, d': nat, q': nat)
    requires Found(t, s, p, e, d, q) && Found(t, s, p', e', d', q')
    ensures p == p' && e == e' && d == d' && q == q'
  {
  }

  // --- The arguments ---------------------------------------------------------------------------------------

  /** The matches of the loop, one after the other, from s on. */
  function ArgList(t: string, s: nat): seq<Field>
    requires s <= |t|
    decreases |t| - s
  {
    SearchIsScan(t, s);
    match RegexSearch(t, s)
    case None => []
    case Some((p, path)) => [Field(t[p..path[0]], t[path[1]..path[2]])] + ArgList(t, path[3])
  }

  lemma ArgListStep(t: string, s: nat)
    requires s <= |t|
    ensures match RegexSearch(t, s)
            case None => ArgList(t, s) == [] && forall j :: s <= j < |t| ==> t[j] != '='
            case Some((p, path)) =>
              && |path| == 4 && path[1] == path[0] + 1 && Found(t, s, p, path[0], path[2], path[3])
              && ArgList(t, s) == [Field(t[p..path[0]], t[path[1]..path[2]])] + ArgList(t, path[3])
  {
    SearchIsScan(t, s);
  }

  /** What assignments to a map leave. */
  function LastWins(fs: seq<Field>): map<string, string> {
    if fs == [] then map[] else LastWins(fs[..|fs| - 1])[fs[|fs| - 1].key := fs[|fs| - 1].value]
  }

  /** The code: search, assign, go on behind the match. */
  method ParseArgs(t: string) returns (res: map<string, string>)
    ensures res == LastWins(ArgList(t, 0))
  {
    hide RegexSearch, ArgList;
    res := map[];
    var search := 0;
    var m := RegexSearch(t, search);
    ghost var done := [];
    while m != None
      invariant search <= |t| && m == RegexSearch(t, search)
      invariant res == LastWins(done) && done + ArgList(t, search) == ArgList(t, 0)
      decreases |t| - search
    {
      ArgListStep(t, search);
      var (p, path) := m.value;
      var f := Field(t[p..path[0]], t[path[1]..path[2]]);
      assert (done + [f])[..|done|] == done;
      assert done + ([f] + ArgList(t, path[3])) == done + [f] + ArgList(t, path[3]);
      done := done + [f];
      res := res[f.key := f.value];
      search := path[3];
      m := RegexSearch(t, search);
    }
    ArgListStep(t, search);
    assert done + [] == done;
  }

  /** The map holds, for each key, the value of its last argument. */
  lemma {:induction false} LastWinsIsLast(fs: seq<Field>, key: string)
    ensures key in LastWins(fs) <==> exists i :: 0 <= i < |fs| && fs[i].key == key
    ensures forall i :: 0 <= i < |fs| && fs[i].key == key && (forall j :: i < j < |fs| ==> fs[j].key != key) ==>
              key in LastWins(fs) && LastWins(fs)[key] == fs[i].value
  {
    if fs != [] {
      LastWinsIsLast(fs[..|fs| - 1], key);
    }
  }

  // --- Round trip -------------------------------------------------------------------------------------------

  function Render(fs: seq<Field>): string {
    if fs == [] then ""
    else
      var tail := if |fs| == 1 then "" else "&" + Render(fs[1..]);
      fs[0].key + ("=" + (fs[0].value + tail))
  }

  predicate ArgOk(f: Field) {
    && (forall i :: 0 <= i < |f.key| ==> f.key[i] != '=' && f.key[i] != '?')
    && (forall i :: 0 <= i < |f.value| ==> !Ends(f.value[i]))
  }

  predicate ArgsOk(fs: seq<Field>) {
    forall i :: 0 <= i < |fs| ==> ArgOk(fs[i])
  }

  lemma {:induction false} ArgListOk(t: string, s: nat)
    requires s <= |t|
    ensures ArgsOk(ArgList(t, s))
    decreases |t| - s
  {
    SearchIsScan(t, s);
    match RegexSearch(t, s) {
      case None =>
      case Some((p, path)) => ArgListOk(t, path[3]);
    }
  }

  lemma {:induction false} ArgListOfRender(t: string, s: nat, path: string, fs: seq<Field>)
    requires s <= |t| && t[s..] == path + Render(fs) && ArgsOk(fs)
    requires '=' !in path && (path == "" || path[|path| - 1] == '?')
    ensures ArgList(t, s) == fs
    decreases |fs|
  {
    hide *;
    RenderStep(fs);
    if fs == [] {
      ArgListStep(t, s);
      assert forall j :: s <= j < |t| ==> t[j] == t[s..][j - s];
    } else {
      var tail := if |fs| == 1 then "" else "&" + Render(fs[1..]);
      var q := FirstArg(t, s, path, fs[0], tail);
      assert t[q..] == "" + Render(fs[1..]);
      ArgListOfRender(t, q, "", fs[1..]);
    }
  }

  lemma FirstArg(t: string, s: nat, path: string, f: Field, tail: string) returns (q: nat)
    requires s <= |t| && t[s..] == path + (f.key + ("=" + (f.value + tail))) && ArgOk(f)
    requires '=' !in path && (path == "" || path[|path| - 1] == '?') && (tail == "" || tail[0] == '&')
    ensures q <= |t| && ArgList(t, s) == [f] + ArgList(t, q)
    ensures t[q..] == if tail == "" then "" else tail[1..]
  {
    hide *;
    ArgListStep(t, s);
    FieldAt(t, s, path, f, tail);
    FieldFound(t, s, path, f, tail);
    var p := s + |path|;
    var e := p + |f.key|;
    var d := e + 1 + |f.value|;
    q := if d == |t| then d else d + 1;
    var m := RegexSearch(t, s).value;
    FoundIsUnique(t, s, p, e, d, q, m.0, m.1[0], m.1[2], m.1[3]);
    if tail != "" {
      assert tail == [tail[0]] + tail[1..];
      Parts(t, d, [tail[0]], tail[1..]);
    }
  }

  lemma RenderStep(fs: seq<Field>)
    requires ArgsOk(fs)
    ensures fs == [] ==> Render(fs) == ""
    ensures fs != [] ==>
              var tail := if |fs| == 1 then "" else "&" + Render(fs[1..]);
              && Render(fs) == fs[0].key + ("=" + (fs[0].value + tail)) && ArgOk(fs[0]) && ArgsOk(fs[1..])
              && (|fs| == 1 ==> Render(fs[1..]) == "")
  {
  }

  lemma FieldAt(t: string, s: nat, path: string, f: Field, tail: string)
    requires s <= |t| && t[s..] == path + (f.key + ("=" + (f.value + tail)))
    ensures var p := s + |path|; var e := p + |f.key|; var d := e + 1 + |f.value|;
            && d <= |t| && t[s..p] == path && t[p..e] == f.key && t[e] == '='
            && t[e + 1..d] == f.value && t[d..] == tail
  {
    var p := s + |path|;
    var e := p + |f.key|;
    Parts(t, s, path, f.key + ("=" + (f.value + tail)));
    Parts(t, p, f.key, "=" + (f.value + tail));
    Parts(t, e, "=", f.value + tail);
    Parts(t, e + 1, f.value, tail);
    assert t[e] == t[e..e + 1][0];
  }

  lemma Parts(t: string, i: nat, a: string, b: string)
    requires i <= |t| && t[i..] == a + b
    ensures i + |a| <= |t| && t[i..i + |a|] == a && t[i + |a|..] == b
  {
    assert t[i..][..|a|] == a && t[i..][|a|..] == b;
  }

  lemma FieldFound(t: string, s: nat, path: string, f: Field, tail: string)
    requires s <= |t| && t[s..] == path + (f.key + ("=" + (f.value + tail))) && ArgOk(f)
    requires '=' !in path && (path == "" || path[|path| - 1] == '?') && (tail == "" || tail[0] == '&')
    ensures var p := s + |path|; var e := p + |f.key|; var d := e + 1 + |f.value|;
            Found(t, s, p, e, d, if d == |t| then d else d + 1)
  {
    FieldAt(t, s, path, f, tail);
    var p := s + |path|;
    var e := p + |f.key|;
    var d := e + 1 + |f.value|;
    forall j | s <= j < p ensures t[j] != '=' {
      assert t[j] == t[s..p][j - s];
    }
    forall j | p <= j < e ensures t[j] != '=' && t[j] != '?' {
      assert t[j] == t[p..e][j - p];
    }
    forall j | e + 1 <= j < d ensures !Ends(t[j]) {
      assert t[j] == t[e + 1..d][j - (e + 1)];
    }
    assert path != "" ==> t[p - 1] == t[s..p][|path| - 1];
    assert d < |t| ==> t[d] == t[d..][0];
  }

  /** Writing arguments behind a path without '=' and reading them back: no decoding, so it works
      exactly for keys free of '=' and '?' and values free of '&', CR and LF. */
  lemma ArgsRoundTrip(path: string, fs: seq<Field>)
    requires '=' !in path
    ensures ArgList(path + "?" + Render(fs), 0) == fs <==>
              forall f :: f in fs ==>
                            && '=' !in f.key && '?' !in f.key
                            && '&' !in f.value && '\r' !in f.value && '\n' !in f.value
  {
    var t := path + "?" + Render(fs);
    ArgListOk(t, 0);
    forall f | f in fs
      ensures ArgOk(f) <==> '=' !in f.key && '?' !in f.key && '&' !in f.value && '\r' !in f.value && '\n' !in f.value
    {
    }
    if ArgsOk(fs) {
      assert t[0..] == (path + "?") + Render(fs);
      ArgListOfRender(t, 0, path + "?", fs);
    }
  }
}
