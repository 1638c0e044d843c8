/** NUL-terminated text in a buffer, and utility::incrementParse (src/utilities.cpp:8-33). */
module CString {

  const NUL := '\0'

  // --- Text up to a NUL ------------------------------------------------------------------------------

  /** t is the C string at offset i of b: the characters up to the first NUL. */
  ghost predicate IsCStr(b: seq<char>, i: nat, t: string) {
    && i + |t| < |b| && b[i + |t|] == NUL
    && forall j :: i <= j < i + |t| ==> b[j] == t[j - i] != NUL
  }

  /** A NUL written past a C string, or before it, leaves it as it is. */
  lemma CStrKept(b: seq<char>, i: nat, t: string, x: nat)
    requires IsCStr(b, i, t) && x < |b| && (x < i || i + |t| < x)
    ensures IsCStr(b[x := NUL], i, t)
  {
    var b' := b[x := NUL];
    assert b'[i + |t|] == NUL;
    forall j | i <= j < i + |t| ensures b'[j] == t[j - i] != NUL {
      assert b[j] == t[j - i] != NUL && b'[j] == b[j];
    }
    assert |b'| == |b|;
    assert IsCStr(b', i, t);
  }

  /** strlen: the method std::string and std::string_view use to find the end. */
  method StrLen(buf: array<char>, str: nat, ghost text: string) returns (n: nat)
    requires IsCStr(buf[..], str, text)
    ensures n == |text|
  {
    n := 0;
    while buf[str + n] != NUL
      invariant n <= |text|
      decreases |text| - n
    {
      n := n + 1;
    }
  }

  // --- Searching ---------------------------------------------------------------------------------------

  /** sep occurs in text at m. */
  predicate Match(text: string, sep: string, m: nat) {
    m + |sep| <= |text| && text[m..m + |sep|] == sep
  }

  /** r is the first occurrence of sep in text, or -1 if there is none. */
  ghost predicate IsFirst(text: string, sep: string, r: int) {
    if r < 0 then r == -1 && forall m: nat :: !Match(text, sep, m)
    else Match(text, sep, r) && forall m: nat :: m < r ==> !Match(text, sep, m)
  }

  lemma FirstIsUnique(text: string, sep: string, r: int, r': int)
    requires IsFirst(text, sep, r) && IsFirst(text, sep, r')
    ensures r == r'
  {
  }

  // --- The automaton inside incrementParse ----------------------------------------------------------------

  /** `sep_i - sep` after reading x: go on, start again with x, or start from nothing. */
  function Next(sep: string, k: nat, x: char): nat {
    if k < |sep| && x == sep[k] then k + 1
    else if sep != "" && x == sep[0] then 1
    else 0
  }

  /** The same after reading the first n characters. */
  function StateAfter(text: string, sep: string, n: nat): nat
    requires n <= |text|
  {
    if n == 0 then 0 else Next(sep, StateAfter(text, sep, n - 1), text[n - 1])
  }

  /** Read on from position n until the whole separator has been seen. */
  function ParseFrom(text: string, sep: string, n: nat): int
    requires n <= |text|
    decreases |text| - n
  {
    if n == |text| then -1
    else if StateAfter(text, sep, n + 1) == |sep| then n + 1 - |sep|
    else ParseFrom(text, sep, n + 1)
  }

  /** What incrementParse returns.  An empty separator is found at 0 in any text but the empty one. */
  function Parse(text: string, sep: string): int {
    if sep == "" then (if text == "" then -1 else 0) else ParseFrom(text, sep, 0)
  }

  /** The code, on the C string `text` at offset str; *sep_i past the end of sep is its NUL. */
  method IncrementParse(buf: array<char>, str: nat, ghost text: string, sep: string) returns (r: int)
    requires IsCStr(buf[..], str, text) && NUL !in sep
    ensures r == Parse(text, sep)
  {
    var i, sepI, start, curr := str, 0, 0, 0;
    while buf[i] != NUL
      invariant i == str + curr && curr <= |text|
      invariant sepI == StateAfter(text, sep, curr)
      invariant sep != "" ==> sepI < |sep| && sepI <= curr && (sepI > 0 ==> start == curr - sepI)
      invariant sep == "" ==> sepI == 0 && start == 0 && curr == 0
      invariant sep != "" ==> Parse(text, sep) == ParseFrom(text, sep, curr)
      decreases |text| - curr
    {
      assert buf[i] == text[curr];
      if sepI < |sep| && buf[i] == sep[sepI] {
        if sepI == 0 {
          start := curr;
        }
        sepI := sepI + 1;
      } else if sep != "" && buf[i] == sep[0] {
        sepI := 1;
        start := curr;
      } else {
        sepI := 0;
      }
      assert sepI == StateAfter(text, sep, curr + 1);
      if sepI == |sep| {
        return start;
      }
      i, curr := i + 1, curr + 1;
    }
    return -1;
  }

  // --- When that is substring search -----------------------------------------------------------------------

  /** The prefix of sep of length k ends with its own prefix of length b. */
  predicate Border(sep: string, k: nat, b: nat) {
    1 <= b < k < |sep| && sep[..b] == sep[k - b..k]
  }

  /** Wherever one prefix ends with another, both go on alike.  A caller can test this on the
      separator alone. */
  ghost predicate Restartable(sep: string) {
    forall k: nat, b: nat :: Border(sep, k, b) ==> sep[b] == sep[k]
  }

  /** The automaton's state is a true partial match. */
  lemma {:induction false} StateIsPartialMatch(text: string, sep: string, n: nat)
    requires n <= |text|
    ensures StateAfter(text, sep, n) <= n && StateAfter(text, sep, n) <= |sep|
    ensures text[n - StateAfter(text, sep, n)..n] == sep[..StateAfter(text, sep, n)]
  {
    if n > 0 {
      StateIsPartialMatch(text, sep, n - 1);
      var k, x := StateAfter(text, sep, n - 1), text[n - 1];
      assert StateAfter(text, sep, n) == Next(sep, k, x);
      hide StateAfter;
      if k < |sep| && x == sep[k] {
        OneMoreMatches(text, sep, n, k);
      } else if sep != "" && x == sep[0] {
        assert text[n - 1..n] == [x] == sep[..1];
      }
    }
  }

  lemma OneMoreMatches(text: string, sep: string, n: nat, k: nat)
    requires k < n <= |text| && k < |sep| && text[n - 1 - k..n - 1] == sep[..k] && text[n - 1] == sep[k]
    ensures text[n - (k + 1)..n] == sep[..k + 1]
  {
    assert text[n - (k + 1)..n] == text[n - 1 - k..n - 1] + [text[n - 1]];
    assert sep[..k + 1] == sep[..k] + [sep[k]];
  }

  /** Any index incrementParse returns, for any non-empty separator, is a true match. */
  lemma {:induction false} AnswerIsMatch(text: string, sep: string, n: nat)
    requires sep != "" && n <= |text| && ParseFrom(text, sep, n) != -1
    ensures ParseFrom(text, sep, n) >= 0 && Match(text, sep, ParseFrom(text, sep, n))
    decreases |text| - n
  {
    StateIsPartialMatch(text, sep, n + 1);
    if StateAfter(text, sep, n + 1) != |sep| {
      AnswerIsMatch(text, sep, n + 1);
    }
  }

  /** No match starts before the automaton's partial match, if sep is restartable. */
  lemma {:induction false} NothingSkipped(text: string, sep: string, n: nat, m: nat)
    requires sep != "" && Restartable(sep) && n <= |text|
    requires forall j :: 0 < j <= n ==> StateAfter(text, sep, j) < |sep|
    requires m < n - StateAfter(text, sep, n)
    ensures !Match(text, sep, m)
  {
    hide Match, Restartable;
    var k := StateAfter(text, sep, n - 1);
    StateIsPartialMatch(text, sep, n - 1);
    if m < n - 1 - k {
      NothingSkipped(text, sep, n - 1, m);
    } else {
      NextSkipsNothing(text, sep, n, k, m);
    }
  }

  /** Nor does one step of the automaton, from a partial match of length k, skip one. */
  lemma NextSkipsNothing(text: string, sep: string, n: nat, k: nat, m: nat)
    requires 0 < n <= |text| && k < |sep| && k < n && text[n - 1 - k..n - 1] == sep[..k] && Restartable(sep)
    requires n - 1 - k <= m < n - Next(sep, k, text[n - 1])
    ensures !Match(text, sep, m)
  {
    hide Match, Border;
    var b := n - 1 - m;
    BorderOfMatch(text, sep, n - 1, k, m);
    if 1 <= b < k && sep[..b] == sep[k - b..k] {
      IsBorder(sep, k, b);
    }
  }

  lemma IsBorder(sep: string, k: nat, b: nat)
    requires 1 <= b < k < |sep| && sep[..b] == sep[k - b..k]
    ensures Border(sep, k, b)
  {
  }

  /** Where a match at m runs into a partial match of length k that ends at n. */
  lemma BorderOfMatch(text: string, sep: string, n: nat, k: nat, m: nat)
    requires n < |text| && k <= n && k <= |sep| && text[n - k..n] == sep[..k]
    requires n - k <= m <= n
    ensures Match(text, sep, m) && n - m < |sep| ==>
              && text[n] == sep[n - m]
              && sep[..n - m] == sep[k - (n - m)..k]
  {
    var b := n - m;
    assert text[m..n] == sep[k - b..k] by {
      assert text[m..n] == text[n - k..n][k - b..];
      assert sep[k - b..k] == sep[..k][k - b..];
    }
    if Match(text, sep, m) && b < |sep| {
      assert text[m..m + |sep|][b] == text[n];
      assert text[m..m + |sep|][..b] == text[m..n];
    }
  }

  /** For a restartable separator incrementParse is substring search, on every text. */
  lemma {:induction false} RestartableFindsFirst(text: string, sep: string, n: nat)
    requires sep != "" && Restartable(sep) && n <= |text|
    requires forall j :: 0 < j <= n ==> StateAfter(text, sep, j) < |sep|
    ensures IsFirst(text, sep, ParseFrom(text, sep, n))
    decreases |text| - n
  {
    StateIsPartialMatch(text, sep, n);
    if n == |text| {
      forall m: nat ensures !Match(text, sep, m) {
        if m < n - StateAfter(text, sep, n) {
          NothingSkipped(text, sep, n, m);
        }
      }
    } else {
      StateIsPartialMatch(text, sep, n + 1);
      if StateAfter(text, sep, n + 1) == |sep| {
        var r := n + 1 - |sep|;
        AnswerIsMatch(text, sep, n);
        forall m: nat | m < r ensures !Match(text, sep, m) {
          NothingSkipped(text, sep, n, m);
        }
      } else {
        RestartableFindsFirst(text, sep, n + 1);
      }
    }
  }

  /** Reading a proper prefix of the separator, the automaton follows it. */
  lemma {:induction false} FollowsPrefix(text: string, sep: string, n: nat)
    requires n <= |sep| && n <= |text| && text[..n] == sep[..n]
    ensures StateAfter(text, sep, n) == n
  {
    if n > 0 {
      assert text[..n - 1] == sep[..n - 1] by {
        assert text[..n][..n - 1] == sep[..n][..n - 1];
      }
      assert text[n - 1] == text[..n][n - 1] == sep[n - 1];
      FollowsPrefix(text, sep, n - 1);
    }
  }

  /** The state grows by at most one per character. */
  lemma {:induction false} SlowGrowth(text: string, sep: string, j: nat, n: nat)
    requires j <= n <= |text|
    ensures StateAfter(text, sep, n) <= StateAfter(text, sep, j) + (n - j)
    decreases n - j
  {
    if j < n {
      SlowGrowth(text, sep, j, n - 1);
    }
  }

  lemma {:induction false} NeverComplete(text: string, sep: string, n: nat)
    requires sep != "" && n <= |text|
    requires forall j :: n < j <= |text| ==> StateAfter(text, sep, j) < |sep|
    ensures ParseFrom(text, sep, n) == -1
    decreases |text| - n
  {
    if n < |text| {
      NeverComplete(text, sep, n + 1);
    }
  }

  /** For any other separator there is a text that contains it and that incrementParse says does
      not: the prefix of length k, then the rest of the separator after its prefix of length b. */
  lemma MissedText(sep: string, k: nat, b: nat) returns (text: string)
    requires Border(sep, k, b) && sep[b] != sep[k]
    ensures Match(text, sep, k - b)
    ensures Parse(text, sep) == -1
  {
    hide Match, StateAfter;
    text := sep[..k] + sep[b..];
    MissedIsMatch(sep, k, b);
    forall j: nat | 0 < j <= |text| ensures StateAfter(text, sep, j) < |sep| {
      MissedStates(text, sep, k, b, j);
    }
    NeverComplete(text, sep, 0);
  }

  lemma MissedStates(text: string, sep: string, k: nat, b: nat, j: nat)
    requires Border(sep, k, b) && sep[b] != sep[k] && text == sep[..k] + sep[b..] && 0 < j <= |text|
    ensures StateAfter(text, sep, j) < |sep|
  {
    if j <= k {
      assert text[..j] == sep[..j];
      FollowsPrefix(text, sep, j);
    } else {
      assert text[..k] == sep[..k] && text[k] == sep[b];
      FollowsPrefix(text, sep, k);
      SlowGrowth(text, sep, k + 1, j);
    }
  }

  lemma MissedIsMatch(sep: string, k: nat, b: nat)
    requires Border(sep, k, b)
    ensures Match(sep[..k] + sep[b..], sep, k - b)
  {
    var text := sep[..k] + sep[b..];
    forall i | 0 <= i < |sep| ensures text[k - b + i] == sep[i] {
      assert i < b ==> sep[k - b..k][i] == sep[..b][i];
    }
    assert text[k - b..k - b + |sep|] == sep;
  }

  /** The documented promise, "find the first match", holds on all texts exactly for the
      restartable separators. */
  lemma FindsFirstIffRestartable(sep: string)
    requires sep != ""
    ensures (forall text :: IsFirst(text, sep, Parse(text, sep))) <==> Restartable(sep)
  {
    if Restartable(sep) {
      forall text ensures IsFirst(text, sep, Parse(text, sep)) {
        RestartableFindsFirst(text, sep, 0);
      }
    } else {
      var k: nat, b: nat :| Border(sep, k, b) && sep[b] != sep[k];
      var text := MissedText(sep, k, b);
      assert !IsFirst(text, sep, Parse(text, sep));
    }
  }

  /** The empty separator is at 0 in every text, the empty one included; incrementParse misses it there. */
  lemma EmptySeparator(text: string)
    ensures IsFirst(text, "", Parse(text, "")) <==> text != ""
    ensures text == "" ==> Parse(text, "") == -1
  {
    assert Match(text, "", 0);
  }

  /** "aab" is not restartable: incrementParse does not find it in "aaab". */
  lemma DocumentedPromiseFails()
    ensures !Restartable("aab") && Match("aaab", "aab", 1) && Parse("aaab", "aab") == -1
  {
    var sep, text := "aab", "aaab";
    assert Border(sep, 2, 1) && sep[1] != sep[2];
    assert text[1..4] == sep;
    assert StateAfter(text, sep, 1) == 1;
    assert StateAfter(text, sep, 2) == 2;
    assert StateAfter(text, sep, 3) == 1;
    assert StateAfter(text, sep, 4) == 0;
    NeverComplete(text, sep, 0);
  }

  /** The separators of this program: the first character does not recur. */
  lemma FreshFirstCharacter(sep: string)
    requires sep != "" && sep[0] !in sep[1..]
    ensures Restartable(sep)
  {
    forall k: nat, b: nat ensures !Border(sep, k, b) {
      if 1 <= b < k < |sep| {
        assert sep[..b][0] == sep[0] && sep[k - b..k][0] == sep[1..][k - b - 1];
      }
    }
  }
}
