/**
 MqttDsn::from. The source matches a regular expression; its alternatives are tried here in the
 order a backtracking matcher tries them, and everything from the host on can match in one way only.
 */
module Dsns {
  import opened Wrappers

  datatype Dsn = Dsn(
    secure: bool, username: Option<string>, password: Option<string>, host: string,
    port: Option<int>, cacert: Option<string>, verify: Option<bool>)

  /** `OutOfRange` stands for the exception of a port that does not fit an int. */
  datatype Parsed = NoMatch | OutOfRange | Found(dsn: Dsn)

  /** The capture groups of the expression. */
  datatype Parts = Parts(secure: bool, user: string, pass: string, host: string, port: string, query: string)

  /** The groups from the host on. */
  datatype Tail = Tail(host: string, port: string, query: string)

  const INT_MAX: int := 0x7FFF_FFFF

  // ----- character classes

  predicate IsDigit(c: char) { '0' <= c <= '9' }
  predicate IsWord(c: char) { IsDigit(c) || 'a' <= c <= 'z' || 'A' <= c <= 'Z' || c == '_' }
  predicate IsHostChar(c: char) { c != ':' && c != '/' && c != '?' }
  predicate IsDot(c: char) { c != '\n' && c != '\r' }
  predicate IsQueryChar(c: char) { c != '#' }
  predicate IsValueChar(c: char) { c != '&' }

  predicate All(p: char -> bool, s: string) { forall i | 0 <= i < |s| :: p(s[i]) }

  /** The length of the longest prefix whose characters satisfy `p`. */
  function Span(p: char -> bool, s: string): (n: nat)
    ensures n <= |s| && All(p, s[..n])
    ensures n < |s| ==> !p(s[n])
  {
    if s == "" || !p(s[0]) then 0
    else
      var n := 1 + Span(p, s[1..]);
      assert forall i | 1 <= i < n :: s[i] == s[1..][i - 1] && s[1..][..n - 1][i - 1] == s[i];
      n
  }

  lemma {:induction false} SpanOf(p: char -> bool, a: string, b: string)
    requires All(p, a) && (b == "" || !p(b[0]))
    ensures Span(p, a + b) == |a|
  {
    if a == "" {
      assert a + b == b;
    } else {
      assert (a + b)[1..] == a[1..] + b;
      assert forall i | 0 <= i < |a[1..]| :: a[1..][i] == a[i + 1];
      SpanOf(p, a[1..], b);
    }
  }

  // ----- numbers

  function DigitValue(c: char): int
    requires IsDigit(c)
  {
    c as int - '0' as int
  }

  /** std::stoi on a run of digits. */
  function Number(s: string): (n: nat)
    requires All(IsDigit, s)
  {
    if s == "" then 0
    else
      assert forall i | 0 <= i < |s| - 1 :: s[..|s| - 1][i] == s[i];
      10 * Number(s[..|s| - 1]) + DigitValue(s[|s| - 1])
  }

  lemma NumberMeans(s: string, c: char)
    requires All(IsDigit, s) && IsDigit(c)
    ensures Number("") == 0 && Number(s + [c]) == 10 * Number(s) + (c as int - 48)
  {
    assert (s + [c])[..|s|] == s;
  }

  function Decimal(n: nat): (s: string)
    ensures |s| > 0 && All(IsDigit, s) && Number(s) == n
  {
    var d := ['0' + (n % 10) as char];
    assert DigitValue(d[0]) == n % 10;
    if n < 10 then
      assert d[..0] == "";
      d
    else
      var s := Decimal(n / 10) + d;
      assert s[..|s| - 1] == Decimal(n / 10);
      s
  }

  // ----- from the host on

  /** host, then perhaps a port, then perhaps a query, then the end. */
  function ParseTail(s: string): Option<Tail> {
    var h := Span(IsHostChar, s);
    if h == 0 then None else ParseAfterHost(s[..h], s[h..])
  }

  function ParseQueryPart(host: string, port: string, s: string): Option<Tail> {
    if s == "" then Some(Tail(host, port, ""))
    else if s[0] == '?' && |s| > 1 && All(IsQueryChar, s[1..]) then Some(Tail(host, port, s[1..]))
    else None
  }

  function PrintTail(host: string, port: string, query: string): string {
    host + PrintAfterHost(port, query)
  }

  predicate TailParts(host: string, port: string, query: string) {
    host != "" && All(IsHostChar, host) && All(IsDigit, port) && All(IsQueryChar, query)
  }

  lemma CutAt(a: string, b: string)
    ensures (a + b)[..|a|] == a && (a + b)[|a|..] == b
  {
  }

  /** What follows the host. */
  function ParseAfterHost(host: string, rest: string): Option<Tail> {
    if rest != "" && rest[0] == ':' then
      var d := Span(IsDigit, rest[1..]);
      if d == 0 then None
      else ParseQueryPart(host, rest[1..][..d], rest[1..][d..])
    else ParseQueryPart(host, "", rest)
  }

  function PrintQuery(query: string): string {
    if query == "" then "" else "?" + query
  }

  function PrintAfterHost(port: string, query: string): string {
    (if port == "" then "" else ":" + port) + PrintQuery(query)
  }

  lemma {:induction false} AfterHostPrinted(host: string, port: string, query: string)
    requires All(IsDigit, port) && All(IsQueryChar, query)
    ensures ParseAfterHost(host, PrintAfterHost(port, query)) == Some(Tail(host, port, query))
    ensures var s := PrintAfterHost(port, query); s == "" || !IsHostChar(s[0])
  {
    var q := PrintQuery(query);
    QueryPrinted(host, port, query);
    if port != "" {
      assert (":" + port + q)[1..] == port + q;
      SpanOf(IsDigit, port, q);
      CutAt(port, q);
    } else {
      assert "" + q == q;
    }
  }

  lemma {:induction false} TailPrinted(host: string, port: string, query: string)
    requires TailParts(host, port, query)
    ensures ParseTail(PrintTail(host, port, query)) == Some(Tail(host, port, query))
  {
    AfterHostPrinted(host, port, query);
    SpanOf(IsHostChar, host, PrintAfterHost(port, query));
    CutAt(host, PrintAfterHost(port, query));
  }

  lemma {:induction false} QueryPrinted(host: string, port: string, query: string)
    requires All(IsQueryChar, query)
    ensures ParseQueryPart(host, port, PrintQuery(query)) == Some(Tail(host, port, query))
  {
    if query != "" {
      assert ("?" + query)[1..] == query;
    }
  }

  lemma {:induction false} QueryMatched(host: string, port: string, s: string, t: Tail)
    requires ParseQueryPart(host, port, s) == Some(t)
    ensures t.host == host && t.port == port && All(IsQueryChar, t.query) && PrintQuery(t.query) == s
  {
    if s != "" {
      assert s == "?" + s[1..];
    }
  }

  lemma {:induction false} AfterHostMatched(host: string, rest: string, t: Tail)
    requires ParseAfterHost(host, rest) == Some(t)
    ensures t.host == host && All(IsDigit, t.port) && All(IsQueryChar, t.query)
    ensures PrintAfterHost(t.port, t.query) == rest
  {
    if rest != "" && rest[0] == ':' {
      var d := Span(IsDigit, rest[1..]);
      var port, tail := rest[1..][..d], rest[1..][d..];
      QueryMatched(host, port, tail, t);
      assert rest == ":" + port + tail;
    } else {
      QueryMatched(host, "", rest, t);
      assert "" + rest == rest;
    }
  }

  lemma Uncut(s: string, n: nat)
    requires n <= |s|
    ensures s[..n] + s[n..] == s
  {
  }

  /** Whatever the tail matches, it is made of exactly these parts. */
  lemma {:induction false} TailMatched(s: string, t: Tail)
    requires ParseTail(s) == Some(t)
    ensures TailParts(t.host, t.port, t.query) && PrintTail(t.host, t.port, t.query) == s
  {
    var h := Span(IsHostChar, s);
    AfterHostMatched(s[..h], s[h..], t);
    Uncut(s, h);
  }

  // ----- user and password: the shortest that let the rest match

  /** The password ends before some '@' at `j` or later. */
  function FindPass(s: string, from: nat, j: nat): (r: Option<nat>)
    requires from <= j <= |s|
    ensures r.Some? ==> j <= r.value < |s| && PassEndsAt(s, from, r.value)
    decreases |s| - j
  {
    if j == |s| then None
    else if PassEndsAt(s, from, j) then Some(j)
    else if !IsDot(s[j]) then None
    else FindPass(s, from, j + 1)
  }

  /** A password from `from` to `j`, an '@', and a tail that matches. */
  predicate PassEndsAt(s: string, from: nat, j: nat)
    requires from <= j < |s|
  {
    j > from && s[j] == '@' && ParseTail(s[j + 1..]).Some?
  }

  /** The first user that works, and its first password. */
  function FindUser(s: string, i: nat): (r: Option<(nat, nat)>)
    requires i <= |s|
    ensures r.Some? ==> i <= r.value.0 < r.value.1 < |s|
    ensures r.Some? ==> s[r.value.0] == ':' && PassEndsAt(s, r.value.0 + 1, r.value.1)
    decreases |s| - i
  {
    if i == |s| then None
    else if i > 0 && s[i] == ':' && FindPass(s, i + 1, i + 1).Some? then
      Some((i, FindPass(s, i + 1, i + 1).value))
    else if !IsDot(s[i]) then None
    else FindUser(s, i + 1)
  }

  /** What follows the scheme: with user and password if that can match, without if not. */
  function ParseRest(secure: bool, s: string): Option<Parts> {
    match FindUser(s, 0)
    case Some((i, j)) =>
      var t := ParseTail(s[j + 1..]).value;
      Some(Parts(secure, s[..i], s[i + 1..j], t.host, t.port, t.query))
    case None =>
      match ParseTail(s)
      case None => None
      case Some(t) => Some(Parts(secure, "", "", t.host, t.port, t.query))
  }

  const SECURE: string := "mqtts://"
  const PLAIN: string := "mqtt://"

  function Match(s: string): Option<Parts> {
    if SECURE <= s then ParseRest(true, s[|SECURE|..])
    else if PLAIN <= s then ParseRest(false, s[|PLAIN|..])
    else None
  }

  // ----- the query

  /** The next `key=value` from `start` on: the leftmost, with the longest key and value. */
  function NextPair(q: string, start: nat): (r: Option<(nat, nat, nat)>)
    requires start <= |q|
    ensures r.Some? ==> start <= r.value.0 < r.value.1 < r.value.2 - 1 < |q|
    decreases |q| - start
  {
    if start == |q| then None
    else
      var k := Span(IsWord, q[start..]);
      var eq := start + k;
      if k > 0 && eq < |q| && q[eq] == '=' && Span(IsValueChar, q[eq + 1..]) > 0 then
        Some((start, eq, eq + 1 + Span(IsValueChar, q[eq + 1..])))
      else NextPair(q, start + 1)
  }

  /** A key of letters, digits and underscores, an equals sign, and a value without an ampersand. */
  predicate PairAt(q: string, a: nat, eq: nat, end: nat) {
    && a < eq < end - 1 && end <= |q| && q[eq] == '='
    && (forall i | a <= i < eq :: '0' <= q[i] <= '9' || 'a' <= q[i] <= 'z' || 'A' <= q[i] <= 'Z' || q[i] == '_')
    && (forall i | eq < i < end :: q[i] != '&')
  }

  lemma {:induction false} PairHere(q: string, a: nat, eq: nat, end: nat)
    requires PairAt(q, a, eq, end)
    ensures NextPair(q, a).Some?
    ensures var (b, e, c) := NextPair(q, a).value; b == a && e == eq && end <= c
  {
    PairFits(q, a, eq, end);
    SpanAtLeast(IsValueChar, q[eq + 1..], end - eq - 1);
  }

  lemma {:induction false} SpanAtLeast(p: char -> bool, s: string, n: nat)
    requires n <= |s| && forall i | 0 <= i < n :: p(s[i])
    ensures Span(p, s) >= n
  {
    if n == 0 {
    } else {
      SpanAtLeast(p, s[1..], n - 1);
    }
  }

  /** The test that the search makes at each place. */
  predicate Begins(q: string, start: nat)
    requires start < |q|
  {
    var k := Span(IsWord, q[start..]);
    k > 0 && start + k < |q| && q[start + k] == '=' && Span(IsValueChar, q[start + k + 1..]) > 0
  }

  lemma SearchStep(q: string, start: nat)
    requires start < |q|
    ensures if Begins(q, start) then NextPair(q, start).Some? && NextPair(q, start).value.0 == start
            else NextPair(q, start) == NextPair(q, start + 1)
  {
  }

  lemma {:induction false} PairBegins(q: string, start: nat)
    requires start < |q| && Begins(q, start)
    ensures NextPair(q, start).Some? && PairAt(q, start, NextPair(q, start).value.1, NextPair(q, start).value.2)
  {
    RunOf(IsWord, q, start);
    RunOf(IsValueChar, q, start + Span(IsWord, q[start..]) + 1);
    hide Span;
  }

  lemma {:induction false} NoPairBegins(q: string, start: nat)
    requires start < |q| && !Begins(q, start)
    ensures forall x: nat, y: nat :: !PairAt(q, start, x, y)
  {
    forall x: nat, y: nat ensures !PairAt(q, start, x, y) {
      if PairAt(q, start, x, y) {
        PairFits(q, start, x, y);
      }
    }
  }

  lemma {:induction false} RunOf(p: char -> bool, q: string, a: nat)
    requires a <= |q|
    ensures a + Span(p, q[a..]) <= |q| && forall i | a <= i < a + Span(p, q[a..]) :: p(q[i])
  {
    var s := q[a..];
    var run := s[..Span(p, s)];
    forall i | a <= i < a + |run| ensures p(q[i]) {
      assert p(run[i - a]);
    }
  }

  lemma {:induction false} PairFits(q: string, start: nat, x: nat, y: nat)
    requires PairAt(q, start, x, y)
    ensures Span(IsWord, q[start..]) == x - start > 0 && Span(IsValueChar, q[x + 1..]) > 0
  {
    var s := q[start..];
    assert forall i | 0 <= i < x - start :: s[i] == q[start + i];
    assert s[..x - start] + s[x - start..] == s && s[x - start..][0] == q[x];
    SpanOf(IsWord, s[..x - start], s[x - start..]);
    SpanAtLeast(IsValueChar, q[x + 1..], y - x - 1);
  }

  /** The search finds a pair if there is one from `start` on: the leftmost, and with it the longest value. */
  lemma {:induction false} LeftmostPair(q: string, start: nat)
    requires start <= |q|
    ensures NextPair(q, start).Some? <==> exists a: nat, eq: nat, end: nat :: start <= a && PairAt(q, a, eq, end)
    ensures NextPair(q, start).Some? ==>
              var (b, e, c) := NextPair(q, start).value;
              && PairAt(q, b, e, c)
              && forall a: nat, eq: nat, end: nat | start <= a && PairAt(q, a, eq, end) ::
                   b < a || (a == b && eq == e && end <= c)
    decreases |q| - start
  {
    hide NextPair, Begins;
    if start == |q| {
      NoPairLeft(q);
    } else {
      SearchStep(q, start);
      if Begins(q, start) {
        PairBegins(q, start);
        forall x: nat, y: nat | PairAt(q, start, x, y)
          ensures NextPair(q, start).value.1 == x && y <= NextPair(q, start).value.2
        {
          PairHere(q, start, x, y);
        }
      } else {
        NoPairBegins(q, start);
        LeftmostPair(q, start + 1);
      }
    }
  }

  lemma NoPairLeft(q: string)
    ensures NextPair(q, |q|) == None
  {
  }

  function Stored(q: string, at: (nat, nat, nat), m: map<string, string>): map<string, string>
    requires at.0 < at.1 < at.2 <= |q|
  {
    m[q[at.0..at.1] := q[at.1 + 1..at.2]]
  }

  /** The parameters found from `start` on, added to those found before. */
  function Params(q: string, start: nat, found: map<string, string>): map<string, string>
    requires start <= |q|
    decreases |q| - start
  {
    match NextPair(q, start)
    case None => found
    case Some(at) => Params(q, at.2, Stored(q, at, found))
  }

  lemma ParamsStep(q: string, start: nat, found: map<string, string>)
    requires start <= |q| && NextPair(q, start).Some?
    ensures var at := NextPair(q, start).value; Params(q, start, found) == Params(q, at.2, Stored(q, at, found))
  {
  }

  /** The loop of the source: search from `start`, store, move `start` behind the match. */
  method QueryParams(q: string) returns (params: map<string, string>)
    ensures params == Params(q, 0, map[])
  {
    params := map[];
    var start := 0;
    var next := NextPair(q, start);
    ghost var all := Params(q, 0, map[]);
    while next.Some?
      invariant start <= |q| && next == NextPair(q, start)
      invariant Params(q, start, params) == all
      decreases |q| - start
    {
      ParamsStep(q, start, params);
      params := Stored(q, next.value, params);
      start := next.value.2;
      next := NextPair(q, start);
    }
  }

  predicate IsPair(p: (string, string)) {
    p.0 != "" && All(IsWord, p.0) && p.1 != "" && All(IsValueChar, p.1)
  }

  predicate ArePairs(ps: seq<(string, string)>) {
    forall i | 0 <= i < |ps| :: IsPair(ps[i])
  }

  function PrintPairs(ps: seq<(string, string)>): string {
    if ps == [] then ""
    else if |ps| == 1 then ps[0].0 + "=" + ps[0].1
    else ps[0].0 + "=" + ps[0].1 + "&" + PrintPairs(ps[1..])
  }

  /** The map a list of pairs stands for: later pairs win. */
  function LastWins(ps: seq<(string, string)>, m: map<string, string>): map<string, string> {
    if ps == [] then m else LastWins(ps[1..], m[ps[0].0 := ps[0].1])
  }

  lemma {:induction false} Slices(q: string, start: nat, a: string, b: string)
    requires start <= |q| && q[start..] == a + b
    ensures start + |a| <= |q| && q[start..start + |a|] == a && q[start + |a|..] == b
  {
    assert q[start..][..|a|] == a && q[start..][|a|..] == b;
  }

  lemma {:induction false} KeyAt(q: string, start: nat, key: string, rest: string) returns (eq: nat)
    requires start <= |q| && q[start..] == key + ("=" + rest) && All(IsWord, key)
    ensures start <= eq < |q| && eq == start + |key| && Span(IsWord, q[start..]) == |key|
    ensures q[start..eq] == key && q[eq] == '=' && q[eq + 1..] == rest
  {
    eq := start + |key|;
    SpanOf(IsWord, key, "=" + rest);
    Slices(q, start, key, "=" + rest);
    Slices(q, eq, "=", rest);
  }

  lemma {:induction false} ValueAt(q: string, at: nat, value: string, rest: string) returns (end: nat)
    requires at <= |q| && q[at..] == value + rest && All(IsValueChar, value) && (rest == "" || rest[0] == '&')
    ensures at <= end <= |q| && end == at + |value| && Span(IsValueChar, q[at..]) == |value|
    ensures q[at..end] == value && q[end..] == rest
  {
    end := at + |value|;
    SpanOf(IsValueChar, value, rest);
    Slices(q, at, value, rest);
  }

  lemma {:induction false} NextHere(q: string, start: nat, eq: nat, end: nat)
    requires start < eq < |q| && Span(IsWord, q[start..]) == eq - start
    requires q[eq] == '=' && eq + 1 < end && Span(IsValueChar, q[eq + 1..]) == end - (eq + 1)
    ensures NextPair(q, start) == Some((start, eq, end))
  {
  }

  /** The pair at the start of a printed list is the one found there. */
  lemma {:induction false} FirstPair(q: string, start: nat, key: string, value: string, rest: string)
    returns (eq: nat, end: nat)
    requires start <= |q| && q[start..] == key + ("=" + (value + rest))
    requires IsPair((key, value)) && (rest == "" || rest[0] == '&')
    ensures start < eq < end - 1 < |q| && NextPair(q, start) == Some((start, eq, end))
    ensures q[start..eq] == key && q[eq + 1..end] == value && q[end..] == rest
  {
    assert All(IsWord, key) && All(IsValueChar, value) && |key| > 0 && |value| > 0;
    hide *;
    eq := KeyAt(q, start, key, value + rest);
    end := ValueAt(q, eq + 1, value, rest);
    NextHere(q, start, eq, end);
  }

  lemma SkipSeparator(q: string, start: nat, found: map<string, string>)
    requires start < |q| && !IsWord(q[start])
    ensures Params(q, start, found) == Params(q, start + 1, found)
  {
  }

  lemma {:induction false} ParamsStepAs(q: string, start: nat, eq: nat, end: nat,
                                        key: string, value: string, found: map<string, string>)
    requires start <= |q| && NextPair(q, start) == Some((start, eq, end))
    requires q[start..eq] == key && q[eq + 1..end] == value
    ensures Params(q, start, found) == Params(q, end, found[key := value])
  {
    hide NextPair, Params;
    ParamsStep(q, start, found);
  }

  lemma {:induction false} ReadOne(q: string, start: nat, key: string, value: string, rest: string, found: map<string, string>)
    returns (end: nat)
    requires start <= |q| && q[start..] == key + ("=" + (value + rest))
    requires IsPair((key, value)) && (rest == "" || rest[0] == '&')
    ensures end <= |q| && q[end..] == rest
    ensures Params(q, start, found) == Params(q, end, found[key := value])
  {
    var eq;
    eq, end := FirstPair(q, start, key, value, rest);
    ParamsStepAs(q, start, eq, end, key, value, found);
  }

  lemma {:induction false} DropSeparator(q: string, start: nat, rest: string, found: map<string, string>)
    requires start <= |q| && q[start..] == "&" + rest
    ensures start < |q| && q[start + 1..] == rest
    ensures Params(q, start, found) == Params(q, start + 1, found)
  {
    Slices(q, start, "&", rest);
    SkipSeparator(q, start, found);
  }

  lemma Assoc(a: string, b: string, c: string)
    ensures (a + b) + c == a + (b + c)
  {
  }

  /** Concatenation from the left, regrouped from the right. */
  lemma {:induction false} Regroup(a: string, b: string, c: string, d: string, e: string)
    ensures ((a + b) + c) + d == a + (b + (c + d))
    ensures (((a + b) + c) + d) + e == a + (b + (c + (d + e)))
  {
    Assoc(a, b, c);
    Assoc(a, b + c, d);
    Assoc(b, c, d);
    Assoc(a, b + (c + d), e);
    Assoc(b, c + d, e);
    Assoc(c, d, e);
  }

  lemma {:induction false} PrintPairsStep(ps: seq<(string, string)>)
    requires ps != []
    ensures PrintPairs(ps) ==
            ps[0].0 + ("=" + (ps[0].1 + if |ps| == 1 then "" else "&" + PrintPairs(ps[1..])))
  {
    if |ps| == 1 {
      Regroup(ps[0].0, "=", ps[0].1, "", "");
      assert PrintPairs(ps) + "" == PrintPairs(ps);
    } else {
      Regroup(ps[0].0, "=", ps[0].1, "&", PrintPairs(ps[1..]));
    }
  }

  lemma {:induction false} ReadMore(q: string, start: nat, key: string, value: string, more: string, found: map<string, string>)
    returns (next: nat)
    requires start <= |q| && q[start..] == key + ("=" + (value + ("&" + more))) && IsPair((key, value))
    ensures next <= |q| && q[next..] == more
    ensures Params(q, start, found) == Params(q, next, found[key := value])
  {
    var end := ReadOne(q, start, key, value, "&" + more, found);
    DropSeparator(q, end, more, found[key := value]);
    next := end + 1;
  }

  /** One pair read off the front of a printed list leaves the rest of the list. */
  lemma {:induction false} ReadPair(q: string, start: nat, ps: seq<(string, string)>, found: map<string, string>)
    returns (next: nat)
    requires start <= |q| && q[start..] == PrintPairs(ps) && ArePairs(ps) && ps != []
    ensures next <= |q| && q[next..] == PrintPairs(ps[1..])
    ensures Params(q, start, found) == Params(q, next, found[ps[0].0 := ps[0].1])
  {
    PrintPairsStep(ps);
    assert IsPair(ps[0]);
    if |ps| == 1 {
      next := ReadOne(q, start, ps[0].0, ps[0].1, "", found);
    } else {
      next := ReadMore(q, start, ps[0].0, ps[0].1, PrintPairs(ps[1..]), found);
    }
  }

  /** Printing pairs and reading them back gives the map in which later pairs win, and the loop stops there. */
  lemma {:induction false} PairsRoundTrip(q: string, start: nat, ps: seq<(string, string)>, found: map<string, string>)
    requires start <= |q| && q[start..] == PrintPairs(ps) && ArePairs(ps)
    ensures Params(q, start, found) == LastWins(ps, found)
    decreases |ps|
  {
    if ps == [] {
      assert start == |q|;
    } else {
      var next := ReadPair(q, start, ps, found);
      PairsRoundTrip(q, next, ps[1..], found[ps[0].0 := ps[0].1]);
    }
  }

  // ----- printing a DSN and reading it back

  predicate NoChar(s: string, c: char) { forall i | 0 <= i < |s| :: s[i] != c }

  /** Either no user and password, and no '@' at all, or a user without ':' and a password without '@'. */
  predicate Printable(p: Parts) {
    && TailParts(p.host, p.port, p.query)
    && if p.user == "" then p.pass == "" && NoChar(PrintTail(p.host, p.port, p.query), '@')
       else p.pass != "" && All(IsDot, p.user) && All(IsDot, p.pass) && NoChar(p.user, ':') && NoChar(p.pass, '@')
  }

  function PrintRest(p: Parts): string {
    (if p.user == "" then "" else p.user + ":" + p.pass + "@") + PrintTail(p.host, p.port, p.query)
  }

  function Print(p: Parts): string {
    (if p.secure then SECURE else PLAIN) + PrintRest(p)
  }

  lemma {:induction false} FirstPass(s: string, from: nat, j: nat, at: nat)
    requires from <= j <= at < |s| && PassEndsAt(s, from, at)
    requires forall i | from <= i < at :: s[i] != '@' && IsDot(s[i])
    ensures FindPass(s, from, j) == Some(at)
    decreases at - j
  {
    if j == at {
    } else {
      FirstPass(s, from, j + 1, at);
    }
  }

  lemma {:induction false} FirstUser(s: string, i: nat, colon: nat, at: nat)
    requires i <= colon < at < |s| && colon > 0 && s[colon] == ':'
    requires PassEndsAt(s, colon + 1, at)
    requires forall k | 0 <= k < colon :: s[k] != ':' && IsDot(s[k])
    requires forall k | colon < k < at :: s[k] != '@' && IsDot(s[k])
    ensures FindUser(s, i) == Some((colon, at))
    decreases colon - i
  {
    if i < colon {
      FirstUser(s, i + 1, colon, at);
    } else {
      FirstPass(s, colon + 1, colon + 1, at);
    }
  }

  lemma {:induction false} NoUser(s: string, i: nat)
    requires i <= |s| && NoChar(s, '@')
    ensures FindUser(s, i).None?
    decreases |s| - i
  {
    if i == |s| {
    } else {
      NoUser(s, i + 1);
    }
  }

  /** Where the printed user and password sit. */
  lemma UserInfoAt(user: string, pass: string, tail: string)
    ensures var s, colon, at := user + ":" + pass + "@" + tail, |user|, |user| + 1 + |pass|;
            && at < |s| && s[..colon] == user && s[colon] == ':' && s[colon + 1..at] == pass && s[at] == '@'
            && s[at + 1..] == tail
            && (forall k | 0 <= k < colon :: s[k] == user[k])
            && (forall k | colon < k < at :: s[k] == pass[k - colon - 1])
  {
  }

  /** A printed user and password are the first that the matcher finds. */
  lemma {:induction false} UserFound(secure: bool, user: string, pass: string, tail: string)
    requires user != "" && pass != "" && ParseTail(tail).Some?
    requires All(IsDot, user) && All(IsDot, pass) && NoChar(user, ':') && NoChar(pass, '@')
    ensures var t := ParseTail(tail).value;
            ParseRest(secure, user + ":" + pass + "@" + tail) == Some(Parts(secure, user, pass, t.host, t.port, t.query))
  {
    var s := user + ":" + pass + "@" + tail;
    UserInfoAt(user, pass, tail);
    FirstUser(s, 0, |user|, |user| + 1 + |pass|);
  }

  lemma {:induction false} RestRoundTrip(p: Parts)
    requires Printable(p)
    ensures ParseRest(p.secure, PrintRest(p)) == Some(p)
  {
    TailPrinted(p.host, p.port, p.query);
    var tail := PrintTail(p.host, p.port, p.query);
    if p.user == "" {
      assert PrintRest(p) == tail;
      NoUser(tail, 0);
    } else {
      UserFound(p.secure, p.user, p.pass, tail);
      assert PrintRest(p) == p.user + ":" + p.pass + "@" + tail;
    }
  }

  lemma {:induction false} SchemeMatched(secure: bool, rest: string)
    ensures Match((if secure then SECURE else PLAIN) + rest) == ParseRest(secure, rest)
  {
    var scheme := if secure then SECURE else PLAIN;
    CutAt(scheme, rest);
    assert (scheme + rest)[4] == scheme[4];
  }

  /** Printing and matching gives every capture group back. */
  lemma {:induction false} MatchPrinted(p: Parts)
    requires Printable(p)
    ensures Match(Print(p)) == Some(p)
  {
    RestRoundTrip(p);
    SchemeMatched(p.secure, PrintRest(p));
  }

  lemma Reassemble(s: string, i: nat, j: nat, user: string, pass: string, tail: string)
    requires i < j < |s| && s[i] == ':' && s[j] == '@'
    requires s[..i] == user && s[i + 1..j] == pass && s[j + 1..] == tail
    ensures user + ":" + pass + "@" + tail == s
  {
  }

  lemma {:induction false} PrintRestOf(p: Parts, tail: string)
    requires PrintTail(p.host, p.port, p.query) == tail
    ensures PrintRest(p) == if p.user == "" then tail else p.user + ":" + p.pass + "@" + tail
  {
    assert "" + tail == tail;
  }

  lemma {:induction false} JoinedParts(p: Parts, s: string, i: nat, j: nat)
    requires 0 < i < j - 1 && j < |s| && s[i] == ':' && s[j] == '@'
    requires p.user == s[..i] && p.pass == s[i + 1..j] && PrintTail(p.host, p.port, p.query) == s[j + 1..]
    ensures PrintRest(p) == s && p.user != "" && p.pass != ""
  {
    PrintRestOf(p, s[j + 1..]);
    Reassemble(s, i, j, p.user, p.pass, s[j + 1..]);
  }

  lemma {:induction false} UserRest(secure: bool, s: string, i: nat, j: nat, t: Tail)
    requires FindUser(s, 0) == Some((i, j)) && ParseTail(s[j + 1..]) == Some(t)
    ensures ParseRest(secure, s) == Some(Parts(secure, s[..i], s[i + 1..j], t.host, t.port, t.query))
  {
    assert ParseTail(s[j + 1..]).value == t;
  }

  lemma {:induction false} UserRestIsPrinted(secure: bool, s: string, i: nat, j: nat)
    requires FindUser(s, 0) == Some((i, j))
    ensures ParseRest(secure, s).Some? && IsPrintedRest(ParseRest(secure, s).value, s)
  {
    var t := ParseTail(s[j + 1..]).value;
    UserRest(secure, s, i, j, t);
    UserNotEmpty(s, 0);
    TailMatched(s[j + 1..], t);
    JoinedParts(Parts(secure, s[..i], s[i + 1..j], t.host, t.port, t.query), s, i, j);
  }

  /** The string is these groups, printed; user and password come together or not at all. */
  predicate IsPrintedRest(p: Parts, s: string) {
    PrintRest(p) == s && TailParts(p.host, p.port, p.query) && (p.user == "" <==> p.pass == "")
  }

  /** What follows the scheme is exactly its groups, printed. */
  lemma {:induction false} RestIsPrinted(secure: bool, s: string)
    requires ParseRest(secure, s).Some?
    ensures IsPrintedRest(ParseRest(secure, s).value, s) && ParseRest(secure, s).value.secure == secure
  {
    match FindUser(s, 0)
    case Some((i, j)) =>
      UserRestIsPrinted(secure, s, i, j);
    case None =>
      TailMatched(s, ParseTail(s).value);
      PrintRestOf(ParseRest(secure, s).value, s);
  }

  lemma AfterPrefix(s: string, prefix: string)
    requires prefix <= s
    ensures prefix + s[|prefix|..] == s
  {
  }

  /** Whatever matches is exactly its groups, printed. */
  lemma {:induction false} MatchedIsPrinted(s: string)
    requires Match(s).Some?
    ensures Print(Match(s).value) == s
    ensures var p := Match(s).value; TailParts(p.host, p.port, p.query) && (p.user == "" <==> p.pass == "")
  {
    var secure := SECURE <= s;
    var scheme := if secure then SECURE else PLAIN;
    RestIsPrinted(secure, s[|scheme|..]);
    hide ParseRest, PrintRest, TailParts;
    AfterPrefix(s, scheme);
  }

  lemma {:induction false} UserNotEmpty(s: string, i: nat)
    requires i <= |s| && FindUser(s, i).Some?
    ensures FindUser(s, i).value.0 > 0
    decreases |s| - i
  {
    if i > 0 && s[i] == ':' && FindPass(s, i + 1, i + 1).Some? {
    } else {
      UserNotEmpty(s, i + 1);
    }
  }

  // ----- what the expression stands for

  /** The string is made of these groups, each of the characters it may have; a user comes with a password, if at all. */
  predicate Denotes(p: Parts, s: string) {
    && s == (if p.secure then "mqtts://" else "mqtt://")
            + (if p.user == "" then "" else p.user + ":" + p.pass + "@")
            + p.host + (if p.port == "" then "" else ":" + p.port) + (if p.query == "" then "" else "?" + p.query)
    && (p.user == "" <==> p.pass == "")
    && (forall i | 0 <= i < |p.user| :: p.user[i] != '\n' && p.user[i] != '\r')
    && (forall i | 0 <= i < |p.pass| :: p.pass[i] != '\n' && p.pass[i] != '\r')
    && p.host != "" && (forall i | 0 <= i < |p.host| :: p.host[i] != ':' && p.host[i] != '/' && p.host[i] != '?')
    && (forall i | 0 <= i < |p.port| :: '0' <= p.port[i] <= '9')
    && (forall i | 0 <= i < |p.query| :: p.query[i] != '#')
  }

  lemma {:induction false} DenotesPrinted(p: Parts, s: string)
    ensures Denotes(p, s) <==>
              && s == Print(p) && TailParts(p.host, p.port, p.query) && (p.user == "" <==> p.pass == "")
              && All(IsDot, p.user) && All(IsDot, p.pass)
  {
    PrintSpelled(p);
  }

  lemma {:induction false} PrintSpelled(p: Parts)
    ensures Print(p) == (if p.secure then "mqtts://" else "mqtt://")
                        + (if p.user == "" then "" else p.user + ":" + p.pass + "@")
                        + p.host
                        + (if p.port == "" then "" else ":" + p.port) + (if p.query == "" then "" else "?" + p.query)
  {
    var a, b := if p.secure then "mqtts://" else "mqtt://", if p.user == "" then "" else p.user + ":" + p.pass + "@";
    var c := p.host;
    var d, e := if p.port == "" then "" else ":" + p.port, if p.query == "" then "" else "?" + p.query;
    Regroup(a, b, c, d, e);
    Regroup(b, c, d, e, "");
    assert PrintTail(p.host, p.port, p.query) == c + (d + e);
  }

  /** A user up to `i` and a password up to `j` that let the rest match. */
  predicate UserFits(s: string, i: nat, j: nat) {
    && 0 < i < j < |s| && s[i] == ':' && PassEndsAt(s, i + 1, j)
    && (forall k | 0 <= k < i :: IsDot(s[k])) && (forall k | i < k < j :: IsDot(s[k]))
  }

  lemma {:induction false} PassSearched(s: string, from: nat, at: nat, j: nat)
    requires from <= at <= j < |s| && PassEndsAt(s, from, j) && forall k | at <= k < j :: IsDot(s[k])
    ensures FindPass(s, from, at).Some? && FindPass(s, from, at).value <= j
    ensures forall k | at <= k < FindPass(s, from, at).value :: IsDot(s[k])
    decreases j - at
  {
    hide PassEndsAt;
    if PassEndsAt(s, from, at) {
    } else {
      PassSearched(s, from, at + 1, j);
    }
  }

  lemma {:induction false} PassOfDots(s: string, from: nat, at: nat)
    requires from <= at <= |s| && FindPass(s, from, at).Some?
    ensures forall k | at <= k < FindPass(s, from, at).value :: IsDot(s[k])
    decreases |s| - at
  {
    hide PassEndsAt;
    if PassEndsAt(s, from, at) {
    } else {
      PassOfDots(s, from, at + 1);
    }
  }

  /** The search finds a user that fits if there is one, and none that comes later or has a longer password. */
  lemma {:induction false} UserSearched(s: string, at: nat, i: nat, j: nat)
    requires at <= i && UserFits(s, i, j)
    ensures FindUser(s, at).Some?
    ensures var (a, b) := FindUser(s, at).value; a < i || (a == i && b <= j)
    decreases i - at
  {
    hide PassEndsAt;
    if at == i {
      PassSearched(s, i + 1, i + 1, j);
    } else if at > 0 && s[at] == ':' && FindPass(s, at + 1, at + 1).Some? {
    } else {
      UserSearched(s, at + 1, i, j);
    }
  }

  lemma {:induction false} UserOfDots(s: string, at: nat)
    requires at <= |s| && FindUser(s, at).Some? && forall k | 0 <= k < at :: IsDot(s[k])
    ensures var (a, b) := FindUser(s, at).value; UserFits(s, a, b)
    decreases |s| - at
  {
    hide PassEndsAt;
    if at > 0 && s[at] == ':' && FindPass(s, at + 1, at + 1).Some? {
      PassOfDots(s, at + 1, at + 1);
    } else {
      UserOfDots(s, at + 1);
    }
  }

  /**
   A user and password are taken if any fit, and then the shortest user and the shortest password for it, as the lazy
   groups of the expression ask.
   */
  lemma {:induction false} ShortestUser(s: string)
    ensures FindUser(s, 0).Some? <==> exists i, j :: UserFits(s, i, j)
    ensures FindUser(s, 0).Some? ==>
              var (a, b) := FindUser(s, 0).value;
              UserFits(s, a, b) && forall i, j | UserFits(s, i, j) :: a < i || (a == i && b <= j)
  {
    if FindUser(s, 0).Some? {
      UserOfDots(s, 0);
    }
    forall i, j | UserFits(s, i, j)
      ensures FindUser(s, 0).Some?
      ensures var (a, b) := FindUser(s, 0).value; a < i || (a == i && b <= j)
    {
      UserSearched(s, 0, i, j);
    }
  }

  lemma {:induction false} UserPrintedFits(p: Parts, s: string)
    requires p.user != "" && p.pass != "" && All(IsDot, p.user) && All(IsDot, p.pass)
    requires TailParts(p.host, p.port, p.query) && s == PrintRest(p)
    ensures UserFits(s, |p.user|, |p.user| + 1 + |p.pass|)
  {
    var tail := PrintTail(p.host, p.port, p.query);
    UserInfoAt(p.user, p.pass, tail);
    TailPrinted(p.host, p.port, p.query);
    assert s == p.user + ":" + p.pass + "@" + tail;
  }

  lemma {:induction false} RestMatches(p: Parts)
    requires TailParts(p.host, p.port, p.query) && (p.user == "" <==> p.pass == "")
    requires All(IsDot, p.user) && All(IsDot, p.pass)
    ensures ParseRest(p.secure, PrintRest(p)).Some?
  {
    if p.user == "" {
      TailPrinted(p.host, p.port, p.query);
      assert PrintRest(p) == PrintTail(p.host, p.port, p.query);
    } else {
      UserPrintedFits(p, PrintRest(p));
      ShortestUser(PrintRest(p));
    }
  }

  lemma {:induction false} RestOfDots(secure: bool, s: string)
    requires ParseRest(secure, s).Some?
    ensures var p := ParseRest(secure, s).value; All(IsDot, p.user) && All(IsDot, p.pass)
  {
    if FindUser(s, 0).Some? {
      UserOfDots(s, 0);
    }
  }

  /** A string matches exactly when it denotes some groups, and what it matches as is denoted by it. */
  lemma {:induction false} MatchDenotes(s: string)
    ensures Match(s).Some? <==> exists p :: Denotes(p, s)
    ensures Match(s).Some? ==> Denotes(Match(s).value, s)
  {
    if Match(s).Some? {
      var secure := SECURE <= s;
      MatchedIsPrinted(s);
      RestOfDots(secure, s[|if secure then SECURE else PLAIN|..]);
      DenotesPrinted(Match(s).value, s);
    }
    forall p | Denotes(p, s) ensures Match(s).Some? {
      DenotesPrinted(p, s);
      RestMatches(p);
      SchemeMatched(p.secure, PrintRest(p));
    }
  }

  // ----- the result

  function OrNone(s: string): Option<string> {
    if s == "" then None else Some(s)
  }

  function Lookup(m: map<string, string>, k: string): Option<string> {
    if k in m then Some(m[k]) else None
  }

  function Flag(v: Option<string>): Option<bool> {
    if v == Some("true") then Some(true) else if v == Some("false") then Some(false) else None
  }

  /** The port is converted to sixteen bits. */
  function Assemble(p: Parts, params: map<string, string>): Parsed
    requires All(IsDigit, p.port)
  {
    if p.port != "" && Number(p.port) > INT_MAX then OutOfRange
    else Found(Dsn(p.secure, OrNone(p.user), OrNone(p.pass), p.host,
                   if p.port == "" then None else Some(Number(p.port) % 65536),
                   Lookup(params, "cacert"), Flag(Lookup(params, "verify"))))
  }

  /** Which fields the groups and the parameters give. */
  ghost predicate Filled(p: Parts, m: map<string, string>, d: Dsn)
    requires All(IsDigit, p.port)
  {
    && d.secure == p.secure && d.host == p.host
    && (forall u: string :: d.username == Some(u) <==> u == p.user != "")
    && (forall w: string :: d.password == Some(w) <==> w == p.pass != "")
    && (d.port.None? <==> p.port == "") && (d.port.Some? ==> d.port.value == Number(p.port) % 65536)
    && (forall v: string :: d.cacert == Some(v) <==> "cacert" in m && m["cacert"] == v)
    && (d.verify == Some(true) <==> "verify" in m && m["verify"] == "true")
    && (d.verify == Some(false) <==> "verify" in m && m["verify"] == "false")
  }

  lemma AssembledMeans(p: Parts, m: map<string, string>)
    requires All(IsDigit, p.port)
    ensures Assemble(p, m).OutOfRange? <==> p.port != "" && Number(p.port) > 2147483647
    ensures Assemble(p, m) != NoMatch
    ensures Assemble(p, m).Found? ==> Filled(p, m, Assemble(p, m).dsn)
  {
    FlagSays(Flag(Lookup(m, "verify")), Lookup(m, "verify"));
  }

  method From(dsn: string) returns (r: Parsed)
    ensures r == NoMatch <==> Match(dsn).None?
    ensures Match(dsn).Some? ==>
              && All(IsDigit, Match(dsn).value.port)
              && r == Assemble(Match(dsn).value, Params(Match(dsn).value.query, 0, map[]))
              && (r.OutOfRange? <==> Match(dsn).value.port != "" && Number(Match(dsn).value.port) > 2147483647)
              && (r.Found? ==> Filled(Match(dsn).value, Params(Match(dsn).value.query, 0, map[]), r.dsn))
  {
    hide Assemble, Filled, Match, Params, Number;
    var m := Match(dsn);
    if m.None? {
      return NoMatch;
    }
    MatchedIsPrinted(dsn);
    var params := QueryParams(m.value.query);
    AssembledMeans(m.value, params);
    r := Assemble(m.value, params);
  }

  /** A DSN as a user writes it down. */
  predicate Writable(d: Dsn, ps: seq<(string, string)>) {
    && d.host != "" && All(IsHostChar, d.host)
    && (d.port.Some? ==> 0 <= d.port.value <= INT_MAX)
    && ArePairs(ps) && All(IsQueryChar, PrintPairs(ps))
    && Printable(PartsOf(d, ps))
  }

  function PartsOf(d: Dsn, ps: seq<(string, string)>): Parts
    requires d.port.Some? ==> d.port.value >= 0
  {
    Parts(d.secure,
          match d.username case Some(u) => u case None => "",
          match d.password case Some(p) => p case None => "",
          d.host,
          match d.port case Some(n) => Decimal(n) case None => "",
          PrintPairs(ps))
  }

  /** The port survives exactly when it fits sixteen bits. */
  lemma PortRoundTrip(n: nat)
    ensures Decimal(n) != "" && Number(Decimal(n)) == n
    ensures n % 65536 == n <==> n <= 65535
  {
  }

  /** The last pair with this name. */
  predicate LastNamed(ps: seq<(string, string)>, name: string, i: nat) {
    i < |ps| && ps[i].0 == name && forall j | i < j < |ps| :: ps[j].0 != name
  }

  ghost predicate Says(ps: seq<(string, string)>, name: string, value: string) {
    exists i: nat :: LastNamed(ps, name, i) && ps[i].1 == value
  }

  lemma {:induction false} LastOneWins(ps: seq<(string, string)>, m: map<string, string>, name: string)
    ensures forall i: nat | LastNamed(ps, name, i) :: name in LastWins(ps, m) && LastWins(ps, m)[name] == ps[i].1
    ensures (forall i | 0 <= i < |ps| :: ps[i].0 != name) ==> (name in LastWins(ps, m) <==> name in m)
    ensures (forall i | 0 <= i < |ps| :: ps[i].0 != name) && name in m ==> LastWins(ps, m)[name] == m[name]
    ensures (exists i | 0 <= i < |ps| :: ps[i].0 == name) ==> exists i: nat :: LastNamed(ps, name, i)
  {
    if ps == [] {
    } else {
      var rest, added := ps[1..], m[ps[0].0 := ps[0].1];
      LastOneWins(rest, added, name);
      assert forall i | 0 <= i < |rest| :: rest[i] == ps[i + 1];
      forall i: nat | LastNamed(ps, name, i) ensures name in LastWins(ps, m) && LastWins(ps, m)[name] == ps[i].1 {
        if i > 0 {
          assert LastNamed(rest, name, i - 1);
        }
      }
      if exists i | 0 <= i < |ps| :: ps[i].0 == name {
        if exists i | 0 <= i < |rest| :: rest[i].0 == name {
          var i: nat :| LastNamed(rest, name, i);
          assert LastNamed(ps, name, i + 1);
        } else {
          assert LastNamed(ps, name, 0);
        }
      }
    }
  }

  /** A parameter has the value that the last pair of its name gives it, if there is one. */
  lemma {:induction false} LookupSays(ps: seq<(string, string)>, name: string, value: string)
    ensures Lookup(LastWins(ps, map[]), name) == Some(value) <==> Says(ps, name, value)
  {
    LastOneWins(ps, map[], name);
    if Says(ps, name, value) {
      var i: nat :| LastNamed(ps, name, i) && ps[i].1 == value;
    } else if exists i | 0 <= i < |ps| :: ps[i].0 == name {
      var i: nat :| LastNamed(ps, name, i);
    }
  }

  /** What the parameters of a DSN have to be for it to be read back. */
  ghost predicate ParametersSay(d: Dsn, ps: seq<(string, string)>) {
    && (forall v: string :: d.cacert == Some(v) <==> Says(ps, "cacert", v))
    && (d.verify == Some(true) <==> Says(ps, "verify", "true"))
    && (d.verify == Some(false) <==> Says(ps, "verify", "false"))
  }

  lemma FlagSays(flag: Option<bool>, v: Option<string>)
    ensures flag == Flag(v) <==>
              (flag == Some(true) <==> v == Some("true")) && (flag == Some(false) <==> v == Some("false"))
  {
    assert |"true"| != |"false"|;
    match flag
    case None =>
    case Some(b) => assert b || !b;
  }

  lemma {:induction false} ParametersRead(d: Dsn, ps: seq<(string, string)>)
    ensures ParametersSay(d, ps) <==>
              d.cacert == Lookup(LastWins(ps, map[]), "cacert") && d.verify == Flag(Lookup(LastWins(ps, map[]), "verify"))
  {
    var cacert, verify := Lookup(LastWins(ps, map[]), "cacert"), Lookup(LastWins(ps, map[]), "verify");
    forall v: string ensures cacert == Some(v) <==> Says(ps, "cacert", v) {
      LookupSays(ps, "cacert", v);
    }
    LookupSays(ps, "verify", "true");
    LookupSays(ps, "verify", "false");
    assert (forall v: string :: d.cacert == Some(v) <==> cacert == Some(v)) <==> d.cacert == cacert by {
      assert d.cacert.Some? ==> d.cacert == Some(d.cacert.value);
      assert cacert.Some? ==> cacert == Some(cacert.value);
    }
    FlagSays(d.verify, verify);
  }

  /**
   A DSN written down and read back is the same DSN, exactly when its port fits sixteen bits, its certificate is what
   the last pair named "cacert" says, and it asks for verification, or for none, when the last pair named "verify" has
   the value "true", or "false".
   */
  lemma {:induction false} DsnRoundTrip(d: Dsn, ps: seq<(string, string)>)
    requires Writable(d, ps) && d.username != Some("") && d.password != Some("")
    ensures Match(Print(PartsOf(d, ps))) == Some(PartsOf(d, ps))
    ensures Params(PrintPairs(ps), 0, map[]) == LastWins(ps, map[])
    ensures var params := LastWins(ps, map[]);
            Assemble(PartsOf(d, ps), params) == Found(d) <==>
              (d.port.Some? ==> d.port.value <= 65535) && ParametersSay(d, ps)
  {
    MatchPrinted(PartsOf(d, ps));
    WholeQuery(ps);
    AssembledFaithfully(d, ps, LastWins(ps, map[]));
    ParametersRead(d, ps);
  }

  lemma {:induction false} WholeQuery(ps: seq<(string, string)>)
    requires ArePairs(ps)
    ensures Params(PrintPairs(ps), 0, map[]) == LastWins(ps, map[])
  {
    var q := PrintPairs(ps);
    assert q[0..] == q;
    PairsRoundTrip(q, 0, ps, map[]);
  }

  lemma {:induction false} AssembledFaithfully(d: Dsn, ps: seq<(string, string)>, params: map<string, string>)
    requires d.port.Some? ==> 0 <= d.port.value <= INT_MAX
    requires d.username != Some("") && d.password != Some("")
    ensures All(IsDigit, PartsOf(d, ps).port)
    ensures Assemble(PartsOf(d, ps), params) == Found(d) <==>
              && (d.port.Some? ==> d.port.value <= 65535)
              && d.cacert == Lookup(params, "cacert") && d.verify == Flag(Lookup(params, "verify"))
  {
    if d.port.Some? {
      PortRoundTrip(d.port.value);
    }
  }
}
