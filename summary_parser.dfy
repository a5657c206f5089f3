/**
 * The k6 summary-line parser of parse.py: `parse_line` keeps the 95th-percentile figure of a
 * line that `re.match(r'.*p\(95\)=(.+?)(ms|s)', line.strip())` accepts, and `parse_file`
 * numbers the lines of a file and keeps the parsed ones. The file is a sequence of lines here.
 *
 * The regular expression is written out as the search Python's backtracking performs:
 * the greedy `.*` tries the rightmost `p(95)=` first, the lazy `.+?` the shortest value,
 * and `.` matches every character except '\n'.
 */
module SummaryParser {
  import opened Wrappers

  /** Python's `str.isspace()`, the characters `str.strip()` removes. */
  predicate IsSpace(c: char) {
    || c == ' '
    || ('\t' <= c <= '\r')
    || ('\U{1C}' <= c <= '\U{1F}')
    || c == '\U{85}' || c == '\U{A0}' || c == '\U{1680}'
    || ('\U{2000}' <= c <= '\U{200A}')
    || c == '\U{2028}' || c == '\U{2029}' || c == '\U{202F}' || c == '\U{205F}' || c == '\U{3000}'
  }

  predicate AllSpace(s: string) {
    forall k :: 0 <= k < |s| ==> IsSpace(s[k])
  }

  /** Index of the first character that is not whitespace, or `|s|`. */
  function StripStart(s: string): (i: nat)
    ensures i <= |s|
    ensures AllSpace(s[..i])
    ensures i < |s| ==> !IsSpace(s[i])
  {
    if s == [] || !IsSpace(s[0]) then 0
    else
      var i := 1 + StripStart(s[1..]);
      assert s[..i] == [s[0]] + s[1..][..i - 1];
      i
  }

  /** One past the last character that is not whitespace, or 0. */
  function StripEnd(s: string): (j: nat)
    ensures j <= |s|
    ensures AllSpace(s[j..])
    ensures j > 0 ==> !IsSpace(s[j - 1])
  {
    if s == [] || !IsSpace(s[|s| - 1]) then |s|
    else
      var j := StripEnd(s[..|s| - 1]);
      assert s[j..] == s[..|s| - 1][j..] + [s[|s| - 1]];
      j
  }

  /** `str.strip()`: the text between the leading and the trailing whitespace. */
  function Strip(s: string): (r: string)
    ensures r == [] || (!IsSpace(r[0]) && !IsSpace(r[|r| - 1]))
  {
    var i, j := StripStart(s), StripEnd(s);
    if i < j then s[i..j] else []
  }

  /** `Strip` removes whitespace only, and all of it at both ends: `s` is the result with
      whitespace before and after it. */
  lemma StripSpec(s: string)
    ensures exists i: nat :: i + |Strip(s)| <= |s| && s[i..i + |Strip(s)|] == Strip(s)
                             && AllSpace(s[..i]) && AllSpace(s[i + |Strip(s)|..])
  {
    var i, j := StripStart(s), StripEnd(s);
    if i < j {
      assert s[i..i + |Strip(s)|] == Strip(s);
    } else {
      assert s[..0] == [] && s[0..] == s;
      forall k | 0 <= k < |s| ensures IsSpace(s[k]) {
        if k < i { assert s[..i][k] == s[k]; }
      }
    }
  }

  /** What the pattern's `.` accepts. */
  predicate NoNewline(s: string) {
    forall k :: 0 <= k < |s| ==> s[k] != '\n'
  }

  const Marker := "p(95)="

  predicate IsUnit(u: string) {
    u == "ms" || u == "s"
  }

  /** One way the pattern can match `s`: the literal `p(95)=` at `start` (so `.*` consumed
      `s[..start]`), group 1 of `len` characters after it and group 2 `unit` right after that. */
  datatype Match = Match(start: nat, len: nat, unit: string)
  {
    function ValueStart(): nat { start + |Marker| }
    function ValueEnd(): nat { start + |Marker| + len }
  }

  /** Group 2 can match at position `p`. */
  predicate UnitMatchesAt(s: string, p: nat, u: string) {
    IsUnit(u) && p + |u| <= |s| && s[p..p + |u|] == u
  }

  /** The value part of the pattern, `(.+?)(ms|s)`, can match at `from` with a value of `len` characters. */
  predicate TailMatches(s: string, from: nat, len: nat, u: string) {
    && len >= 1
    && from + len <= |s|
    && NoNewline(s[from..from + len])
    && UnitMatchesAt(s, from + len, u)
  }

  /** `m` is a match of the whole pattern against `s`, anchored at the start. */
  predicate Matches(s: string, m: Match) {
    && m.ValueStart() <= |s|
    && NoNewline(s[..m.start])
    && s[m.start..m.ValueStart()] == Marker
    && TailMatches(s, m.ValueStart(), m.len, m.unit)
  }

  /** `m` is the match `re.match` reports: backtracking tries the rightmost `p(95)=` first and
      the shortest value first, so no other match starts later or, starting there, is shorter. */
  ghost predicate Reported(s: string, m: Match) {
    Matches(s, m) && forall n :: Matches(s, n) ==> n.start < m.start || (n.start == m.start && m.len <= n.len)
  }

  /** At one position at most one alternative of `(ms|s)` matches: they differ in their first character. */
  lemma UnitUnique(s: string, p: nat, u: string, u': string)
    requires UnitMatchesAt(s, p, u) && UnitMatchesAt(s, p, u')
    ensures u == u'
  {
    assert s[p..p + |u|][0] == s[p];
    assert s[p..p + |u'|][0] == s[p];
  }

  /** A unit matching at `p` begins with the character at `p`. */
  lemma UnitHead(s: string, p: nat, u: string)
    ensures UnitMatchesAt(s, p, u) ==> p < |s| && s[p] == u[0]
  {
    if UnitMatchesAt(s, p, u) {
      assert s[p..p + |u|][0] == s[p];
    }
  }

  /** Group 2 tried at `p`: "ms" first, then "s". */
  function UnitAt(s: string, p: nat): (r: Option<string>)
    ensures r.Some? ==> UnitMatchesAt(s, p, r.value)
    ensures r.None? ==> forall u :: !UnitMatchesAt(s, p, u)
  {
    if p + 2 <= |s| && s[p..p + 2] == "ms" then Some("ms")
    else if p < |s| && s[p] == 's' then
      assert s[p..p + 1] == "s";
      Some("s")
    else
      assert p < |s| ==> s[p..p + 1][0] == s[p];
      assert !UnitMatchesAt(s, p, "ms") && !UnitMatchesAt(s, p, "s");
      None
  }

  /** The lazy `.+?` followed by `(ms|s)`: values of `len`, `len + 1`, ... characters are tried
      until group 2 matches or `.` meets '\n' or the end of `s`. */
  function LazyValue(s: string, from: nat, len: nat): (r: Option<(nat, string)>)
    requires 1 <= len && from + len - 1 <= |s|
    requires NoNewline(s[from..from + len - 1])
    ensures r.Some? ==> len <= r.value.0 && TailMatches(s, from, r.value.0, r.value.1)
    ensures forall l, u :: len <= l && TailMatches(s, from, l, u) ==> r.Some? && r.value.0 <= l
    decreases |s| - (from + len)
  {
    if from + len > |s| then None
    else if s[from + len - 1] == '\n' then
      assert forall l, u :: len <= l && TailMatches(s, from, l, u) ==> s[from..from + l][len - 1] == s[from + len - 1];
      None
    else
      assert s[from..from + len] == s[from..from + len - 1] + [s[from + len - 1]];
      match UnitAt(s, from + len)
      case Some(u) => Some((len, u))
      case None => LazyValue(s, from, len + 1)
  }

  /** The pattern with `.*` ending at `k`: the literal, then the lazy value. */
  function MatchAt(s: string, k: nat): (r: Option<Match>)
    requires k <= |s|
    ensures r.Some? ==> r.value.start == k && r.value.ValueStart() <= |s| && s[k..r.value.ValueStart()] == Marker
    ensures r.Some? ==> TailMatches(s, r.value.ValueStart(), r.value.len, r.value.unit)
    ensures forall n: Match :: n.start == k && n.ValueStart() <= |s| && s[k..n.ValueStart()] == Marker && TailMatches(s, n.ValueStart(), n.len, n.unit)
              ==> r.Some? && r.value.len <= n.len
  {
    if k + |Marker| <= |s| && s[k..k + |Marker|] == Marker then
      match LazyValue(s, k + |Marker|, 1)
      case Some(v) => Some(Match(k, v.0, v.1))
      case None => None
    else None
  }

  /** Greedy `.*` backing off from `k` down to 0. */
  function SearchFrom(s: string, k: nat): (r: Option<Match>)
    requires k <= |s| && NoNewline(s[..k])
    ensures r.Some? ==> Matches(s, r.value) && r.value.start <= k
    ensures forall n :: Matches(s, n) && n.start <= k ==>
              r.Some? && (n.start < r.value.start || (n.start == r.value.start && r.value.len <= n.len))
    decreases k
  {
    var here := MatchAt(s, k);
    if here.Some? then
      assert NoNewline(s[..here.value.start]);
      here
    else if k == 0 then None
    else
      assert s[..k - 1] == s[..k][..k - 1];
      SearchFrom(s, k - 1)
  }

  /** How far `.*` can reach: the index of the first '\n', or `|s|`. */
  function DotRunEnd(s: string): (m: nat)
    ensures m <= |s| && NoNewline(s[..m])
    ensures m < |s| ==> s[m] == '\n'
  {
    if s == [] || s[0] == '\n' then 0
    else
      var m := 1 + DotRunEnd(s[1..]);
      assert s[..m] == [s[0]] + s[1..][..m - 1];
      m
  }

  /** `re.match(r'.*p\(95\)=(.+?)(ms|s)', s)`: `.*` first reaches the first '\n' or the end. */
  function Search(s: string): Option<Match> {
    SearchFrom(s, DotRunEnd(s))
  }

  /** `Search` finds the match Python reports, and finds one whenever the pattern matches. */
  lemma SearchSpec(s: string)
    ensures Search(s).Some? ==> Reported(s, Search(s).value)
    ensures Search(s).None? ==> forall n :: !Matches(s, n)
  {
    var m := DotRunEnd(s);
    forall n | Matches(s, n) ensures n.start <= m {
    }
  }

  /** The dictionary `parse_line` returns. */
  datatype LineStats = LineStats(p95Value: string, p95Unit: string, p95: string, rawLine: string)

  /** The dictionary built from match `m` of the stripped line `s`. */
  function StatsOf(s: string, m: Match): LineStats
    requires m.ValueEnd() <= |s|
  {
    var value := s[m.ValueStart()..m.ValueEnd()];
    LineStats(value, m.unit, value + m.unit, s)
  }

  /** `parse_line`: None for a blank line or a line the pattern rejects. */
  function ParseLine(line: string): Option<LineStats> {
    var s := Strip(line);
    if s == [] then None
    else
      match Search(s)
      case None => None
      case Some(m) => Some(StatsOf(s, m))
  }

  /** `parse_line` answers None exactly for blank lines and lines without a match; otherwise the
      figures of the match Python reports, with `p95 == p95_value + p95_unit`. */
  lemma ParseLineSpec(line: string)
    ensures ParseLine(line).None? <==> Strip(line) == [] || forall m :: !Matches(Strip(line), m)
    ensures ParseLine(line).Some? ==>
              var r := ParseLine(line).value;
              && r.rawLine == Strip(line)
              && IsUnit(r.p95Unit)
              && |r.p95Value| >= 1
              && r.p95 == r.p95Value + r.p95Unit
              && exists m :: Reported(Strip(line), m) && r == StatsOf(Strip(line), m)
  {
    var s := Strip(line);
    SearchSpec(s);
    if s != [] && Search(s).Some? {
      var m := Search(s).value;
      assert Reported(s, m) && ParseLine(line) == Some(StatsOf(s, m));
    }
  }

  /** `Reported` singles out one match: Python's answer is determined. */
  lemma ReportedUnique(s: string, m: Match, m': Match)
    requires Reported(s, m) && Reported(s, m')
    ensures m == m'
  {
    UnitUnique(s, m.ValueEnd(), m.unit, m'.unit);
  }

  /** A text that neither starts nor ends with whitespace is its own `strip()`. */
  lemma StripUnchanged(s: string)
    requires s != [] && !IsSpace(s[0]) && !IsSpace(s[|s| - 1])
    ensures Strip(s) == s
  {
  }

  predicate IsAsciiDigit(c: char) {
    '0' <= c <= '9'
  }

  /** In `prefix + "p(95)=" + digits + u` no `p(95)=` starts after the one following `prefix`. */
  lemma NoLaterMarker(prefix: string, digits: string, u: string)
    requires forall k :: 0 <= k < |digits| ==> IsAsciiDigit(digits[k])
    requires IsUnit(u)
    ensures var s := prefix + Marker + digits + u;
            forall n: Match :: |prefix| < n.start && n.ValueStart() <= |s| ==> s[n.start..n.ValueStart()] != Marker
  {
    var s := prefix + Marker + digits + u;
    var a := |prefix| + |Marker|;
    forall n: Match | |prefix| < n.start && n.ValueStart() <= |s| ensures s[n.start..n.ValueStart()] != Marker {
      var q := n.start;
      assert s[q..n.ValueStart()][0] == s[q];
      if q < a {
        assert s[q] == Marker[q - |prefix|];
      } else {
        assert s[q] == digits[q - a];
      }
    }
  }

  /** In `prefix + "p(95)=" + digits + u` a value shorter than `digits` is followed by a digit, not a unit. */
  lemma NoShorterValue(prefix: string, digits: string, u: string)
    requires forall k :: 0 <= k < |digits| ==> IsAsciiDigit(digits[k])
    ensures var s := prefix + Marker + digits + u;
            forall n: Match :: n.start == |prefix| && 1 <= n.len < |digits| ==> !UnitMatchesAt(s, n.ValueEnd(), n.unit)
  {
    var s := prefix + Marker + digits + u;
    var a := |prefix| + |Marker|;
    forall n: Match | n.start == |prefix| && 1 <= n.len < |digits| ensures !UnitMatchesAt(s, n.ValueEnd(), n.unit) {
      var p := n.ValueEnd();
      assert s[p] == digits[p - a];
      UnitHead(s, p, n.unit);
    }
  }

  /** In `prefix + "p(95)=" + digits + u` the reported match is the last marker, with the whole
      digit string as its value. */
  lemma PlainFigureReported(prefix: string, digits: string, u: string)
    requires NoNewline(prefix)
    requires |digits| >= 1 && forall k :: 0 <= k < |digits| ==> IsAsciiDigit(digits[k])
    requires IsUnit(u)
    ensures Reported(prefix + Marker + digits + u, Match(|prefix|, |digits|, u))
  {
    var s := prefix + Marker + digits + u;
    var a := |prefix| + |Marker|;
    var b := a + |digits|;
    var m := Match(|prefix|, |digits|, u);
    assert s[..|prefix|] == prefix;
    assert s[|prefix|..a] == Marker;
    assert s[a..b] == digits;
    assert s[b..b + |u|] == u;
    assert Matches(s, m);
    NoLaterMarker(prefix, digits, u);
    NoShorterValue(prefix, digits, u);
  }

  /** A line ending in `p(95)=` followed by a plain number and its unit, such as
      `avg=0s p(90)=0s p(95)=0s` or `p(95)=12ms`, yields that number and that unit. */
  lemma ParsePlainFigure(prefix: string, digits: string, u: string)
    requires NoNewline(prefix) && (prefix == [] || !IsSpace(prefix[0]))
    requires |digits| >= 1 && forall k :: 0 <= k < |digits| ==> IsAsciiDigit(digits[k])
    requires IsUnit(u)
    ensures ParseLine(prefix + Marker + digits + u)
              == Some(LineStats(digits, u, digits + u, prefix + Marker + digits + u))
  {
    var s := prefix + Marker + digits + u;
    var m := Match(|prefix|, |digits|, u);
    assert s[0] == if prefix == [] then 'p' else prefix[0];
    assert s[|s| - 1] == 's';
    StripUnchanged(s);
    PlainFigureReported(prefix, digits, u);
    ParseLineSpec(s);
    var m' :| Reported(s, m') && ParseLine(s) == Some(StatsOf(s, m'));
    ReportedUnique(s, m, m');
    assert s[m.ValueStart()..m.ValueEnd()] == digits;
  }

  /** A line with an entry added by `parse_file`. */
  datatype NumberedStats = NumberedStats(stats: LineStats, lineNumber: nat)

  predicate Accepts(parse: string -> Option<LineStats>, lines: seq<string>, i: nat)
    requires i < |lines|
  {
    parse(lines[i]).Some?
  }

  /** The entries `parse_file` has collected after its first `n` lines: those that `parse`
      accepts, in order, each with its 1-based line number. */
  function AcceptedLines(parse: string -> Option<LineStats>, lines: seq<string>, n: nat): seq<NumberedStats>
    requires n <= |lines|
  {
    if n == 0 then []
    else
      var before := AcceptedLines(parse, lines, n - 1);
      match parse(lines[n - 1])
      case Some(stats) => before + [NumberedStats(stats, n)]
      case None => before
  }

  /** The entries are the accepted lines among the first `n`, each exactly once, in line order. */
  lemma {:induction false} AcceptedLinesSpec(parse: string -> Option<LineStats>, lines: seq<string>, n: nat)
    requires n <= |lines|
    ensures var parsed := AcceptedLines(parse, lines, n);
            && |parsed| <= n
            && (forall j :: 0 <= j < |parsed| ==> 1 <= parsed[j].lineNumber <= n)
            && (forall j :: 0 <= j < |parsed| ==> parse(lines[parsed[j].lineNumber - 1]) == Some(parsed[j].stats))
            && (forall j, j' :: 0 <= j < j' < |parsed| ==> parsed[j].lineNumber < parsed[j'].lineNumber)
            && (forall i :: 0 <= i < n && Accepts(parse, lines, i) ==>
                  exists j :: 0 <= j < |parsed| && parsed[j].lineNumber == i + 1)
  {
    if n > 0 {
      var before := AcceptedLines(parse, lines, n - 1);
      var parsed := AcceptedLines(parse, lines, n);
      AcceptedLinesSpec(parse, lines, n - 1);
      forall i | 0 <= i < n && Accepts(parse, lines, i)
        ensures exists j :: 0 <= j < |parsed| && parsed[j].lineNumber == i + 1
      {
        if i < n - 1 {
          var j :| 0 <= j < |before| && before[j].lineNumber == i + 1;
          assert parsed[j] == before[j];
        } else {
          assert parsed[|parsed| - 1].lineNumber == i + 1;
        }
      }
    }
  }

  /** The loop of `parse_file`, for any line parser: numbers the lines from 1 and keeps those
      the parser accepts. */
  method NumberAccepted(lines: seq<string>, parse: string -> Option<LineStats>) returns (parsed: seq<NumberedStats>)
    ensures parsed == AcceptedLines(parse, lines, |lines|)
  {
    parsed := [];
    for lineNum := 1 to |lines| + 1
      invariant parsed == AcceptedLines(parse, lines, lineNum - 1)
    {
      var stats := parse(lines[lineNum - 1]);
      if stats.Some? {
        parsed := parsed + [NumberedStats(stats.value, lineNum)];
      }
    }
  }

  /** `parse_file` on the lines of an opened file: the entries are the lines `parse_line`
      accepts, as `AcceptedLinesSpec` describes them. */
  method ParseFile(lines: seq<string>) returns (parsed: seq<NumberedStats>)
    ensures parsed == AcceptedLines(ParseLine, lines, |lines|)
  {
    parsed := NumberAccepted(lines, ParseLine);
  }
}
