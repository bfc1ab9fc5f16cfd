// codex-rs/analytics/src/accepted_lines.rs: counting and fingerprinting the lines of a unified diff.
// Unicode's character classes are parameters; a fingerprint is kept as the pair it hashes.

module AcceptedLines {
  import opened Sequences

  datatype Classes = Classes(isWhitespace: char -> bool, isAlphanumeric: char -> bool)

  datatype Fingerprint = Fingerprint(path: string, line: string)

  datatype Summary = Summary(added: nat, deleted: nat, fingerprints: seq<Fingerprint>)

  // ---- Text ----

  predicate StartsWith(s: string, prefix: string) {
    prefix <= s
  }

  function StripCr(line: string): string {
    if line != [] && line[|line| - 1] == '\r' then line[..|line| - 1] else line
  }

  function IndexOf(s: string, c: char): (i: nat)
    ensures i <= |s| && c !in s[..i] && (i < |s| ==> s[i] == c)
  {
    if s == [] || s[0] == c then 0 else 1 + IndexOf(s[1..], c)
  }

  /** `str::lines`. */
  function Lines(text: string): seq<string>
    decreases |text|
  {
    if text == [] then []
    else
      var i := IndexOf(text, '\n');
      if i == |text| then [text] else [StripCr(text[..i])] + Lines(text[i + 1..])
  }

  function WordLength(cs: Classes, s: string): (n: nat)
    ensures n <= |s| && (s != [] && !cs.isWhitespace(s[0]) ==> n > 0)
    ensures forall i :: 0 <= i < n ==> !cs.isWhitespace(s[i])
    ensures n < |s| ==> cs.isWhitespace(s[n])
  {
    if s == [] || cs.isWhitespace(s[0]) then 0 else 1 + WordLength(cs, s[1..])
  }

  /** `str::split_whitespace`. */
  function Words(cs: Classes, s: string): seq<string>
    decreases |s|
  {
    if s == [] then []
    else if cs.isWhitespace(s[0]) then Words(cs, s[1..])
    else
      var n := WordLength(cs, s);
      [s[..n]] + Words(cs, s[n..])
  }

  function JoinWords(ws: seq<string>): string {
    if ws == [] then [] else if |ws| == 1 then ws[0] else ws[0] + (" " + JoinWords(ws[1..]))
  }

  function TrimStart(cs: Classes, s: string): string {
    if s != [] && cs.isWhitespace(s[0]) then TrimStart(cs, s[1..]) else s
  }

  function TrimEnd(cs: Classes, s: string): string {
    if s != [] && cs.isWhitespace(s[|s| - 1]) then TrimEnd(cs, s[..|s| - 1]) else s
  }

  function Utf8Length(s: string): nat {
    if s == [] then 0
    else
      var c := s[0] as int;
      (if c < 0x80 then 1 else if c < 0x800 then 2 else if c < 0x10000 then 3 else 4) + Utf8Length(s[1..])
  }

  /** `normalize_diff_path`. */
  function NormalizePath(cs: Classes, path: string): Option<string> {
    var p := TrimEnd(cs, TrimStart(cs, path));
    if p == "/dev/null" then None
    else if StartsWith(p, "b/") || StartsWith(p, "a/") then Some(p[2..])
    else Some(p)
  }

  predicate Effective(cs: Classes, c: char) {
    cs.isAlphanumeric(c) || c == '_'
  }

  /** `normalize_effective_line`. */
  function NormalizeLine(cs: Classes, line: string): Option<string> {
    var n := JoinWords(Words(cs, line));
    if Utf8Length(n) <= 3 then None
    else if forall c :: c in n ==> !Effective(cs, c) then None
    else Some(n)
  }

  // ---- Normalising keeps exactly the words ----

  ghost predicate IsWord(cs: Classes, w: string) {
    w != [] && forall c :: c in w ==> !cs.isWhitespace(c)
  }

  lemma {:induction false} WordsAreWords(cs: Classes, s: string)
    ensures forall w :: w in Words(cs, s) ==> IsWord(cs, w)
    decreases |s|
  {
    if s != [] {
      if cs.isWhitespace(s[0]) {
        WordsAreWords(cs, s[1..]);
      } else {
        WordsAreWords(cs, s[WordLength(cs, s)..]);
      }
    }
  }

  lemma WordLengthOf(cs: Classes, w: string, rest: string)
    requires IsWord(cs, w) && (rest == [] || cs.isWhitespace(rest[0]))
    ensures WordLength(cs, w + rest) == |w|
  {
    var s, n := w + rest, WordLength(cs, w + rest);
    assert forall i :: 0 <= i < |w| ==> s[i] == w[i] && !cs.isWhitespace(w[i]);
    assert |w| < |s| ==> s[|w|] == rest[0];
  }

  lemma {:induction false} WordsOfJoin(cs: Classes, ws: seq<string>)
    requires cs.isWhitespace(' ') && forall w :: w in ws ==> IsWord(cs, w)
    ensures Words(cs, JoinWords(ws)) == ws
  {
    if ws != [] {
      var w, rest := ws[0], if |ws| == 1 then [] else " " + JoinWords(ws[1..]);
      var s := w + rest;
      assert JoinWords(ws) == s;
      WordLengthOf(cs, w, rest);
      assert s[0] == w[0] && w[0] in w;
      assert s[..|w|] == w && s[|w|..] == rest;
      if |ws| > 1 {
        WordsOfJoin(cs, ws[1..]);
        assert rest[1..] == JoinWords(ws[1..]);
        assert Words(cs, rest) == ws[1..];
      }
      assert ws == [w] + ws[1..];
    }
  }

  /**
   * A normalised line has the words of the line it came from, so it is a fixed point,
   * and lines are fingerprinted alike exactly when they have the same words.
   */
  lemma NormalizeKeepsWords(cs: Classes, a: string, b: string)
    requires cs.isWhitespace(' ') && NormalizeLine(cs, a).Some? && NormalizeLine(cs, b).Some?
    ensures Words(cs, NormalizeLine(cs, a).value) == Words(cs, a)
    ensures NormalizeLine(cs, NormalizeLine(cs, a).value) == NormalizeLine(cs, a)
    ensures NormalizeLine(cs, a) == NormalizeLine(cs, b) <==> Words(cs, a) == Words(cs, b)
  {
    WordsAreWords(cs, a);
    WordsAreWords(cs, b);
    WordsOfJoin(cs, Words(cs, a));
    WordsOfJoin(cs, Words(cs, b));
  }

  lemma {:induction false} CharsOfWords(cs: Classes, s: string, c: char)
    requires cs.isWhitespace(' ') && !cs.isWhitespace(c)
    ensures c in JoinWords(Words(cs, s)) <==> c in s
    decreases |s|
  {
    if s != [] {
      if cs.isWhitespace(s[0]) {
        CharsOfWords(cs, s[1..], c);
        assert s == [s[0]] + s[1..];
      } else {
        var n := WordLength(cs, s);
        CharsOfWords(cs, s[n..], c);
        assert s == s[..n] + s[n..];
        assert Words(cs, s)[1..] == Words(cs, s[n..]);
      }
    }
  }

  /** A line counts exactly when it has a letter, digit or underscore and its words take more than three bytes. */
  lemma EffectiveLine(cs: Classes, line: string)
    requires cs.isWhitespace(' ') && forall c :: cs.isWhitespace(c) ==> !Effective(cs, c)
    ensures NormalizeLine(cs, line).Some? <==>
      (exists c :: c in line && Effective(cs, c)) && Utf8Length(JoinWords(Words(cs, line))) > 3
  {
    forall c | Effective(cs, c) ensures c in JoinWords(Words(cs, line)) <==> c in line {
      CharsOfWords(cs, line, c);
    }
  }

  // ---- Paths ----

  ghost predicate Blank(cs: Classes, s: string) {
    forall c :: c in s ==> cs.isWhitespace(c)
  }

  /** Nothing to trim. */
  ghost predicate Tight(cs: Classes, s: string) {
    s != [] && !cs.isWhitespace(s[0]) && !cs.isWhitespace(s[|s| - 1])
  }

  lemma {:induction false} TrimStartPadded(cs: Classes, x: string, s: string)
    requires Blank(cs, x) && s != [] && !cs.isWhitespace(s[0])
    ensures TrimStart(cs, x + s) == s
    decreases |x|
  {
    if x == [] {
      assert x + s == s;
    } else {
      assert x[0] in x && (x + s)[0] == x[0] && (x + s)[1..] == x[1..] + s;
      TrimStartPadded(cs, x[1..], s);
    }
  }

  lemma {:induction false} TrimEndPadded(cs: Classes, s: string, y: string)
    requires Blank(cs, y) && s != [] && !cs.isWhitespace(s[|s| - 1])
    ensures TrimEnd(cs, s + y) == s
    decreases |y|
  {
    if y == [] {
      assert s + y == s;
    } else {
      var t := s + y;
      assert y[|y| - 1] in y && t[|t| - 1] == y[|y| - 1] && t[..|t| - 1] == s + y[..|y| - 1];
      TrimEndPadded(cs, s, y[..|y| - 1]);
    }
  }

  /**
   * The path after `+++ `, whatever white space surrounds it: git's `a/` or `b/` comes off once,
   * `/dev/null` (a deleted file) gives no path, and any other path is kept.
   */
  lemma PathOfHeader(cs: Classes, x: string, p: string, y: string)
    requires Blank(cs, x) && Tight(cs, p) && Blank(cs, y)
    ensures NormalizePath(cs, x + (p + y)).None? <==> p == "/dev/null"
    ensures forall q :: p == "b/" + q || p == "a/" + q ==> NormalizePath(cs, x + (p + y)) == Some(q)
    ensures p != "/dev/null" && !StartsWith(p, "a/") && !StartsWith(p, "b/") ==>
      NormalizePath(cs, x + (p + y)) == Some(p)
  {
    TrimStartPadded(cs, x, p + y);
    TrimEndPadded(cs, p, y);
  }

  // ---- The scanner ----

  datatype Scan = Scan(path: Option<string>, inHunk: bool, summary: Summary)

  const START := Scan(None, false, Summary(0, 0, []))

  function FingerprintOf(cs: Classes, path: Option<string>, line: string): seq<Fingerprint> {
    if path.Some? && NormalizeLine(cs, line).Some?
    then [Fingerprint(path.value, NormalizeLine(cs, line).value)] else []
  }

  function Plus(s: Summary, t: Summary): Summary {
    Summary(s.added + t.added, s.deleted + t.deleted, s.fingerprints + t.fingerprints)
  }

  function ScanLine(cs: Classes, s: Scan, line: string): Scan {
    if StartsWith(line, "diff --git ") then Scan(None, false, s.summary)
    else if StartsWith(line, "@@ ") then s.(inHunk := true)
    else if !s.inHunk && StartsWith(line, "+++ ") then s.(path := NormalizePath(cs, line[4..]))
    else if !s.inHunk && StartsWith(line, "--- ") then s
    else if StartsWith(line, "+") then
      s.(summary := Plus(s.summary, Summary(1, 0, FingerprintOf(cs, s.path, line[1..]))))
    else if StartsWith(line, "-") then s.(summary := Plus(s.summary, Summary(0, 1, [])))
    else s
  }

  function ScanLines(cs: Classes, s: Scan, lines: seq<string>): Scan
    decreases |lines|
  {
    if lines == [] then s else ScanLines(cs, ScanLine(cs, s, lines[0]), lines[1..])
  }

  lemma {:induction false} ScanConcat(cs: Classes, s: Scan, a: seq<string>, b: seq<string>)
    ensures ScanLines(cs, s, a + b) == ScanLines(cs, ScanLines(cs, s, a), b)
    decreases |a|
  {
    if a == [] {
      assert a + b == b;
    } else {
      assert (a + b)[0] == a[0] && (a + b)[1..] == a[1..] + b;
      ScanConcat(cs, ScanLine(cs, s, a[0]), a[1..], b);
    }
  }

  lemma ScanSnoc(cs: Classes, s: Scan, a: seq<string>, line: string)
    ensures ScanLines(cs, s, a + [line]) == ScanLine(cs, ScanLines(cs, s, a), line)
  {
    ScanConcat(cs, s, a, [line]);
    assert [line][1..] == [];
  }

  /** `accepted_line_fingerprints_from_unified_diff`. */
  method FingerprintsFromUnifiedDiff(cs: Classes, unifiedDiff: string) returns (r: Summary)
    ensures r == ScanLines(cs, START, Lines(unifiedDiff)).summary
  {
    var currentPath: Option<string>, inHunk := None, false;
    var added, deleted: nat, fingerprints: seq<Fingerprint> := 0, 0, [];
    var lines := Lines(unifiedDiff);
    for i := 0 to |lines|
      invariant Scan(currentPath, inHunk, Summary(added, deleted, fingerprints)) == ScanLines(cs, START, lines[..i])
    {
      var line := lines[i];
      assert lines[..i + 1] == lines[..i] + [line];
      ScanSnoc(cs, START, lines[..i], line);
      if StartsWith(line, "diff --git ") {
        currentPath, inHunk := None, false;
        continue;
      }
      if StartsWith(line, "@@ ") {
        inHunk := true;
        continue;
      }
      if !inHunk && StartsWith(line, "+++ ") {
        currentPath := NormalizePath(cs, line[4..]);
        continue;
      }
      if !inHunk && StartsWith(line, "--- ") {
        continue;
      }
      if StartsWith(line, "+") {
        added := added + 1;
        var normalized := NormalizeLine(cs, line[1..]);
        if currentPath.Some? && normalized.Some? {
          fingerprints := fingerprints + [Fingerprint(currentPath.value, normalized.value)];
        }
        continue;
      }
      if StartsWith(line, "-") {
        deleted := deleted + 1;
      }
    }
    assert lines[..|lines|] == lines;
    r := Summary(added, deleted, fingerprints);
  }

  // ---- Git diffs as git writes them ----

  datatype HunkLine = Added(text: string) | Deleted(text: string) | Context(text: string) | NoNewline(text: string)

  datatype Hunk = Hunk(range: string, lines: seq<HunkLine>)

  datatype Body = Body(oldPath: string, newPath: string, hunks: seq<Hunk>)

  /** One file: its `diff --git` line, extended header lines, and the textual change unless it has none. */
  datatype FileDiff = FileDiff(names: string, extended: seq<string>, body: Option<Body>)

  predicate ExtendedHeader(line: string) {
    !StartsWith(line, "+") && !StartsWith(line, "-") && !StartsWith(line, "@@ ") && !StartsWith(line, "diff --git ")
  }

  predicate WellFormed(d: seq<FileDiff>) {
    forall f :: f in d ==> forall l :: l in f.extended ==> ExtendedHeader(l)
  }

  function RenderLine(l: HunkLine): string {
    match l
    case Added(t) => "+" + t
    case Deleted(t) => "-" + t
    case Context(t) => " " + t
    case NoNewline(t) => "\\" + t
  }

  function RenderLines(ls: seq<HunkLine>): seq<string> {
    if ls == [] then [] else [RenderLine(ls[0])] + RenderLines(ls[1..])
  }

  function RenderHunks(hs: seq<Hunk>): seq<string> {
    if hs == [] then [] else (["@@ " + hs[0].range] + RenderLines(hs[0].lines)) + RenderHunks(hs[1..])
  }

  function RenderBody(b: Option<Body>): seq<string> {
    if b.None? then [] else ["--- " + b.value.oldPath, "+++ " + b.value.newPath] + RenderHunks(b.value.hunks)
  }

  function RenderFile(f: FileDiff): seq<string> {
    ["diff --git " + f.names] + (f.extended + RenderBody(f.body))
  }

  function Render(d: seq<FileDiff>): seq<string> {
    if d == [] then [] else RenderFile(d[0]) + Render(d[1..])
  }

  // ---- What a git diff says ----

  const NOTHING := Summary(0, 0, [])

  function LineSummary(cs: Classes, path: Option<string>, l: HunkLine): Summary {
    match l
    case Added(t) => Summary(1, 0, FingerprintOf(cs, path, t))
    case Deleted(_) => Summary(0, 1, [])
    case _ => NOTHING
  }

  function LinesSummary(cs: Classes, path: Option<string>, ls: seq<HunkLine>): Summary {
    if ls == [] then NOTHING else Plus(LineSummary(cs, path, ls[0]), LinesSummary(cs, path, ls[1..]))
  }

  function HunksSummary(cs: Classes, path: Option<string>, hs: seq<Hunk>): Summary {
    if hs == [] then NOTHING else Plus(LinesSummary(cs, path, hs[0].lines), HunksSummary(cs, path, hs[1..]))
  }

  /** The changes of the files in order, each added line under its own file's new path. */
  function DiffSummary(cs: Classes, d: seq<FileDiff>): Summary {
    if d == [] then NOTHING
    else
      var b := d[0].body;
      var first := if b.None? then NOTHING else HunksSummary(cs, NormalizePath(cs, b.value.newPath), b.value.hunks);
      Plus(first, DiffSummary(cs, d[1..]))
  }

  lemma PlusAssoc(a: Summary, b: Summary, c: Summary)
    ensures Plus(Plus(a, b), c) == Plus(a, Plus(b, c)) && Plus(a, NOTHING) == a
  {
  }

  /** Inside a hunk every line is taken by its first character, even one that looks like a file header. */
  lemma ScanHunkLine(cs: Classes, s: Scan, l: HunkLine)
    requires s.inHunk
    ensures ScanLine(cs, s, RenderLine(l)) == s.(summary := Plus(s.summary, LineSummary(cs, s.path, l)))
  {
    var r := RenderLine(l);
    assert r[1..] == l.text;
    assert r[0] != 'd' && r[0] != '@';
    PlusAssoc(s.summary, NOTHING, NOTHING);
  }

  lemma {:induction false} ScanHunkLines(cs: Classes, s: Scan, ls: seq<HunkLine>)
    requires s.inHunk
    ensures ScanLines(cs, s, RenderLines(ls)) == s.(summary := Plus(s.summary, LinesSummary(cs, s.path, ls)))
    decreases |ls|
  {
    if ls == [] {
      PlusAssoc(s.summary, NOTHING, NOTHING);
    } else {
      ScanHunkLine(cs, s, ls[0]);
      var s' := ScanLine(cs, s, RenderLine(ls[0]));
      assert RenderLines(ls)[1..] == RenderLines(ls[1..]);
      ScanHunkLines(cs, s', ls[1..]);
      PlusAssoc(s.summary, LineSummary(cs, s.path, ls[0]), LinesSummary(cs, s.path, ls[1..]));
    }
  }

  lemma {:induction false} ScanHunks(cs: Classes, s: Scan, hs: seq<Hunk>)
    ensures var r := ScanLines(cs, s, RenderHunks(hs));
            r.path == s.path && r.summary == Plus(s.summary, HunksSummary(cs, s.path, hs))
    decreases |hs|
  {
    if hs == [] {
      PlusAssoc(s.summary, NOTHING, NOTHING);
    } else {
      var head := "@@ " + hs[0].range;
      var ls := RenderLines(hs[0].lines);
      ScanConcat(cs, s, [head] + ls, RenderHunks(hs[1..]));
      assert ([head] + ls)[1..] == ls && head[0] == '@';
      var s' := s.(inHunk := true);
      assert ScanLine(cs, s, head) == s';
      ScanHunkLines(cs, s', hs[0].lines);
      ScanHunks(cs, ScanLines(cs, s', ls), hs[1..]);
      PlusAssoc(s.summary, LinesSummary(cs, s.path, hs[0].lines), HunksSummary(cs, s.path, hs[1..]));
    }
  }

  lemma PrefixOfPrefix(l: string)
    ensures StartsWith(l, "+++ ") ==> StartsWith(l, "+")
    ensures StartsWith(l, "--- ") ==> StartsWith(l, "-")
  {
    assert "+" <= "+++ " && "-" <= "--- ";
  }

  lemma {:induction false} ScanExtended(cs: Classes, s: Scan, ls: seq<string>)
    requires !s.inHunk && forall l :: l in ls ==> ExtendedHeader(l)
    ensures ScanLines(cs, s, ls) == s
    decreases |ls|
  {
    if ls != [] {
      var l := ls[0];
      assert l in ls;
      assert !StartsWith(l, "+++ ") && !StartsWith(l, "--- ") by { PrefixOfPrefix(l); }
      assert ScanLine(cs, s, l) == s;
      ScanExtended(cs, s, ls[1..]);
    }
  }

  lemma ScanBody(cs: Classes, s: Scan, b: Body)
    requires !s.inHunk
    ensures ScanLines(cs, s, RenderBody(Some(b))).summary
         == Plus(s.summary, HunksSummary(cs, NormalizePath(cs, b.newPath), b.hunks))
  {
    var old', new' := "--- " + b.oldPath, "+++ " + b.newPath;
    assert old'[0] == '-' && new'[0] == '+' && new'[4..] == b.newPath;
    assert StartsWith(old', "--- ") && StartsWith(new', "+++ ");
    var s1 := s.(path := NormalizePath(cs, b.newPath));
    assert ScanLine(cs, s, old') == s && ScanLine(cs, s, new') == s1;
    ScanConcat(cs, s, [old', new'], RenderHunks(b.hunks));
    ScanSnoc(cs, s, [old'], new');
    ScanSnoc(cs, s, [], old');
    assert [old'] + [new'] == [old', new'] && [] + [old'] == [old'];
    ScanHunks(cs, s1, b.hunks);
  }

  lemma ScanFile(cs: Classes, s: Scan, f: FileDiff)
    requires forall l :: l in f.extended ==> ExtendedHeader(l)
    ensures ScanLines(cs, s, RenderFile(f)).summary == Plus(s.summary,
      if f.body.None? then NOTHING else HunksSummary(cs, NormalizePath(cs, f.body.value.newPath), f.body.value.hunks))
  {
    var head := "diff --git " + f.names;
    assert StartsWith(head, "diff --git ");
    var s1 := Scan(None, false, s.summary);
    assert RenderFile(f)[1..] == f.extended + RenderBody(f.body);
    assert ScanLine(cs, s, head) == s1;
    ScanConcat(cs, s1, f.extended, RenderBody(f.body));
    ScanExtended(cs, s1, f.extended);
    if f.body.Some? {
      ScanBody(cs, s1, f.body.value);
    }
    PlusAssoc(s.summary, NOTHING, NOTHING);
  }

  lemma {:induction false} ScanDiff(cs: Classes, s: Scan, d: seq<FileDiff>)
    requires WellFormed(d)
    ensures ScanLines(cs, s, Render(d)).summary == Plus(s.summary, DiffSummary(cs, d))
    decreases |d|
  {
    if d == [] {
      PlusAssoc(s.summary, NOTHING, NOTHING);
    } else {
      assert d[0] in d;
      ScanConcat(cs, s, RenderFile(d[0]), Render(d[1..]));
      ScanFile(cs, s, d[0]);
      ScanDiff(cs, ScanLines(cs, s, RenderFile(d[0])), d[1..]);
      var b := d[0].body;
      var first := if b.None? then NOTHING else HunksSummary(cs, NormalizePath(cs, b.value.newPath), b.value.hunks);
      PlusAssoc(s.summary, first, DiffSummary(cs, d[1..]));
    }
  }

  // ---- From lines to text ----

  function JoinLines(ls: seq<string>): string {
    if ls == [] then [] else ls[0] + ("\n" + JoinLines(ls[1..]))
  }

  function StripAll(ls: seq<string>): seq<string> {
    if ls == [] then [] else [StripCr(ls[0])] + StripAll(ls[1..])
  }

  lemma {:induction false} IndexOfAfter(l: string, rest: string, c: char)
    requires c !in l && rest != [] && rest[0] == c
    ensures IndexOf(l + rest, c) == |l|
  {
    if l != [] {
      assert (l + rest)[0] == l[0] && (l + rest)[1..] == l[1..] + rest;
      IndexOfAfter(l[1..], rest, c);
    }
  }

  lemma {:induction false} LinesOfJoin(ls: seq<string>)
    requires forall l :: l in ls ==> '\n' !in l
    ensures Lines(JoinLines(ls)) == StripAll(ls)
    decreases |ls|
  {
    if ls != [] {
      var l, rest := ls[0], "\n" + JoinLines(ls[1..]);
      var text := l + rest;
      assert l in ls;
      IndexOfAfter(l, rest, '\n');
      assert text[..|l|] == l && text[|l| + 1..] == JoinLines(ls[1..]);
      LinesOfJoin(ls[1..]);
    }
  }

  lemma {:induction false} WordsTrailing(cs: Classes, s: string, c: char)
    requires cs.isWhitespace(c)
    ensures Words(cs, s + [c]) == Words(cs, s)
    decreases |s|
  {
    var t := s + [c];
    if s == [] {
      assert t[1..] == [];
    } else if cs.isWhitespace(s[0]) {
      assert t[0] == s[0] && t[1..] == s[1..] + [c];
      WordsTrailing(cs, s[1..], c);
    } else {
      var n := WordLength(cs, s);
      assert s[..n] + (s[n..] + [c]) == t;
      assert IsWord(cs, s[..n]);
      WordLengthOf(cs, s[..n], s[n..] + [c]);
      assert t[0] == s[0] && t[..n] == s[..n] && t[n..] == s[n..] + [c];
      WordsTrailing(cs, s[n..], c);
    }
  }

  lemma {:induction false} TrimTrailing(cs: Classes, s: string, c: char)
    requires cs.isWhitespace(c)
    ensures TrimEnd(cs, TrimStart(cs, s + [c])) == TrimEnd(cs, TrimStart(cs, s))
    decreases |s|
  {
    var t := s + [c];
    if s == [] {
      assert t[1..] == [];
    } else if cs.isWhitespace(s[0]) {
      assert t[0] == s[0] && t[1..] == s[1..] + [c];
      TrimTrailing(cs, s[1..], c);
    } else {
      assert t[0] == s[0] && t[..|s|] == s;
    }
  }

  lemma PathIgnoresCr(cs: Classes, l: string)
    requires cs.isWhitespace('\r') && |l| >= 4
    ensures NormalizePath(cs, (l + ['\r'])[4..]) == NormalizePath(cs, l[4..])
  {
    assert (l + ['\r'])[4..] == l[4..] + ['\r'];
    TrimTrailing(cs, l[4..], '\r');
  }

  lemma LineIgnoresCr(cs: Classes, l: string)
    requires cs.isWhitespace('\r') && l != []
    ensures NormalizeLine(cs, (l + ['\r'])[1..]) == NormalizeLine(cs, l[1..])
  {
    assert (l + ['\r'])[1..] == l[1..] + ['\r'];
    WordsTrailing(cs, l[1..], '\r');
  }

  lemma PrefixWithCr(l: string, prefix: string)
    requires '\r' !in prefix
    ensures StartsWith(l + ['\r'], prefix) <==> StartsWith(l, prefix)
  {
    var t := l + ['\r'];
    if |prefix| == |t| {
      assert t[|l|] == '\r' && '\r' in t;
    } else if |prefix| <= |l| {
      assert t[..|prefix|] == l[..|prefix|];
    }
  }

  /** A carriage return before the line end changes nothing the scanner looks at. */
  lemma ScanIgnoresCr(cs: Classes, s: Scan, line: string)
    requires cs.isWhitespace('\r')
    ensures ScanLine(cs, s, StripCr(line)) == ScanLine(cs, s, line)
  {
    var l := StripCr(line);
    if l != line {
      assert line == l + ['\r'];
      PrefixWithCr(l, "diff --git ");
      PrefixWithCr(l, "@@ ");
      PrefixWithCr(l, "+++ ");
      PrefixWithCr(l, "--- ");
      PrefixWithCr(l, "+");
      PrefixWithCr(l, "-");
      if StartsWith(l, "+++ ") { PathIgnoresCr(cs, l); }
      if StartsWith(l, "+") { LineIgnoresCr(cs, l); }
    }
  }

  lemma {:induction false} ScanStripped(cs: Classes, s: Scan, ls: seq<string>)
    requires cs.isWhitespace('\r')
    ensures ScanLines(cs, s, StripAll(ls)) == ScanLines(cs, s, ls)
    decreases |ls|
  {
    if ls != [] {
      ScanIgnoresCr(cs, s, ls[0]);
      ScanStripped(cs, ScanLine(cs, s, ls[0]), ls[1..]);
      assert StripAll(ls)[1..] == StripAll(ls[1..]);
    }
  }

  /**
   * Scanning the text of any git diff, with either line ending, gives exactly what the diff says:
   * the numbers of added and deleted hunk lines, and the effective added lines in order under their file's path.
   */
  lemma GitDiffSummarised(cs: Classes, d: seq<FileDiff>)
    requires cs.isWhitespace('\r') && WellFormed(d) && forall l :: l in Render(d) ==> '\n' !in l
    ensures ScanLines(cs, START, Lines(JoinLines(Render(d)))).summary == DiffSummary(cs, d)
  {
    LinesOfJoin(Render(d));
    ScanStripped(cs, START, Render(d));
    ScanDiff(cs, START, d);
  }
}
