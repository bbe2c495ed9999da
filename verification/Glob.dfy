// source/box-exec-daemon/server.ts: ignore patterns of `ls`, compiled to regular expressions.
//
// A `char` stands for one UTF-16 code unit. The regular expressions are ECMAScript sources without
// flags; `Parse` reads the part of that grammar the compiler writes, `Matches` gives it meaning.

module Glob {
  import opened Common

  // ----- the tokens of a glob -----

  datatype Token = Segments | Anything | Within | One | Literal(c: char)

  function First(g: string): Token
    requires g != ""
  {
    if g[0] == '*' then
      if |g| > 1 && g[1] == '*' then
        if |g| > 2 && g[2] == '/' then Segments else Anything
      else Within
    else if g[0] == '?' then One
    else Literal(g[0])
  }

  function Width(t: Token): nat {
    if t.Segments? then 3 else if t.Anything? then 2 else 1
  }

  function Rest(g: string): (rest: string)
    requires g != ""
    ensures |rest| < |g|
  {
    g[Width(First(g))..]
  }

  // ----- the compiler -----

  const SPECIALS := ".+^${}()|[]\\"

  predicate Anchored(glob: string) {
    (|glob| > 2 && glob[0] == '*' && glob[1] == '*' && glob[2] == '/') || (glob != "" && glob[0] == '/')
  }

  function AnchoredGlob(glob: string): string {
    if Anchored(glob) then glob else "**/" + glob
  }

  function Written(t: Token): string {
    match t
    case Segments => "(?:.*/)?"
    case Anything => ".*"
    case Within => "[^/]*"
    case One => "[^/]"
    case Literal(c) => if c in SPECIALS then ['\\', c] else [c]
  }

  function Emit(g: string): string {
    if g == "" then "" else Written(First(g)) + Emit(Rest(g))
  }

  function Compiled(glob: string): string {
    "^" + Emit(AnchoredGlob(glob)) + "$"
  }

  lemma EmitNext(g: string, out: string, i: nat)
    requires i < |g|
    ensures var t := First(g[i..]);
            i + Width(t) <= |g| && out + Emit(g[i..]) == (out + Written(t)) + Emit(g[i + Width(t)..])
  {
    assert Rest(g[i..]) == g[i + Width(First(g[i..]))..];
  }

  /** The loop over the pattern writes the source `Compiled` describes. */
  method GlobToIgnoreRegExp(glob: string) returns (source: string)
    ensures source == Compiled(glob)
  {
    hide Emit;
    var anchored := if Anchored(glob) then glob else "**/" + glob;
    var out, i: nat := "", 0;
    assert anchored[0..] == anchored;
    while i < |anchored|
      invariant i <= |anchored|
      invariant out + Emit(anchored[i..]) == Emit(anchored)
    {
      var c := anchored[i];
      EmitNext(anchored, out, i);
      if c == '*' {
        if i + 1 < |anchored| && anchored[i + 1] == '*' {
          if i + 2 < |anchored| && anchored[i + 2] == '/' {
            out := out + "(?:.*/)?";
            i := i + 2;
          } else {
            out := out + ".*";
            i := i + 1;
          }
        } else {
          out := out + "[^/]*";
        }
      } else if c == '?' {
        out := out + "[^/]";
      } else if c in SPECIALS {
        out := out + ['\\', c];
      } else {
        out := out + [c];
      }
      i := i + 1;
    }
    EmitNothing();
    assert anchored[i..] == "" && out + "" == out;
    return "^" + out + "$";
  }

  lemma EmitNothing()
    ensures Emit("") == ""
  {
  }

  // ----- regular expressions -----

  datatype Regex =
    | Empty
    | Char(c: char)
    | Dot
    | NotSlash
    | Star(body: Regex)
    | Optional(body: Regex)
    | Cat(first: Regex, second: Regex)

  datatype Parsed = Parsed(regex: Regex, rest: string)

  predicate LineTerminator(c: char) {
    c == '\n' || c == '\r' || c == '\U{2028}' || c == '\U{2029}'
  }

  ghost predicate Matches(r: Regex, w: string)
    decreases r, |w|
  {
    match r
    case Empty => w == ""
    case Char(c) => w == [c]
    case Dot => |w| == 1 && !LineTerminator(w[0])
    case NotSlash => |w| == 1 && w[0] != '/'
    case Star(body) => w == "" || exists k :: 0 < k <= |w| && Matches(body, w[..k]) && Matches(r, w[k..])
    case Optional(body) => w == "" || Matches(body, w)
    case Cat(first, second) => exists k :: 0 <= k <= |w| && Matches(first, w[..k]) && Matches(second, w[k..])
  }

  /** Terms up to the end of the alternative. */
  function ParseTerms(s: string): (p: Option<Parsed>)
    ensures p.Some? ==> |p.value.rest| <= |s|
    decreases |s|, 1
  {
    if s == "" || s[0] == ')' || s[0] == '$' then Some(Parsed(Empty, s))
    else
      var atom := ParseAtom(s);
      if atom.None? then None
      else
        var term := ParseQuantifier(atom.value);
        var more := ParseTerms(term.rest);
        if more.None? then None else Some(Parsed(Cat(term.regex, more.value.regex), more.value.rest))
  }

  function ParseQuantifier(atom: Parsed): (term: Parsed)
    ensures |term.rest| <= |atom.rest|
  {
    if atom.rest == "" then atom
    else if atom.rest[0] == '*' then Parsed(Star(atom.regex), atom.rest[1..])
    else if atom.rest[0] == '?' then Parsed(Optional(atom.regex), atom.rest[1..])
    else atom
  }

  /** A dot, an escaped syntax character, the class of everything but the slash, a non-capturing group,
      or a character that stands for itself. */
  function ParseAtom(s: string): (p: Option<Parsed>)
    requires s != ""
    ensures p.Some? ==> |p.value.rest| < |s|
    decreases |s|, 0
  {
    if s[0] == '.' then Some(Parsed(Dot, s[1..]))
    else if s[0] == '\\' then
      if |s| > 1 && s[1] in SPECIALS then Some(Parsed(Char(s[1]), s[2..])) else None
    else if |s| > 3 && s[0] == '[' && s[1] == '^' && s[2] == '/' && s[3] == ']' then Some(Parsed(NotSlash, s[4..]))
    else if |s| > 2 && s[0] == '(' && s[1] == '?' && s[2] == ':' then
      var body := ParseTerms(s[3..]);
      if body.Some? && body.value.rest != "" && body.value.rest[0] == ')'
      then Some(Parsed(body.value.regex, body.value.rest[1..]))
      else None
    else if s[0] in SPECIALS || s[0] == '*' || s[0] == '?' then None
    else Some(Parsed(Char(s[0]), s[1..]))
  }

  function Parse(source: string): Option<Regex> {
    if source != "" && source[0] == '^' then
      var body := ParseTerms(source[1..]);
      if body.Some? && body.value.rest == "$" then Some(body.value.regex) else None
    else None
  }

  /** `new RegExp(source).test(path)` */
  ghost predicate Test(source: string, path: string) {
    Parse(source).Some? && Matches(Parse(source).value, path)
  }

  // ----- what a glob denotes -----

  predicate Free(w: string, barred: set<char>) {
    forall i :: 0 <= i < |w| ==> w[i] !in barred
  }

  /** `**` stands for any text without a character in `barred`, and `**` with a slash for any number of
      leading segments; `*` and `?` stop at slashes; everything else stands for itself. */
  ghost predicate Denotes(g: string, path: string, barred: set<char>)
    decreases |g|
  {
    if g == "" then path == ""
    else
      match First(g)
      case Segments =>
        || Denotes(Rest(g), path, barred)
        || exists k :: SegmentStart(path, k) && Free(path[..k - 1], barred) && Denotes(Rest(g), path[k..], barred)
      case Anything => exists k :: 0 <= k <= |path| && Free(path[..k], barred) && Denotes(Rest(g), path[k..], barred)
      case Within => exists k :: 0 <= k <= |path| && Free(path[..k], {'/'}) && Denotes(Rest(g), path[k..], barred)
      case One => path != "" && path[0] != '/' && Denotes(Rest(g), path[1..], barred)
      case Literal(c) => path != "" && path[0] == c && Denotes(Rest(g), path[1..], barred)
  }

  predicate SegmentStart(path: string, k: int) {
    0 < k <= |path| && path[k - 1] == '/'
  }

  const TERMINATORS: set<char> := {'\n', '\r', '\U{2028}', '\U{2029}'}

  // ----- what the compiler writes parses to -----

  const SEGMENTS := Optional(Cat(Star(Dot), Cat(Char('/'), Empty)))

  function Meant(t: Token): Regex {
    match t
    case Segments => SEGMENTS
    case Anything => Star(Dot)
    case Within => Star(NotSlash)
    case One => NotSlash
    case Literal(c) => Char(c)
  }

  function RegexOf(g: string): Regex
    decreases |g|
  {
    if g == "" then Empty else Cat(Meant(First(g)), RegexOf(Rest(g)))
  }

  /** Text that does not start like a quantifier. */
  predicate Clean(s: string) {
    s != "" && s[0] != '*' && s[0] != '?'
  }

  lemma EmitIsClean(g: string)
    ensures Clean(Emit(g) + "$")
    ensures g != "" ==> (Emit(g) + "$")[0] != '$' && (Emit(g) + "$")[0] != ')'
  {
  }

  lemma SlashParses(s: string, rest: string)
    requires s == "/)?" + rest
    ensures ParseTerms(s) == Some(Parsed(Cat(Char('/'), Empty), ")?" + rest))
  {
    assert s[1..] == ")?" + rest;
    assert ParseAtom(s) == Some(Parsed(Char('/'), s[1..]));
  }

  lemma DotsParse(s: string, rest: string)
    requires s == ".*/)?" + rest
    ensures ParseTerms(s) == Some(Parsed(SEGMENTS.body, ")?" + rest))
  {
    var slash := "/)?" + rest;
    SlashParses(slash, rest);
    assert s[1..] == "*" + slash && ("*" + slash)[1..] == slash;
    assert ParseAtom(s) == Some(Parsed(Dot, "*" + slash));
    assert ParseQuantifier(Parsed(Dot, "*" + slash)) == Parsed(Star(Dot), slash);
  }

  lemma GroupParses(s: string, rest: string)
    requires s == "(?:.*/)?" + rest
    ensures ParseAtom(s) == Some(Parsed(SEGMENTS.body, "?" + rest))
  {
    hide ParseTerms;
    assert s[3..] == ".*/)?" + rest;
    DotsParse(s[3..], rest);
    assert (")?" + rest)[1..] == "?" + rest;
  }

  lemma TokenParses(t: Token, s: string, rest: string)
    requires Clean(rest) && s == Written(t) + rest && (t.Literal? ==> t.c != '*' && t.c != '?')
    ensures var atom := ParseAtom(s); atom.Some? && ParseQuantifier(atom.value) == Parsed(Meant(t), rest)
  {
    match t
    case Segments =>
      GroupParses(s, rest);
      assert ("?" + rest)[1..] == rest;
    case Anything =>
      assert s[1..] == "*" + rest && ("*" + rest)[1..] == rest;
    case Within =>
      assert s[4..] == "*" + rest && ("*" + rest)[1..] == rest;
    case One =>
      assert s[4..] == rest;
    case Literal(c) =>
      assert s[|Written(t)|..] == rest;
  }

  lemma TermThenMore(s: string, term: Regex, rest: string, more: Regex)
    requires s != "" && s[0] != ')' && s[0] != '$'
    requires ParseAtom(s).Some? && ParseQuantifier(ParseAtom(s).value) == Parsed(term, rest)
    requires ParseTerms(rest) == Some(Parsed(more, "$"))
    ensures ParseTerms(s) == Some(Parsed(Cat(term, more), "$"))
  {
  }

  lemma {:induction false} EmitParses(g: string)
    ensures ParseTerms(Emit(g) + "$") == Some(Parsed(RegexOf(g), "$"))
    decreases |g|
  {
    if g == "" {
      assert Emit(g) + "$" == "$";
    } else {
      var rest := Emit(Rest(g)) + "$";
      EmitIsClean(g);
      EmitIsClean(Rest(g));
      assert Emit(g) + "$" == Written(First(g)) + rest;
      TokenParses(First(g), Emit(g) + "$", rest);
      EmitParses(Rest(g));
      TermThenMore(Emit(g) + "$", Meant(First(g)), rest, RegexOf(Rest(g)));
    }
  }

  lemma CompiledParses(glob: string)
    ensures Parse(Compiled(glob)) == Some(RegexOf(AnchoredGlob(glob)))
  {
    EmitParses(AnchoredGlob(glob));
    assert Compiled(glob)[1..] == Emit(AnchoredGlob(glob)) + "$";
  }

  // ----- and means what the glob denotes -----

  lemma {:induction false} StarMeaning(atom: Regex, w: string)
    requires atom.Dot? || atom.NotSlash?
    ensures Matches(Star(atom), w) <==> Free(w, if atom.Dot? then TERMINATORS else {'/'})
    decreases |w|
  {
    if w != "" {
      StarMeaning(atom, w[1..]);
      assert w[..1] == [w[0]] && w == w[..1] + w[1..];
      assert Matches(atom, w[..1]) <==> Free(w[..1], if atom.Dot? then TERMINATORS else {'/'});
      assert forall k :: 0 < k <= |w| && Matches(atom, w[..k]) ==> k == 1;
    }
  }

  predicate LeadingSegments(w: string) {
    w == "" || (w[|w| - 1] == '/' && Free(w[..|w| - 1], TERMINATORS))
  }

  lemma SegmentsMeaning(w: string)
    ensures Matches(SEGMENTS, w) <==> LeadingSegments(w)
  {
    hide Free, TERMINATORS;
    var dots, slash := Star(Dot), Cat(Char('/'), Empty);
    if Matches(Cat(dots, slash), w) {
      var k :| 0 <= k <= |w| && Matches(dots, w[..k]) && Matches(slash, w[k..]);
      SlashMeaning(w[k..]);
      StarMeaning(Dot, w[..k]);
    }
    if w != "" && LeadingSegments(w) {
      StarMeaning(Dot, w[..|w| - 1]);
      SlashMeaning(w[|w| - 1..]);
    }
  }

  lemma SlashMeaning(w: string)
    ensures Matches(Cat(Char('/'), Empty), w) <==> w == "/"
  {
    if w == "/" { assert Matches(Char('/'), w[..1]) && Matches(Empty, w[1..]); }
    forall k | 0 <= k <= |w| && Matches(Char('/'), w[..k]) && Matches(Empty, w[k..]) ensures w == "/" {
      assert w == w[..k] + w[k..];
    }
  }

  lemma {:induction false} RegexDenotes(g: string, path: string)
    ensures Matches(RegexOf(g), path) <==> Denotes(g, path, TERMINATORS)
    decreases |g|
  {
    if g != "" {
      forall k | 0 <= k <= |path|
        ensures Matches(RegexOf(Rest(g)), path[k..]) <==> Denotes(Rest(g), path[k..], TERMINATORS)
        ensures Matches(Meant(First(g)), path[..k]) <==> Covers(First(g), path[..k])
      {
        RegexDenotes(Rest(g), path[k..]);
        TokenMeaning(First(g), path[..k]);
      }
      CutMeaning(g, path);
    }
  }

  /** The text one token stands for. */
  ghost predicate Covers(t: Token, w: string) {
    match t
    case Segments => LeadingSegments(w)
    case Anything => Free(w, TERMINATORS)
    case Within => Free(w, {'/'})
    case One => |w| == 1 && w[0] != '/'
    case Literal(c) => w == [c]
  }

  lemma TokenMeaning(t: Token, w: string)
    ensures Matches(Meant(t), w) <==> Covers(t, w)
  {
    match t
    case Segments => SegmentsMeaning(w);
    case Anything => StarMeaning(Dot, w);
    case Within => StarMeaning(NotSlash, w);
    case _ =>
  }

  lemma SegmentsCut(path: string, k: int)
    requires 0 < k <= |path|
    ensures Covers(Segments, path[..k]) <==> SegmentStart(path, k) && Free(path[..k - 1], TERMINATORS)
  {
    hide TERMINATORS, Free;
    assert path[..k][..k - 1] == path[..k - 1];
  }

  /** The path can be cut after a part the first token covers. */
  ghost predicate Cuts(g: string, path: string)
    requires g != ""
  {
    exists k :: 0 <= k <= |path| && Covers(First(g), path[..k]) && Denotes(Rest(g), path[k..], TERMINATORS)
  }

  lemma CutSegments(g: string, path: string)
    requires g != "" && First(g).Segments?
    ensures Denotes(g, path, TERMINATORS) <==> Cuts(g, path)
  {
    hide TERMINATORS, Free, LeadingSegments;
    assert path[0..] == path && path[..0] == "";
    assert Covers(Segments, "") by { SegmentsMeaning(""); assert Matches(SEGMENTS, ""); }
    forall k | 0 < k <= |path|
      ensures Covers(Segments, path[..k]) <==> SegmentStart(path, k) && Free(path[..k - 1], TERMINATORS)
    {
      SegmentsCut(path, k);
    }
    if Cuts(g, path) && !Denotes(Rest(g), path, TERMINATORS) {
      var k :| 0 <= k <= |path| && Covers(First(g), path[..k]) && Denotes(Rest(g), path[k..], TERMINATORS);
      assert k > 0;
    }
    if Denotes(Rest(g), path, TERMINATORS) { assert Covers(First(g), path[..0]); }
  }

  lemma CutOne(g: string, path: string)
    requires g != "" && (First(g).One? || First(g).Literal?)
    ensures Denotes(g, path, TERMINATORS) <==> Cuts(g, path)
  {
    hide TERMINATORS;
    assert path != "" ==> path[..1] == [path[0]];
  }

  lemma CutMeaning(g: string, path: string)
    requires g != ""
    ensures Denotes(g, path, TERMINATORS) <==> Cuts(g, path)
  {
    hide TERMINATORS, Free;
    match First(g)
    case Segments => CutSegments(g, path);
    case Anything =>
    case Within =>
    case One => CutOne(g, path);
    case Literal(_) => CutOne(g, path);
  }

  /** The compiled pattern accepts exactly what the glob denotes, with `**` stopped by line
      terminators and by nothing else. */
  lemma CompilerKeepsMeaning(glob: string, path: string)
    ensures Test(Compiled(glob), path) <==> Denotes(AnchoredGlob(glob), path, TERMINATORS)
  {
    CompiledParses(glob);
    RegexDenotes(AnchoredGlob(glob), path);
  }

  lemma {:induction false} BarsDoNotMatter(g: string, path: string, barred: set<char>)
    requires Free(path, barred)
    ensures Denotes(g, path, barred) <==> Denotes(g, path, {})
    decreases |g|
  {
    if g != "" {
      forall k | 0 <= k <= |path| ensures Denotes(Rest(g), path[k..], barred) <==> Denotes(Rest(g), path[k..], {}) {
        BarsDoNotMatter(Rest(g), path[k..], barred);
      }
      assert path[0..] == path;
    }
  }

  /** On a path without line terminators `**` stands for any text at all. */
  lemma PlainPathsGetTheGlob(glob: string, path: string)
    requires Free(path, TERMINATORS)
    ensures Test(Compiled(glob), path) <==> Denotes(AnchoredGlob(glob), path, {})
  {
    CompilerKeepsMeaning(glob, path);
    BarsDoNotMatter(AnchoredGlob(glob), path, TERMINATORS);
  }

  /** A pattern that is not anchored matches what it denotes at the start of the path or at the start
      of any later segment that no line terminator precedes. */
  lemma UnanchoredMatchesAnySegment(glob: string, path: string)
    requires !Anchored(glob)
    ensures Test(Compiled(glob), path) <==>
              || Denotes(glob, path, TERMINATORS)
              || exists k :: SegmentStart(path, k) && Free(path[..k], TERMINATORS) && Denotes(glob, path[k..], TERMINATORS)
  {
    CompilerKeepsMeaning(glob, path);
    var g := AnchoredGlob(glob);
    assert First(g) == Segments && Rest(g) == glob;
    forall k | SegmentStart(path, k) ensures Free(path[..k - 1], TERMINATORS) <==> Free(path[..k], TERMINATORS) {
      assert path[..k] == path[..k - 1] + "/";
    }
  }

  /** `**` before a line terminator is where a compiled pattern and its glob part. */
  lemma LineTerminatorsStopStars()
    ensures Denotes(AnchoredGlob("**"), "a\nb", {}) && !Test(Compiled("**"), "a\nb")
  {
    var g, path := AnchoredGlob("**"), "a\nb";
    assert First(g) == Segments && Rest(g) == "**" && First("**") == Anything && Rest("**") == "";
    assert path[..3] == path && path[3..] == "";
    assert Denotes("**", path, {});
    CompilerKeepsMeaning("**", path);
    assert path[1] == '\n';
    assert forall k :: !SegmentStart(path, k);
    assert forall k :: 0 <= k <= 3 && path[k..] == "" ==> k == 3 && path[..k][1] == '\n';
  }

  predicate Wild(g: string) {
    '*' in g || '?' in g
  }

  /** A pattern without wildcards denotes only itself, whatever syntax characters it holds. */
  lemma {:induction false} LiteralsStandForThemselves(g: string, path: string, barred: set<char>)
    requires !Wild(g)
    ensures Denotes(g, path, barred) <==> path == g
    decreases |g|
  {
    if g != "" {
      assert First(g) == Literal(g[0]) && Rest(g) == g[1..];
      if path != "" {
        LiteralsStandForThemselves(g[1..], path[1..], barred);
        assert g == [g[0]] + g[1..] && path == [path[0]] + path[1..];
      }
    }
  }

  function Slashes(s: string): nat {
    if s == "" then 0 else (if s[0] == '/' then 1 else 0) + Slashes(s[1..])
  }

  lemma {:induction false} SlashesOfJoin(a: string, b: string)
    ensures Slashes(a + b) == Slashes(a) + Slashes(b)
  {
    if a == "" {
      assert a + b == b;
    } else {
      assert (a + b)[1..] == a[1..] + b;
      SlashesOfJoin(a[1..], b);
    }
  }

  lemma {:induction false} NoSlashes(s: string)
    requires Free(s, {'/'})
    ensures Slashes(s) == 0
  {
    if s != "" { NoSlashes(s[1..]); }
  }

  predicate NoDoubleStar(g: string) {
    forall i :: 0 <= i < |g| - 1 ==> g[i] != '*' || g[i + 1] != '*'
  }

  /** Without `**` a glob stays at its depth: `*` and `?` never take a slash. */
  lemma {:induction false} SingleStarsKeepDepth(g: string, path: string, barred: set<char>)
    requires NoDoubleStar(g) && Denotes(g, path, barred)
    ensures Slashes(path) == Slashes(g)
    decreases |g|
  {
    if g != "" {
      var rest := Rest(g);
      assert rest == g[1..];
      var k: nat := 1;
      if First(g).Within? {
        k :| 0 <= k <= |path| && Free(path[..k], {'/'}) && Denotes(rest, path[k..], barred);
        NoSlashes(path[..k]);
      }
      assert path == path[..k] + path[k..];
      SlashesOfJoin(path[..k], path[k..]);
      SingleStarsKeepDepth(rest, path[k..], barred);
      if !First(g).Within? { assert path[..1] == [path[0]] && path[..1][1..] == ""; }
    }
  }

  // ----- the matcher -----

  method BuildIgnoreMatcher(patterns: seq<string>) returns (sources: seq<string>)
    ensures |sources| == |patterns|
    ensures forall i :: 0 <= i < |patterns| ==> sources[i] == Compiled(patterns[i])
  {
    hide Compiled;
    sources := [];
    for i := 0 to |patterns|
      invariant |sources| == i
      invariant forall j :: 0 <= j < i ==> sources[j] == Compiled(patterns[j])
    {
      var source := GlobToIgnoreRegExp(patterns[i]);
      sources := sources + [source];
    }
  }

  ghost predicate Ignored(patterns: seq<string>, path: string) {
    exists i :: 0 <= i < |patterns| && Test(Compiled(patterns[i]), path)
  }

  ghost predicate EndsIn(path: string, name: string) {
    path == name || exists k :: SegmentStart(path, k) && path[k..] == name
  }

  lemma LiteralIgnoresByName(pattern: string, path: string)
    requires Free(path, TERMINATORS) && !Wild(pattern) && !Anchored(pattern)
    ensures Test(Compiled(pattern), path) <==> EndsIn(path, pattern)
  {
    hide Test, Compiled;
    UnanchoredMatchesAnySegment(pattern, path);
    LiteralsStandForThemselves(pattern, path, TERMINATORS);
    forall k | SegmentStart(path, k)
      ensures Free(path[..k], TERMINATORS) && (Denotes(pattern, path[k..], TERMINATORS) <==> path[k..] == pattern)
    {
      LiteralsStandForThemselves(pattern, path[k..], TERMINATORS);
    }
    hide Denotes;
  }

  /** Without wildcards a list of unanchored patterns ignores exactly the paths that end, at a segment
      boundary, in one of them. */
  lemma LiteralPatternsIgnoreByName(patterns: seq<string>, path: string)
    requires Free(path, TERMINATORS)
    requires forall p :: p in patterns ==> !Wild(p) && !Anchored(p)
    ensures Ignored(patterns, path) <==> exists i :: 0 <= i < |patterns| && EndsIn(path, patterns[i])
  {
    hide Test, Compiled, EndsIn;
    forall i | 0 <= i < |patterns| ensures Test(Compiled(patterns[i]), path) <==> EndsIn(path, patterns[i]) {
      LiteralIgnoresByName(patterns[i], path);
    }
  }
}
