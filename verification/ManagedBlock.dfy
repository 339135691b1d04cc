/** The managed block of an agent instructions file
    (internal/agentintegration/files.go). */
module ManagedBlock {

  /** A marker opens with '<' and has no other '<' and no newline: two markers
      never overlap, and none straddles a newline. */
  predicate Marker(s: string)
  {
    |s| > 0 && s[0] == '<' && forall i | 0 < i < |s| :: s[i] != '<' && s[i] != '\n'
  }

  function StartMarker(): (s: string)
    ensures Marker(s) && |s| == 27 && s[18] == 's'
  {
    "<!-- wktbox-agent:start -->"
  }

  function EndMarker(): (s: string)
    ensures Marker(s) && |s| == 25 && s[18] == 'e'
  {
    "<!-- wktbox-agent:end -->"
  }

  predicate NoMarkerOpens(s: string)
  {
    forall i | 0 <= i < |s| :: s[i] != '<'
  }

  function Sentence1(): (s: string)
    ensures NoMarkerOpens(s)
  {
    var a, b, c, d := "When development needs ", "Docker isolation, ", "independent Compose ports, ", "browser or\n";
    assert NoMarkerOpens(a) && NoMarkerOpens(b) && NoMarkerOpens(c) && NoMarkerOpens(d);
    a + b + c + d
  }

  function Sentence2(): (s: string)
    ensures NoMarkerOpens(s)
  {
    var a, b, c, d := "integration testing, ", "use the ", "`wktbox-isolated-development`", " skill. It\n";
    assert NoMarkerOpens(a) && NoMarkerOpens(b) && NoMarkerOpens(c) && NoMarkerOpens(d);
    a + b + c + d
  }

  function Sentence3(): (s: string)
    ensures NoMarkerOpens(s)
  {
    var a, b, c, d := "works in any existing ", "project directory; ", "Git and linked worktrees ", "are optional.\n";
    assert NoMarkerOpens(a) && NoMarkerOpens(b) && NoMarkerOpens(c) && NoMarkerOpens(d);
    a + b + c + d
  }

  /** The text between the markers. */
  function Advice(): (s: string)
    ensures NoMarkerOpens(s)
  {
    "\n" + Sentence1() + Sentence2() + Sentence3()
  }

  function Block(): string
  {
    StartMarker() + Advice() + EndMarker()
  }

  // ---- searching ------------------------------------------------------------

  predicate OccursAt(s: string, m: string, p: int)
  {
    0 <= p && p + |m| <= |s| && s[p..p + |m|] == m
  }

  ghost predicate Free(s: string, m: string)
  {
    forall p :: !OccursAt(s, m, p)
  }

  /** strings.Index. */
  function Index(s: string, m: string): (r: int)
    ensures r >= 0 ==> OccursAt(s, m, r) && forall p | p < r :: !OccursAt(s, m, p)
    ensures r < 0 ==> r == -1 && Free(s, m)
  {
    IndexFrom(s, m, 0)
  }

  function IndexFrom(s: string, m: string, i: nat): (r: int)
    requires i <= |s| + 1
    ensures r >= 0 ==> r >= i && OccursAt(s, m, r) && forall p | i <= p < r :: !OccursAt(s, m, p)
    ensures r < 0 ==> r == -1 && forall p | i <= p :: !OccursAt(s, m, p)
    decreases |s| + 1 - i
  {
    if i == |s| + 1 then -1 else if OccursAt(s, m, i) then i else IndexFrom(s, m, i + 1)
  }

  predicate HasSuffix(s: string, t: string) { |t| <= |s| && s[|s| - |t|..] == t }

  predicate HasPrefix(s: string, t: string) { |t| <= |s| && s[..|t|] == t }

  // ---- the two operations ---------------------------------------------------

  datatype Outcome = Text(text: string) | Incomplete | OutOfOrder

  function Render(existing: string): Outcome
  {
    var start, end := Index(existing, StartMarker()), Index(existing, EndMarker());
    if (start < 0) != (end < 0) then Incomplete
    else if start >= 0 then
      if end < start then OutOfOrder
      else Text(existing[..start] + Block() + existing[end + |EndMarker()|..])
    else if existing == "" then Text(Block() + "\n")
    else Text(existing + Separator(existing) + Block() + "\n")
  }

  /** What Render puts between a text without a block and the block. */
  function Separator(existing: string): string
  {
    if existing == "" || HasSuffix(existing, "\n\n") then ""
    else if HasSuffix(existing, "\n") then "\n"
    else "\n\n"
  }

  function Remove(existing: string): Outcome
  {
    var start, end := Index(existing, StartMarker()), Index(existing, EndMarker());
    if start < 0 && end < 0 then Text(existing)
    else if start < 0 || end < 0 || end < start then Incomplete
    else Text(Joined(existing[..start], existing[end + |EndMarker()|..]))
  }

  function Joined(before: string, after: string): string
  {
    if HasSuffix(before, "\n\n") && HasPrefix(after, "\n") then before[..|before| - 1] + after
    else if before == "" && HasPrefix(after, "\n") then after[1..]
    else before + after
  }

  // ---- where markers can be -------------------------------------------------

  /** A text without either marker. */
  ghost predicate MarkerFree(s: string)
  {
    Free(s, StartMarker()) && Free(s, EndMarker())
  }

  /** The two markers of a text, if any, enclose one block. */
  ghost predicate WellFormed(s: string)
  {
    || MarkerFree(s)
    || (!Free(s, StartMarker()) && !Free(s, EndMarker()) && Index(s, StartMarker()) < Index(s, EndMarker()))
  }

  lemma Left(a: string, b: string, m: string, p: int)
    requires p + |m| <= |a|
    ensures OccursAt(a + b, m, p) <==> OccursAt(a, m, p)
  {
    assert 0 <= p ==> (a + b)[p..p + |m|] == a[p..p + |m|];
  }

  lemma Right(a: string, b: string, m: string, p: int)
    requires |a| <= p
    ensures OccursAt(a + b, m, p) <==> OccursAt(b, m, p - |a|)
  {
    assert p + |m| <= |a + b| ==> (a + b)[p..p + |m|] == b[p - |a|..p - |a| + |m|];
  }

  /** A text that differs from a marker in one character is not the marker. */
  lemma Differs(s: string, m: string, p: int, k: nat)
    requires k < |m| && 0 <= p + k < |s| && s[p + k] != m[k]
    ensures !OccursAt(s, m, p)
  {
    if 0 <= p && p + |m| <= |s| {
      assert s[p..p + |m|][k] == s[p + k];
    }
  }

  lemma Outside(s: string, m: string, p: int)
    requires m != "" && !(0 <= p < |s|)
    ensures !OccursAt(s, m, p)
  {
  }

  /** Joining in front of a '<' or a newline makes no marker. */
  lemma FreeConcat(a: string, b: string, m: string)
    requires Marker(m) && Free(a, m) && Free(b, m) && (b != "" ==> b[0] == '<' || b[0] == '\n')
    ensures Free(a + b, m)
  {
    hide OccursAt;
    forall p ensures !OccursAt(a + b, m, p) {
      if p + |m| <= |a| {
        Left(a, b, m, p);
      } else if |a| <= p {
        Right(a, b, m, p);
      } else {
        Straddles(a, b, m, p);
      }
    }
  }

  lemma Straddles(a: string, b: string, m: string, p: int)
    requires Marker(m) && p < |a| < p + |m| && (b != "" ==> b[0] == '<' || b[0] == '\n')
    ensures !OccursAt(a + b, m, p)
  {
    if b != "" && p >= 0 { Differs(a + b, m, p, |a| - p); }
  }

  /** The first marker of a kind that starts a suffix is the first in the whole
      text: none reaches into it from before. */
  lemma FirstAfter(before: string, rest: string, m: string)
    requires Marker(m) && Free(before, m) && OccursAt(rest, m, 0)
    ensures Index(before + rest, m) == |before|
  {
    assert rest[0] == rest[..|m|][0] == '<';
    Right(before, rest, m, |before|);
    forall p | p < |before| ensures !OccursAt(before + rest, m, p) {
      if p + |m| <= |before| {
        Left(before, rest, m, p);
      } else {
        Straddles(before, rest, m, p);
      }
    }
  }

  /** The other marker followed by text without '<' holds no marker. */
  lemma OtherMarkerFree(other: string, text: string, m: string)
    requires Marker(m) && Marker(other) && NoMarkerOpens(text) && |other| > 18 && |m| > 18 && m[18] != other[18]
    ensures Free(other + text, m)
  {
    hide OccursAt;
    var s := other + text;
    forall p ensures !OccursAt(s, m, p) {
      if p == 0 {
        Differs(s, m, p, 18);
      } else if 0 < p < |s| {
        Differs(s, m, p, 0);
      } else {
        Outside(s, m, p);
      }
    }
  }

  /** The block is found exactly where it was put. */
  lemma BlockFound(before: string, after: string)
    requires MarkerFree(before)
    ensures Index(before + Block() + after, StartMarker()) == |before|
    ensures Index(before + Block() + after, EndMarker()) == |before| + |Block()| - |EndMarker()|
  {
    hide Index, Free, StartMarker, EndMarker, Advice, OccursAt, Marker, NoMarkerOpens;
    var s := before + Block() + after;
    var opening := StartMarker() + Advice();
    assert s == before + (Block() + after);
    Prefixed(StartMarker(), Advice() + EndMarker() + after);
    assert Block() + after == StartMarker() + (Advice() + EndMarker() + after);
    FirstAfter(before, Block() + after, StartMarker());
    OtherMarkerFree(StartMarker(), Advice(), EndMarker());
    assert opening[0] == StartMarker()[0] == '<' by { assert Marker(StartMarker()); StartsAngle(StartMarker()); }
    FreeConcat(before, opening, EndMarker());
    Prefixed(EndMarker(), after);
    FirstAfter(before + opening, EndMarker() + after, EndMarker());
    assert s == (before + opening) + (EndMarker() + after);
  }

  lemma StartsAngle(m: string)
    requires Marker(m)
    ensures |m| > 0 && m[0] == '<'
  {
  }

  lemma Prefixed(m: string, rest: string)
    ensures OccursAt(m + rest, m, 0)
  {
  }

  lemma PrefixFree(s: string, m: string, n: nat)
    requires n <= |s| && forall p | p + |m| <= n :: !OccursAt(s, m, p)
    ensures Free(s[..n], m)
  {
    assert s == s[..n] + s[n..];
    forall p ensures !OccursAt(s[..n], m, p) {
      if p + |m| <= n { Left(s[..n], s[n..], m, p); }
    }
  }

  // ---- the laws -------------------------------------------------------------

  /** Both operations succeed exactly on well-formed texts. */
  lemma SucceedsExactly(s: string)
    ensures Render(s).Text? <==> WellFormed(s)
    ensures Remove(s).Text? <==> WellFormed(s)
  {
    hide Index, StartMarker, EndMarker, Block, Joined;
    StartDiffers(s);
    IndexSays(s, StartMarker());
    IndexSays(s, EndMarker());
  }

  lemma IndexSays(s: string, m: string)
    ensures Index(s, m) >= 0 <==> !Free(s, m)
  {
  }

  /** The two markers never start at the same place. */
  lemma StartDiffers(s: string)
    ensures Index(s, StartMarker()) >= 0 ==> Index(s, StartMarker()) != Index(s, EndMarker())
  {
    hide StartMarker, EndMarker;
    var p := Index(s, StartMarker());
    if p >= 0 {
      assert s[p..p + |StartMarker()|][18] == s[p + 18];
      Differs(s, EndMarker(), p, 18);
    }
  }

  lemma SeparatorFree(s: string, m: string)
    requires Marker(m) && Free(s, m) && |m| > 2
    ensures Free(s + Separator(s), m)
  {
    FreeConcat(s, Separator(s), m);
  }

  lemma RenderedFresh(s: string)
    requires MarkerFree(s)
    ensures MarkerFree(s + Separator(s)) && Render(s) == Text(s + Separator(s) + Block() + "\n")
  {
    SeparatorFree(s, StartMarker());
    SeparatorFree(s, EndMarker());
    IndexSays(s, StartMarker());
    IndexSays(s, EndMarker());
    hide StartMarker, EndMarker, Block, Index, Free, HasSuffix;
    assert s == "" ==> s + Separator(s) + Block() + "\n" == Block() + "\n";
  }

  /** A text with a block: what is around it, what Render makes of it, and what
      a removal leaves. */
  lemma AroundBlock(s: string) returns (before: string, cut: string, after: string)
    requires Render(s).Text? && !MarkerFree(s)
    ensures MarkerFree(before) && s == before + cut + after
    ensures Render(s) == Text(before + Block() + after)
    ensures Remove(s) == Text(Joined(before, after))
  {
    hide StartMarker, EndMarker, Block, Advice, Joined;
    var start, end := Index(s, StartMarker()), Index(s, EndMarker());
    IndexSays(s, StartMarker());
    IndexSays(s, EndMarker());
    before, cut, after := s[..start], s[start..end + |EndMarker()|], s[end + |EndMarker()|..];
    PrefixFree(s, StartMarker(), start);
    PrefixFree(s, EndMarker(), start);
  }

  /** A rendered text has the block, everything around it as it was, and no
      marker in front of it. */
  lemma Rendered(s: string) returns (before: string, after: string)
    requires Render(s).Text?
    ensures MarkerFree(before)
    ensures Render(s).text == before + Block() + after
    ensures MarkerFree(s) ==>
              && before == s + Separator(s) && after == "\n"
              && (before == "" || HasSuffix(before, "\n\n")) && Separator(s) in {"", "\n", "\n\n"}
              && (Separator(s) == "" <==> s == "" || HasSuffix(s, "\n\n"))
              && (Separator(s) == "\n\n" <==> s != "" && s[|s| - 1] != '\n')
    ensures !MarkerFree(s) ==> exists cut: string :: s == before + cut + after
  {
    hide *;
    if MarkerFree(s) {
      before, after := s + Separator(s), "\n";
      RenderedFresh(s);
      Separated(s);
    } else {
      var cut;
      before, cut, after := AroundBlock(s);
    }
  }

  /** Installing twice is installing once. */
  lemma RenderIdempotent(s: string)
    requires Render(s).Text?
    ensures Render(Render(s).text) == Render(s)
  {
    hide StartMarker, EndMarker, Block, Advice, MarkerFree;
    var before, after := Rendered(s);
    RenderedAgain(before, after);
  }

  lemma RenderedAgain(before: string, after: string)
    requires MarkerFree(before)
    ensures Render(before + Block() + after) == Text(before + Block() + after)
    ensures Remove(before + Block() + after) == Text(Joined(before, after))
  {
    hide StartMarker, EndMarker, Advice, MarkerFree, Index, Joined;
    var t := before + Block() + after;
    BlockFound(before, after);
    var end := |before| + |Block()| - |EndMarker()|;
    BlockLength();
    assert t[..|before|] == before;
    assert t[end + |EndMarker()|..] == after;
  }

  lemma BlockLength()
    ensures |Block()| > |EndMarker()| > 0
  {
    hide StartMarker, EndMarker, Advice;
  }

  lemma SuffixByChars(s: string)
    ensures HasSuffix(s, "\n") <==> |s| >= 1 && s[|s| - 1] == '\n'
    ensures HasSuffix(s, "\n\n") <==> |s| >= 2 && s[|s| - 1] == '\n' && s[|s| - 2] == '\n'
  {
    if |s| >= 1 { assert s[|s| - 1..] == [s[|s| - 1]]; }
    if |s| >= 2 { assert s[|s| - 2..] == [s[|s| - 2], s[|s| - 1]]; }
  }

  /** A text with its separator is empty or ends with an empty line, and the
      separator is no longer than that takes. */
  lemma Separated(s: string)
    ensures s + Separator(s) == "" || HasSuffix(s + Separator(s), "\n\n")
    ensures Separator(s) in {"", "\n", "\n\n"}
    ensures Separator(s) == "" <==> s == "" || HasSuffix(s, "\n\n")
    ensures Separator(s) == "\n\n" <==> s != "" && s[|s| - 1] != '\n'
  {
    hide HasSuffix;
    SuffixByChars(s);
    SuffixByChars(s + Separator(s));
    assert |"\n"| != |"\n\n"|;
  }

  lemma JoinedAfterLine(t: string)
    requires t == "" || HasSuffix(t, "\n\n")
    ensures Joined(t, "\n") == t
  {
    SuffixByChars(t);
    hide HasSuffix;
    assert HasPrefix("\n", "\n");
    if t != "" { assert t[..|t| - 1] + "\n" == t; }
  }

  lemma SeparatorJoins(s: string)
    ensures Joined(s + Separator(s), "\n") == s + Separator(s)
    ensures Separator(s + Separator(s)) == ""
  {
    hide HasSuffix, Joined;
    Separated(s);
    JoinedAfterLine(s + Separator(s));
  }

  /** Removing what was installed into a text without markers leaves the text
      and the separator. */
  lemma RemoveAfterRender(s: string)
    requires MarkerFree(s)
    ensures Render(s).Text? && Remove(Render(s).text) == Text(s + Separator(s))
  {
    hide *;
    RenderedFresh(s);
    RenderedAgain(s + Separator(s), "\n");
    SeparatorJoins(s);
  }

  /** Reinstalling after a removal gives the first installation back. */
  lemma Reinstall(s: string)
    requires MarkerFree(s)
    ensures Render(s).Text? && Remove(Render(s).text).Text?
    ensures Render(Remove(Render(s).text).text) == Render(s)
  {
    hide *;
    RemoveAfterRender(s);
    RenderedFresh(s);
    RenderedFresh(s + Separator(s));
    SeparatorJoins(s);
    assert s + Separator(s) + "" == s + Separator(s);
  }

  /** Where a block is present, updating it first does not change what a
      removal leaves. */
  lemma RemoveIgnoresRender(s: string)
    requires Render(s).Text? && !MarkerFree(s)
    ensures Remove(Render(s).text) == Remove(s)
  {
    hide *;
    var before, cut, after := AroundBlock(s);
    RenderedAgain(before, after);
  }
}
