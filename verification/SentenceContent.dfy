/** Splitting and joining lose nothing: which characters of a text its sentences hold. */
module SentenceContent {
  import opened Text
  import opened Sentences

  /** The flagged items, in order. */
  function Filtered<T>(items: seq<T>, flags: seq<bool>): seq<T>
    requires |flags| == |items|
  {
    if items == [] then [] else (if flags[0] then [items[0]] else []) + Filtered(items[1..], flags[1..])
  }

  lemma {:induction false} FilteredAtEnd<T>(items: seq<T>, flags: seq<bool>, x: T, flag: bool)
    requires |flags| == |items|
    ensures Filtered(items + [x], flags + [flag]) == Filtered(items, flags) + if flag then [x] else []
  {
    if items != [] {
      assert (items + [x])[1..] == items[1..] + [x] && (flags + [flag])[1..] == flags[1..] + [flag];
      FilteredAtEnd(items[1..], flags[1..], x, flag);
    }
  }

  // ------------------------------------------------------------- splitting

  /** What separates a part from the next: white space after its closing stop, or blank lines. */
  ghost predicate Gap(part: string, gap: string) {
    && gap != ""
    && (|| (part != "" && part[|part| - 1] in ".!?" && Blank(gap))
        || (|gap| >= 2 && forall i :: 0 <= i < |gap| ==> gap[i] == '\n'))
  }

  /** Nothing inside the part separates: no stop before white space, no blank line. */
  ghost predicate Unbroken(part: string) {
    && (forall j :: 0 < j < |part| ==> !(part[j - 1] in ".!?" && IsSpace(part[j])))
    && (forall j :: 0 <= j < |part| - 1 ==> !(part[j] == '\n' && part[j + 1] == '\n'))
  }

  /** The text that parts make with gaps between them. */
  function Interleaved(parts: seq<string>, gaps: seq<string>): string
    requires |parts| == |gaps| + 1
  {
    if gaps == [] then parts[0] else parts[0] + gaps[0] + Interleaved(parts[1..], gaps[1..])
  }

  ghost predicate Divides(text: string, parts: seq<string>, gaps: seq<string>) {
    && |parts| == |gaps| + 1 && text == Interleaved(parts, gaps)
    && (forall i :: 0 <= i < |gaps| ==> Gap(parts[i], gaps[i]))
    && (forall i :: 0 <= i < |parts| ==> Unbroken(parts[i]))
  }

  lemma {:induction false} RunIsSpace(s: string, i: nat)
    requires i <= |s|
    ensures forall j :: i <= j < i + SpaceRun(s, i) ==> IsSpace(s[j])
    decreases |s| - i
  {
    if i < |s| && IsSpace(s[i]) {
      RunIsSpace(s, i + 1);
    }
  }

  lemma {:induction false} RunIsLines(s: string, i: nat)
    requires i <= |s|
    ensures forall j :: i <= j < i + LineRun(s, i) ==> s[j] == '\n'
    ensures i + 1 < |s| && s[i] == s[i + 1] == '\n' ==> LineRun(s, i) >= 2
    decreases |s| - i
  {
    if i < |s| && s[i] == '\n' {
      RunIsLines(s, i + 1);
    }
  }

  /** A stretch without boundaries is unbroken. */
  lemma NoBoundaryInside(s: string, start: nat, i: nat)
    requires start <= i <= |s| && forall j :: start <= j < i ==> Boundary(s, j) == 0
    ensures Unbroken(s[start..i])
  {
    var p := s[start..i];
    forall j | 0 < j < |p| ensures !(p[j - 1] in ".!?" && IsSpace(p[j])) {
      assert Boundary(s, start + j) == 0;
    }
    forall j | 0 <= j < |p| - 1 ensures !(p[j] == '\n' && p[j + 1] == '\n') {
      assert Boundary(s, start + j) == 0;
      RunIsLines(s, start + j);
    }
  }

  /** A boundary is a gap after what comes before it. */
  lemma BoundaryIsGap(s: string, start: nat, i: nat)
    requires start <= i < |s| && Boundary(s, i) > 0 && (start > 0 ==> IsSpace(s[start - 1]))
    ensures Gap(s[start..i], s[i..i + Boundary(s, i)]) && IsSpace(s[i + Boundary(s, i) - 1])
  {
    RunIsSpace(s, i);
    RunIsLines(s, i);
  }

  lemma ThreeSlices<T>(s: seq<T>, a: nat, b: nat, c: nat)
    requires a <= b <= c <= |s|
    ensures s[a..] == s[a..b] + s[b..c] + s[c..]
  {
  }

  lemma SplitOnce(s: string, start: nat, i: nat, rest: seq<string>)
    requires start <= i < |s| && forall j :: start <= j < i ==> Boundary(s, j) == 0
    requires Boundary(s, i) > 0 && (start > 0 ==> IsSpace(s[start - 1]))
    requires var next := i + Boundary(s, i); Divides(s[next..], SplitFrom(s, next, next), rest)
    ensures Divides(s[start..], SplitFrom(s, start, i), [s[i..i + Boundary(s, i)]] + rest)
  {
    var next := i + Boundary(s, i);
    NoBoundaryInside(s, start, i);
    BoundaryIsGap(s, start, i);
    OneDivided(s[start..i], s[i..next], s[next..], SplitFrom(s, next, next), rest);
    ThreeSlices(s, start, i, next);
  }

  lemma {:induction false} SplitDivides(s: string, start: nat, i: nat) returns (gaps: seq<string>)
    requires start <= i <= |s| && forall j :: start <= j < i ==> Boundary(s, j) == 0
    requires start > 0 ==> IsSpace(s[start - 1])
    ensures Divides(s[start..], SplitFrom(s, start, i), gaps)
    decreases |s| - i
  {
    if i == |s| {
      gaps := [];
      NoBoundaryInside(s, start, i);
      assert s[start..i] == s[start..];
    } else {
      var n := Boundary(s, i);
      if n > 0 {
        BoundaryIsGap(s, start, i);
        var rest := SplitDivides(s, i + n, i + n);
        SplitOnce(s, start, i, rest);
        gaps := [s[i..i + n]] + rest;
      } else {
        gaps := SplitDivides(s, start, i + 1);
      }
    }
  }

  lemma OneDivided(part: string, gap: string, text: string, parts: seq<string>, gaps: seq<string>)
    requires Divides(text, parts, gaps) && Gap(part, gap) && Unbroken(part)
    ensures Divides(part + gap + text, [part] + parts, [gap] + gaps)
  {
    assert ([part] + parts)[1..] == parts && ([gap] + gaps)[1..] == gaps;
  }

  /** The stripped parts, and which of them carry meaning. */
  function Stripped(parts: seq<string>): seq<string> {
    seq(|parts|, i requires 0 <= i < |parts| => Strip(parts[i]))
  }

  function Meaningful(parts: seq<string>): seq<bool> {
    seq(|parts|, i requires 0 <= i < |parts| => |Strip(parts[i])| >= 2)
  }

  lemma {:induction false} KeptAreMeaningful(parts: seq<string>)
    ensures Kept(parts) == Filtered(Stripped(parts), Meaningful(parts))
  {
    if parts != [] {
      KeptAreMeaningful(parts[1..]);
      assert Stripped(parts)[1..] == Stripped(parts[1..]) && Meaningful(parts)[1..] == Meaningful(parts[1..]);
    }
  }

  /** A text is its parts and the gaps between them; the gaps are exactly where a stop
      meets white space, or blank lines stand; and the sentences are the stripped
      parts of two characters or more, all of them, in order. */
  lemma SentencesAreTheParts(content: string) returns (parts: seq<string>, gaps: seq<string>)
    ensures Divides(content, parts, gaps)
    ensures SentencesOf(content) == Filtered(Stripped(parts), Meaningful(parts))
  {
    parts := SplitFrom(content, 0, 0);
    gaps := SplitDivides(content, 0, 0);
    assert content[0..] == content;
    KeptAreMeaningful(parts);
  }

  // ---------------------------------------------------- choosing and joining

  function Qualifies(scores: seq<real>, least: real): seq<bool> {
    seq(|scores|, i requires 0 <= i < |scores| => scores[i] >= least)
  }

  /** The sentences kept are those that qualify: no fewer, no more, in order. */
  lemma {:induction false} KeepsWhatQualifies(sentences: seq<string>, scores: seq<real>, least: real)
    requires |sentences| == |scores|
    ensures AtLeast(sentences, scores, least) == Filtered(sentences, Qualifies(scores, least))
  {
    if sentences != [] {
      var n := |sentences| - 1;
      KeepsWhatQualifies(sentences[..n], scores[..n], least);
      FilteredAtEnd(sentences[..n], Qualifies(scores[..n], least), sentences[n], scores[n] >= least);
      assert sentences == sentences[..n] + [sentences[n]];
      assert Qualifies(scores, least) == Qualifies(scores[..n], least) + [scores[n] >= least];
    }
  }

  lemma Regrouped<T>(a: seq<T>, gap: seq<T>, b: seq<T>, c: seq<T>)
    ensures a + gap + (b + gap + c) == (a + gap + b) + gap + c
  {
  }

  /** Joining puts one space between neighbours, and one sentence stays as it is. */
  lemma {:induction false} JoinsWithASpace(a: seq<string>, b: seq<string>)
    requires a != [] && b != []
    ensures Join(a + b) == Join(a) + " " + Join(b)
    ensures |a| == 1 ==> Join(a) == a[0]
    decreases |b|
  {
    var n := |b| - 1;
    assert (a + b)[..|a| + n] == a + b[..n] && (a + b)[|a| + n] == b[n];
    if n > 0 {
      JoinsWithASpace(a, b[..n]);
      Regrouped(Join(a), " ", Join(b[..n]), b[n]);
    } else {
      assert a + b[..0] == a;
    }
  }
}
