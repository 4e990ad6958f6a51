/** Splitting text into sentences, and putting some of them back together. */
module Sentences {
  import opened Text

  predicate IsStop(c: char) {
    c == '.' || c == '!' || c == '?'
  }

  function SpaceRun(s: string, i: nat): (n: nat)
    requires i <= |s|
    ensures i + n <= |s|
    decreases |s| - i
  {
    if i < |s| && IsSpace(s[i]) then 1 + SpaceRun(s, i + 1) else 0
  }

  function LineRun(s: string, i: nat): (n: nat)
    requires i <= |s|
    ensures i + n <= |s|
    decreases |s| - i
  {
    if i < |s| && s[i] == '\n' then 1 + LineRun(s, i + 1) else 0
  }

  /** How much of the text at `i` is a boundary: white space right after a stop, or blank lines. */
  function Boundary(s: string, i: nat): (n: nat)
    requires i < |s|
    ensures i + n <= |s|
  {
    if i > 0 && IsStop(s[i - 1]) && IsSpace(s[i]) then SpaceRun(s, i)
    else if LineRun(s, i) >= 2 then LineRun(s, i)
    else 0
  }

  /** The parts of `s[start..]` between boundaries found from `i` on. */
  function SplitFrom(s: string, start: nat, i: nat): seq<string>
    requires start <= i <= |s|
    decreases |s| - i
  {
    if i == |s| then [s[start..]]
    else
      var n := Boundary(s, i);
      if n > 0 then [s[start..i]] + SplitFrom(s, i + n, i + n) else SplitFrom(s, start, i + 1)
  }

  const MIN_SENTENCE_CHARACTERS := 2

  function Kept(parts: seq<string>): seq<string> {
    if parts == [] then []
    else (if |Strip(parts[0])| >= MIN_SENTENCE_CHARACTERS then [Strip(parts[0])] else []) + Kept(parts[1..])
  }

  /** `_sentences` */
  function SentencesOf(content: string): seq<string> {
    Kept(SplitFrom(content, 0, 0))
  }

  /** `" ".join(parts)` */
  function Join(parts: seq<string>): string {
    if parts == [] then "" else if |parts| == 1 then parts[0]
    else Join(parts[..|parts| - 1]) + [' '] + parts[|parts| - 1]
  }

  /** What the parts take up, with one separator each. */
  function Room(parts: seq<string>): nat {
    if parts == [] then 0 else Room(parts[..|parts| - 1]) + |parts[|parts| - 1]| + 1
  }

  lemma {:induction false} JoinRoom(parts: seq<string>)
    requires parts != []
    ensures |Join(parts)| + 1 == Room(parts)
  {
    if |parts| > 1 {
      JoinRoom(parts[..|parts| - 1]);
    }
  }

  lemma {:induction false} RoomAhead(x: string, parts: seq<string>)
    ensures Room([x] + parts) == |x| + 1 + Room(parts)
  {
    if parts == [] {
      assert [x] + parts == [x] && [x][..0] == [];
    } else {
      var n := |parts| - 1;
      RoomAhead(x, parts[..n]);
      assert ([x] + parts)[..n + 1] == [x] + parts[..n];
    }
  }

  lemma {:induction false} SplitRoom(s: string, start: nat, i: nat)
    requires start <= i <= |s|
    ensures Room(SplitFrom(s, start, i)) <= |s| - start + 1
    decreases |s| - i
  {
    if i == |s| {
      RoomAhead(s[start..], []);
      assert [s[start..]] + [] == [s[start..]];
    } else {
      var n := Boundary(s, i);
      if n > 0 {
        SplitRoom(s, i + n, i + n);
        RoomAhead(s[start..i], SplitFrom(s, i + n, i + n));
      } else {
        SplitRoom(s, start, i + 1);
      }
    }
  }

  lemma {:induction false} KeptRoom(parts: seq<string>)
    ensures Room(Kept(parts)) <= Room(parts)
  {
    if parts != [] {
      var rest := Kept(parts[1..]);
      KeptRoom(parts[1..]);
      RoomAhead(parts[0], parts[1..]);
      RoomAhead(Strip(parts[0]), rest);
      assert parts == [parts[0]] + parts[1..] && [] + rest == rest;
    }
  }

  /** The sentences of a text fit in it. */
  lemma SentencesFit(content: string)
    ensures Room(SentencesOf(content)) <= |content| + 1
  {
    SplitRoom(content, 0, 0);
    KeptRoom(SplitFrom(content, 0, 0));
  }

  // ---------------------------------------------------- choosing sentences

  /** `s` is `t` with some elements left out. */
  ghost predicate Subsequence<T>(s: seq<T>, t: seq<T>)
    decreases |t|
  {
    if t == [] then s == []
    else
      var n, m := |t| - 1, |s| - 1;
      Subsequence(s, t[..n]) || (s != [] && s[m] == t[n] && Subsequence(s[..m], t[..n]))
  }

  lemma {:induction false} SubsequenceRoom(s: seq<string>, t: seq<string>)
    requires Subsequence(s, t)
    ensures Room(s) <= Room(t)
    decreases |t|
  {
    if t != [] {
      var n := |t| - 1;
      if Subsequence(s, t[..n]) {
        SubsequenceRoom(s, t[..n]);
      } else {
        SubsequenceRoom(s[..|s| - 1], t[..n]);
      }
    }
  }

  /** The sentences scoring at least `least`. */
  function AtLeast(sentences: seq<string>, scores: seq<real>, least: real): seq<string>
    requires |sentences| == |scores|
  {
    if sentences == [] then []
    else
      var n := |sentences| - 1;
      AtLeast(sentences[..n], scores[..n], least) + if scores[n] >= least then [sentences[n]] else []
  }

  lemma {:induction false} AtLeastSelects(sentences: seq<string>, scores: seq<real>, least: real)
    requires |sentences| == |scores|
    ensures Subsequence(AtLeast(sentences, scores, least), sentences)
    ensures forall j :: 0 <= j < |sentences| && scores[j] >= least ==> sentences[j] in AtLeast(sentences, scores, least)
    ensures AtLeast(sentences, scores, least) == [] <==> forall j :: 0 <= j < |scores| ==> scores[j] < least
  {
    if sentences != [] {
      var n := |sentences| - 1;
      var before := AtLeast(sentences[..n], scores[..n], least);
      AtLeastSelects(sentences[..n], scores[..n], least);
      assert (before + [sentences[n]])[..|before|] == before && before + [] == before;
      forall j | 0 <= j < |sentences| && scores[j] >= least ensures sentences[j] in AtLeast(sentences, scores, least) {
        if j < n {
          assert sentences[..n][j] == sentences[j] && scores[..n][j] == scores[j];
        }
      }
      assert forall j :: 0 <= j < n ==> scores[j] == scores[..n][j];
    }
  }

  lemma {:induction false} OneSelects<T>(s: seq<T>, i: nat)
    requires i < |s|
    ensures Subsequence([s[i]], s)
  {
    var n := |s| - 1;
    if i < n {
      OneSelects(s[..n], i);
    } else {
      NoneSelects(s[..n]);
      assert [s[i]][..0] == [];
    }
  }

  lemma {:induction false} NoneSelects<T>(s: seq<T>)
    ensures Subsequence([], s)
  {
    if s != [] {
      NoneSelects(s[..|s| - 1]);
    }
  }
}
