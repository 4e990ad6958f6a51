/** Query normalisation on ASCII text: what counts as the same question. */
module QueryKeys {
  import opened Text

  predicate IsMark(c: char) {
    c == '?' || c == '!' || c == '.' || c == ',' || c == ';' || c == ':'
  }

  function LowerChar(c: char): char {
    if 'A' <= c <= 'Z' then (c as int + 32) as char else c
  }

  function Lower(s: string): (r: string)
    ensures |r| == |s| && forall i :: 0 <= i < |s| ==> r[i] == LowerChar(s[i])
  {
    seq(|s|, i requires 0 <= i < |s| => LowerChar(s[i]))
  }

  /** Every run of white space becomes one space. */
  function Squeeze(s: string): string {
    if s == "" then ""
    else if !IsSpace(s[0]) then [s[0]] + Squeeze(s[1..])
    else if |s| > 1 && IsSpace(s[1]) then Squeeze(s[1..])
    else [' '] + Squeeze(s[1..])
  }

  /** Every run of one punctuation mark becomes that mark. */
  function Dedupe(s: string): string {
    if s == "" then ""
    else if |s| > 1 && s[0] == s[1] && IsMark(s[0]) then Dedupe(s[1..])
    else [s[0]] + Dedupe(s[1..])
  }

  /** `text.rstrip("?!.,;:")` */
  function RStripMarks(s: string): (r: string)
    ensures r <= s
    ensures r != "" ==> !IsMark(r[|r| - 1])
    ensures s != "" && IsMark(s[|s| - 1]) ==> |r| < |s|
    ensures s == "" || !IsMark(s[|s| - 1]) ==> r == s
  {
    if s != "" && IsMark(s[|s| - 1]) then RStripMarks(s[..|s| - 1]) else s
  }

  /** Lower case, single spaces, no edges. */
  function Folded(query: string): string {
    Strip(Squeeze(Lower(query)))
  }

  /** Punctuation collapsed, and dropped from the end. */
  function Closed(text: string): string {
    Strip(RStripMarks(Dedupe(text)))
  }

  function Normalize(query: string): string {
    Closed(Folded(query))
  }

  // ----------------------------------------------------------- normal form

  ghost predicate NoUpper(s: string) {
    forall i :: 0 <= i < |s| ==> !('A' <= s[i] <= 'Z')
  }

  /** The only white space is single spaces. */
  ghost predicate Spaced(s: string) {
    && (forall i :: 0 <= i < |s| && IsSpace(s[i]) ==> s[i] == ' ')
    && (forall i :: 0 < i < |s| ==> !(IsSpace(s[i - 1]) && IsSpace(s[i])))
  }

  ghost predicate Unrepeated(s: string) {
    forall i :: 0 < i < |s| ==> !(s[i - 1] == s[i] && IsMark(s[i]))
  }

  ghost predicate Trimmed(s: string) {
    s != "" ==> !IsSpace(s[0]) && !IsSpace(s[|s| - 1])
  }

  lemma {:induction false} SqueezeSpaces(s: string)
    ensures Spaced(Squeeze(s))
    ensures NoUpper(s) ==> NoUpper(Squeeze(s))
    ensures s != "" ==> Squeeze(s) != "" && Squeeze(s)[0] == if IsSpace(s[0]) then ' ' else s[0]
  {
    if s != "" {
      SqueezeSpaces(s[1..]);
      assert NoUpper(s) ==> NoUpper(s[1..]);
    }
  }

  lemma {:induction false} DedupeKeeps(s: string)
    ensures Unrepeated(Dedupe(s))
    ensures NoUpper(s) ==> NoUpper(Dedupe(s))
    ensures Spaced(s) ==> Spaced(Dedupe(s))
    ensures s != "" ==> Dedupe(s) != "" && Dedupe(s)[0] == s[0] && Dedupe(s)[|Dedupe(s)| - 1] == s[|s| - 1]
  {
    if s != "" {
      DedupeKeeps(s[1..]);
      assert NoUpper(s) ==> NoUpper(s[1..]);
      assert Spaced(s) ==> Spaced(s[1..]);
    }
  }

  /** Stripping cuts a slice out of the text. */
  lemma StripSlice(s: string) returns (i: nat)
    ensures i + |Strip(s)| <= |s| && Strip(s) == s[i..i + |Strip(s)|]
  {
    LStripSuffix(s);
    i := |s| - |LStrip(s)|;
    assert RStrip(LStrip(s)) == s[i..][..|Strip(s)|];
  }

  lemma SliceKeeps(s: string, i: nat, r: string)
    requires i + |r| <= |s| && r == s[i..i + |r|]
    ensures NoUpper(s) ==> NoUpper(r)
    ensures Spaced(s) ==> Spaced(r)
    ensures Unrepeated(s) ==> Unrepeated(r)
  {
    assert forall j :: 0 <= j < |r| ==> r[j] == s[i + j];
  }

  lemma StripKeeps(s: string, r: string)
    requires r == Strip(s)
    ensures NoUpper(s) ==> NoUpper(r)
    ensures Spaced(s) ==> Spaced(r)
    ensures Unrepeated(s) ==> Unrepeated(r)
    ensures Trimmed(r)
  {
    var i := StripSlice(s);
    SliceKeeps(s, i, r);
  }

  lemma MarksKeep(s: string, r: string)
    requires r == RStripMarks(s)
    ensures NoUpper(s) ==> NoUpper(r)
    ensures Spaced(s) ==> Spaced(r)
    ensures Unrepeated(s) ==> Unrepeated(r)
  {
    SliceKeeps(s, 0, r);
  }

  lemma LowerHasNoUpper(s: string)
    ensures NoUpper(Lower(s))
  {
  }

  lemma FoldedForm(query: string)
    ensures NoUpper(Folded(query)) && Spaced(Folded(query)) && Trimmed(Folded(query))
  {
    var l := Lower(query);
    LowerHasNoUpper(query);
    SqueezeSpaces(l);
    StripKeeps(Squeeze(l), Strip(Squeeze(l)));
  }

  lemma ClosedForm(s: string, r: string)
    requires NoUpper(s) && Spaced(s) && r == Closed(s)
    ensures NoUpper(r) && Spaced(r) && Unrepeated(r) && Trimmed(r)
  {
    DedupeKeeps(s);
    MarksKeep(Dedupe(s), RStripMarks(Dedupe(s)));
    StripKeeps(RStripMarks(Dedupe(s)), r);
  }

  /** The result has no upper case, no edge or doubled spaces, and no repeated punctuation. */
  lemma NormalForm(query: string)
    ensures NoUpper(Normalize(query)) && Spaced(Normalize(query))
    ensures Unrepeated(Normalize(query)) && Trimmed(Normalize(query))
  {
    FoldedForm(query);
    ClosedForm(Folded(query), Normalize(query));
  }

  // ------------------------------------------------------- the same question

  /** `c` is a capital and `d` the same letter, 32 code points up. */
  predicate Capital(c: char, d: char) {
    'A' <= c <= 'Z' && d as int == c as int + 32
  }

  predicate SameLetter(c: char, d: char) {
    c == d || Capital(c, d) || Capital(d, c)
  }

  /** `a` and `b` differ at most in case, letter by letter. */
  predicate SameLetters(a: string, b: string) {
    |a| == |b| && forall i :: 0 <= i < |a| ==> SameLetter(a[i], b[i])
  }

  lemma CaseDoesNotMatter(a: string, b: string)
    requires SameLetters(a, b)
    ensures Normalize(a) == Normalize(b)
  {
    assert forall i :: 0 <= i < |a| ==> SameLetter(a[i], b[i]) && LowerChar(a[i]) == LowerChar(b[i]);
    assert Lower(a) == Lower(b);
  }

  lemma LowerJoins(a: string, b: string)
    ensures Lower(a + b) == Lower(a) + Lower(b)
    ensures Blank(a) ==> Lower(a) == a
  {
  }

  lemma SqueezeAhead(c: char, u: string)
    ensures Squeeze([c] + u) == if !IsSpace(c) then [c] + Squeeze(u)
                                else if u != "" && IsSpace(u[0]) then Squeeze(u)
                                else [' '] + Squeeze(u)
  {
    var s := [c] + u;
    assert s[0] == c && s[1..] == u && (u != "" ==> s[1] == u[0]);
  }

  lemma {:induction false} SqueezeRun(w: string, b: string)
    requires w != "" && Blank(w) && (b == "" || !IsSpace(b[0]))
    ensures Squeeze(w + b) == [' '] + Squeeze(b)
  {
    var v := w[1..];
    assert w + b == [w[0]] + (v + b);
    SqueezeAhead(w[0], v + b);
    if v == "" {
      assert v + b == b;
    } else {
      assert (v + b)[0] == w[1];
      SqueezeRun(v, b);
    }
  }

  lemma {:induction false} SqueezeAtEnd(t: string, c: char)
    ensures Squeeze(t + [c]) == if !IsSpace(c) then Squeeze(t) + [c]
                                else if t != "" && IsSpace(t[|t| - 1]) then Squeeze(t)
                                else Squeeze(t) + [' ']
  {
    if t == "" {
      SqueezeAhead(c, "");
      assert t + [c] == [c] == [c] + "";
    } else {
      var x, u := t[0], t[1..];
      Ahead(t, [c]);
      SqueezeAhead(x, u);
      SqueezeAhead(x, u + [c]);
      SqueezeAtEnd(u, c);
    }
  }

  lemma Ahead(a: string, u: string)
    requires a != ""
    ensures a == [a[0]] + a[1..] && a + u == [a[0]] + (a[1..] + u)
  {
  }

  lemma {:induction false} SqueezeJoins(a: string, u: string)
    requires a == "" || !IsSpace(a[|a| - 1])
    ensures Squeeze(a + u) == Squeeze(a) + Squeeze(u)
  {
    if a == "" {
      assert a + u == u && Squeeze(a) + Squeeze(u) == Squeeze(u);
    } else {
      var x, v := a[0], a[1..];
      Ahead(a, u);
      SqueezeAhead(x, v);
      SqueezeAhead(x, v + u);
      SqueezeJoins(v, u);
    }
  }

  /** A run of white space is squeezed on its own, whatever its length and case around it. */
  lemma FoldedAround(a: string, w: string, b: string)
    requires w != "" && Blank(w) && (b == "" || !IsSpace(b[0])) && (a == "" || !IsSpace(a[|a| - 1]))
    ensures Squeeze(Lower(a + w + b)) == Squeeze(Lower(a)) + ([' '] + Squeeze(Lower(b)))
  {
    var rest := w + Lower(b);
    LowerAround(a, w, b);
    SqueezeRun(w, Lower(b));
    SqueezeJoins(Lower(a), rest);
  }

  /** Two runs of white space in the same place ask the same question. */
  lemma RunLengthDoesNotMatter(a: string, v: string, w: string, b: string)
    requires v != "" && w != "" && Blank(v) && Blank(w)
    requires (b == "" || !IsSpace(b[0])) && (a == "" || !IsSpace(a[|a| - 1]))
    ensures Normalize(a + v + b) == Normalize(a + w + b)
  {
    FoldedAround(a, v, b);
    FoldedAround(a, w, b);
  }

  lemma LowerAround(a: string, w: string, b: string)
    requires Blank(w)
    ensures Lower(a + w + b) == Lower(a) + (w + Lower(b))
  {
    LowerJoins(a + w, b);
    LowerJoins(a, w);
    LowerJoins(w, b);
  }

  // ------------------------------------------------------ closing punctuation

  ghost predicate AllMarks(s: string) {
    forall i :: 0 <= i < |s| ==> IsMark(s[i])
  }

  lemma {:induction false} SqueezeBeforeMarks(a: string, m: string)
    requires AllMarks(m)
    ensures Squeeze(a + m) == Squeeze(a) + m
  {
    if m == "" {
      assert a + m == a && Squeeze(a) + m == Squeeze(a);
    } else {
      var n, c := m[..|m| - 1], m[|m| - 1];
      assert m == n + [c] && a + m == (a + n) + [c];
      SqueezeBeforeMarks(a, n);
      SqueezeAtEnd(a + n, c);
    }
  }

  lemma SqueezeKeepsLast(a: string)
    requires a != "" && !IsSpace(a[|a| - 1])
    ensures Squeeze(a) != "" && Squeeze(a)[|Squeeze(a)| - 1] == a[|a| - 1]
  {
    var n := |a| - 1;
    assert a == a[..n] + [a[n]];
    SqueezeAtEnd(a[..n], a[n]);
  }

  lemma {:induction false} LStripBefore(x: string, m: string)
    requires x != "" && !IsSpace(x[|x| - 1])
    ensures LStrip(x + m) == LStrip(x) + m && LStrip(x) != ""
    ensures LStrip(x)[|LStrip(x)| - 1] == x[|x| - 1]
  {
    if IsSpace(x[0]) {
      var y := x[1..];
      assert (x + m)[1..] == y + m && y[|y| - 1] == x[|x| - 1];
      LStripBefore(y, m);
    }
  }

  lemma RStripStays(s: string)
    requires s == "" || !IsSpace(s[|s| - 1])
    ensures RStrip(s) == s
  {
  }

  lemma LastOfJoin(l: string, m: string)
    requires AllMarks(m) && m != ""
    ensures l + m != "" && IsMark((l + m)[|l + m| - 1])
  {
    assert (l + m)[|l + m| - 1] == m[|m| - 1];
  }

  lemma StripBeforeMarks(x: string, m: string)
    requires AllMarks(m) && (x == "" || !IsSpace(x[|x| - 1]))
    ensures Strip(x + m) == Strip(x) + m
  {
    if m == "" {
      assert x + m == x && Strip(x) + m == Strip(x);
    } else {
      var l := LStrip(x);
      if x == "" {
        assert x + m == m && l + m == m;
      } else {
        LStripBefore(x, m);
      }
      RStripStays(l);
      LastOfJoin(l, m);
      RStripStays(l + m);
    }
  }

  lemma {:induction false} DedupeAtEnd(t: string, c: char)
    ensures Dedupe(t + [c]) == if t != "" && t[|t| - 1] == c && IsMark(c) then Dedupe(t) else Dedupe(t) + [c]
  {
    if t == "" {
      assert t + [c] == [c];
    } else {
      var u := t[1..];
      assert (t + [c])[1..] == u + [c];
      DedupeAtEnd(u, c);
      if u == "" {
        assert t == [t[0]];
      } else {
        assert (t + [c])[1] == u[0];
      }
    }
  }

  lemma DropLast(d: string, c: char)
    requires IsMark(c)
    ensures RStripMarks(d + [c]) == RStripMarks(d)
  {
    assert (d + [c])[..|d|] == d;
  }

  /** It does not matter whether marks are collapsed before or after the last ones are dropped. */
  lemma {:induction false} DropThenDedupe(s: string)
    ensures RStripMarks(Dedupe(s)) == Dedupe(RStripMarks(s))
  {
    DedupeKeeps(s);
    if s != "" && IsMark(s[|s| - 1]) {
      var t, c := s[..|s| - 1], s[|s| - 1];
      assert s == t + [c];
      DedupeAtEnd(t, c);
      DropThenDedupe(t);
      DropLast(t, c);
      DropLast(Dedupe(t), c);
    }
  }

  lemma {:induction false} DropAppended(y: string, m: string)
    requires AllMarks(m)
    ensures RStripMarks(y + m) == RStripMarks(y)
  {
    if m == "" {
      assert y + m == y;
    } else {
      DropAppended(y, m[..|m| - 1]);
      assert (y + m)[..|y + m| - 1] == y + m[..|m| - 1];
    }
  }

  /** Closing a question with any run of sentence punctuation asks the same question. */
  lemma ClosingMarksDoNotMatter(query: string, marks: string)
    requires forall i :: 0 <= i < |marks| ==> marks[i] in "?!.,;:"
    requires query == "" || !IsSpace(query[|query| - 1])
    ensures Normalize(query + marks) == Normalize(query)
  {
    assert AllMarks(marks);
    var a := Lower(query);
    LowerJoins(query, marks);
    assert Lower(marks) == marks;
    SqueezeBeforeMarks(a, marks);
    if a != "" {
      SqueezeKeepsLast(a);
    }
    StripBeforeMarks(Squeeze(a), marks);
    var y := Folded(query);
    assert Folded(query + marks) == y + marks;
    DropThenDedupe(y + marks);
    DropThenDedupe(y);
    DropAppended(y, marks);
  }

  // ------------------------------------------------------------ a second pass

  lemma {:induction false} SqueezeSpaced(s: string)
    requires Spaced(s)
    ensures Squeeze(s) == s
  {
    if s != "" {
      SliceKeeps(s, 1, s[1..]);
      SqueezeSpaced(s[1..]);
      assert |s| > 1 ==> !(IsSpace(s[1 - 1]) && IsSpace(s[1]));
    }
  }

  lemma {:induction false} DedupeUnrepeated(s: string)
    requires Unrepeated(s)
    ensures Dedupe(s) == s
  {
    if s != "" {
      SliceKeeps(s, 1, s[1..]);
      DedupeUnrepeated(s[1..]);
      assert |s| > 1 ==> !(s[1 - 1] == s[1] && IsMark(s[1]));
    }
  }

  lemma LowerUnchanged(s: string)
    requires NoUpper(s)
    ensures Lower(s) == s
  {
  }

  lemma StripTrimmed(s: string)
    requires Trimmed(s)
    ensures Strip(s) == s
  {
    RStripStays(s);
  }

  lemma FoldedTwice(r: string)
    requires NoUpper(r) && Spaced(r) && Trimmed(r)
    ensures Folded(r) == r
  {
    LowerUnchanged(r);
    SqueezeSpaced(r);
    StripTrimmed(r);
  }

  lemma ClosedTwice(r: string)
    requires Unrepeated(r) && Trimmed(r)
    ensures Closed(r) <= r
    ensures Closed(r) == r <==> r == "" || !IsMark(r[|r| - 1])
  {
    DedupeUnrepeated(r);
    var p := RStripMarks(r);
    assert p != "" ==> p[0] == r[0];
    assert LStrip(p) == p;
    if p == r {
      RStripStays(r);
    }
  }

  lemma NormalAgain(r: string)
    requires NoUpper(r) && Spaced(r) && Unrepeated(r) && Trimmed(r)
    ensures Normalize(r) <= r
    ensures Normalize(r) == r <==> r == "" || !IsMark(r[|r| - 1])
  {
    FoldedTwice(r);
    ClosedTwice(r);
  }

  /** A second pass can only drop more closing punctuation, and it changes
      nothing exactly when the first result does not end in any. */
  lemma SecondPass(query: string)
    ensures Normalize(Normalize(query)) <= Normalize(query)
    ensures Normalize(Normalize(query)) == Normalize(query)
            <==> Normalize(query) == "" || !IsMark(Normalize(query)[|Normalize(query)| - 1])
  {
    NormalForm(query);
    NormalAgain(Normalize(query));
  }

  // ------------------------------------------------- when a second pass matters

  predicate EndsInMark(s: string) {
    s != "" && IsMark(s[|s| - 1])
  }

  /** The query without its closing white space, its closing marks, and the white space before those. */
  function Core(query: string): string {
    RStrip(RStripMarks(RStrip(query)))
  }

  /** Reading backwards: skip white space, then marks, then white space; is a mark next? */
  predicate HidesMark(s: string) {
    if s == "" then false
    else if IsSpace(s[|s| - 1]) then HidesMark(s[..|s| - 1])
    else if IsMark(s[|s| - 1]) then MarksHideMark(s[..|s| - 1])
    else false
  }

  predicate MarksHideMark(s: string) {
    if s == "" then false
    else if IsMark(s[|s| - 1]) then MarksHideMark(s[..|s| - 1])
    else if IsSpace(s[|s| - 1]) then SpaceHidesMark(s[..|s| - 1])
    else false
  }

  predicate SpaceHidesMark(s: string) {
    if s == "" then false
    else if IsSpace(s[|s| - 1]) then SpaceHidesMark(s[..|s| - 1])
    else IsMark(s[|s| - 1])
  }

  lemma {:induction false} SpaceScan(s: string)
    ensures SpaceHidesMark(s) <==> EndsInMark(RStrip(s))
  {
    if s != "" && IsSpace(s[|s| - 1]) {
      SpaceScan(s[..|s| - 1]);
    }
  }

  lemma {:induction false} MarksScan(s: string)
    ensures MarksHideMark(s) <==> EndsInMark(RStrip(RStripMarks(s)))
  {
    if s != "" {
      var t := s[..|s| - 1];
      if IsMark(s[|s| - 1]) {
        MarksScan(t);
      } else if IsSpace(s[|s| - 1]) {
        SpaceScan(t);
      }
    }
  }

  lemma {:induction false} CoreScan(s: string)
    ensures HidesMark(s) <==> EndsInMark(Core(s))
  {
    if s != "" {
      var t := s[..|s| - 1];
      if IsSpace(s[|s| - 1]) {
        CoreScan(t);
      } else if IsMark(s[|s| - 1]) {
        MarksScan(t);
      }
    }
  }

  /** Two texts that read the same backwards, as far as the scan can tell. */
  ghost predicate ScansAlike(s: string, t: string) {
    && (HidesMark(s) <==> HidesMark(t))
    && (MarksHideMark(s) <==> MarksHideMark(t))
    && (SpaceHidesMark(s) <==> SpaceHidesMark(t))
  }

  lemma AlikeAtEnd(s: string, t: string, c: char, d: char)
    requires ScansAlike(s, t) && (IsSpace(c) <==> IsSpace(d)) && (IsMark(c) <==> IsMark(d))
    ensures ScansAlike(s + [c], t + [d])
  {
    assert (s + [c])[..|s|] == s && (t + [d])[..|t|] == t;
  }

  /** One more space after a space makes no difference. */
  lemma SpaceAfterSpace(s: string, c: char)
    requires s != "" && IsSpace(s[|s| - 1]) && IsSpace(c)
    ensures ScansAlike(s + [c], s)
  {
    assert (s + [c])[..|s|] == s;
  }

  lemma AlikeTwice(s: string, t: string, u: string)
    requires ScansAlike(s, t) && ScansAlike(t, u)
    ensures ScansAlike(s, u)
  {
  }

  lemma {:induction false} LowerScans(s: string)
    ensures ScansAlike(Lower(s), s)
  {
    if s != "" {
      var t, c := s[..|s| - 1], s[|s| - 1];
      assert s == t + [c];
      LowerScans(t);
      LowerJoins(t, [c]);
      assert Lower([c]) == [LowerChar(c)];
      AlikeAtEnd(Lower(t), t, LowerChar(c), c);
    }
  }

  lemma {:induction false} SqueezeScans(s: string)
    ensures ScansAlike(Squeeze(s), s)
  {
    if s != "" {
      var t, c := s[..|s| - 1], s[|s| - 1];
      assert s == t + [c];
      SqueezeScans(t);
      SqueezeAtEnd(t, c);
      if IsSpace(c) && t != "" && IsSpace(t[|t| - 1]) {
        SpaceAfterSpace(t, c);
        AlikeTwice(Squeeze(t), t, s);
      } else {
        AlikeAtEnd(Squeeze(t), t, if IsSpace(c) then ' ' else c, c);
      }
    }
  }

  lemma {:induction false} LStripAtEnd(t: string, c: char)
    ensures LStrip(t + [c]) == if LStrip(t) == "" && IsSpace(c) then "" else LStrip(t) + [c]
  {
    if t == "" {
      assert t + [c] == [c] && [c][1..] == "";
    } else {
      assert (t + [c])[1..] == t[1..] + [c] && (t + [c])[0] == t[0];
      LStripAtEnd(t[1..], c);
    }
  }

  lemma {:induction false} LStripScans(s: string)
    ensures ScansAlike(LStrip(s), s)
  {
    if s != "" {
      var t, c := s[..|s| - 1], s[|s| - 1];
      assert s == t + [c];
      LStripScans(t);
      LStripAtEnd(t, c);
      if LStrip(t) == "" && IsSpace(c) {
        assert (t + [c])[..|t|] == t;
      } else {
        AlikeAtEnd(LStrip(t), t, c, c);
      }
    }
  }

  /** Folding a query does not change what hides at its end. */
  lemma FoldingScans(query: string)
    ensures EndsInMark(RStrip(RStripMarks(Folded(query)))) <==> EndsInMark(Core(query))
  {
    var l, s := Lower(query), Squeeze(Lower(query));
    LowerScans(query);
    SqueezeScans(l);
    LStripScans(s);
    AlikeTwice(s, l, query);
    AlikeTwice(LStrip(s), s, query);
    CoreScan(LStrip(s));
    CoreScan(query);
  }

  lemma RStripAtEnd(t: string, c: char)
    ensures RStrip(t + [c]) == if IsSpace(c) then RStrip(t) else t + [c]
  {
    assert (t + [c])[..|t|] == t;
  }

  lemma {:induction false} RStripThenDedupe(s: string)
    ensures RStrip(Dedupe(s)) == Dedupe(RStrip(s))
  {
    if s != "" {
      var t, c := s[..|s| - 1], s[|s| - 1];
      assert s == t + [c];
      DedupeAtEnd(t, c);
      RStripAtEnd(t, c);
      if IsSpace(c) {
        RStripThenDedupe(t);
        RStripAtEnd(Dedupe(t), c);
      } else {
        DedupeKeeps(s);
        RStripStays(Dedupe(s));
      }
    }
  }

  /** Closing a text that starts without white space leaves what dropping its end leaves, collapsed. */
  lemma ClosedIs(y: string)
    requires y == "" || !IsSpace(y[0])
    ensures Closed(y) == Dedupe(RStrip(RStripMarks(y)))
  {
    var z := RStripMarks(y);
    DropThenDedupe(y);
    DedupeKeeps(z);
    assert z != "" ==> z[0] == y[0];
    assert LStrip(Dedupe(z)) == Dedupe(z);
    RStripThenDedupe(z);
  }

  lemma ResultEnds(query: string)
    ensures EndsInMark(Normalize(query)) <==> EndsInMark(Core(query))
  {
    var y := Folded(query);
    FoldedForm(query);
    ClosedIs(y);
    DedupeKeeps(RStrip(RStripMarks(y)));
    FoldingScans(query);
  }

  /** Exactly when normalising twice is normalising once, told from the query:
      drop its closing white space, then its closing marks, then the white space
      before those. The second pass changes something if and only if a mark is
      left at the end. */
  lemma IdempotentIff(query: string)
    ensures Normalize(Normalize(query)) == Normalize(query) <==> !EndsInMark(Core(query))
    ensures Normalize(Normalize(query)) <= Normalize(query)
  {
    SecondPass(query);
    ResultEnds(query);
  }

  /** Normalisation is not idempotent: a space hides a mark from the first pass.
      "what? !" becomes "what?", which becomes "what", and so does any such text. */
  lemma NotIdempotent(x: string)
    requires x != "" && NoUpper(x) && Spaced(x) && Unrepeated(x) && Trimmed(x) && !IsMark(x[|x| - 1])
    ensures Normalize(x + ['?', ' ', '!']) == x + ['?'] && Normalize(x + ['?']) == x
  {
    var t := x + ['?'];
    var u := t + [' '];
    assert u + ['!'] == x + ['?', ' ', '!'];
    OneMore(x, '?');
    ClosingOne(x);
    ClosingTwo(t, u, u + ['!']);
  }

  lemma ClosingOne(x: string)
    requires x != "" && NoUpper(x) && Spaced(x) && Unrepeated(x) && Trimmed(x) && !IsMark(x[|x| - 1])
    ensures Normalize(x + ['?']) == x
  {
    OneMore(x, '?');
    FoldedTwice(x + ['?']);
    ClosedOnce(x + ['?'], x, x);
  }

  lemma ClosingTwo(t: string, u: string, s: string)
    requires t != "" && NoUpper(t) && Spaced(t) && Unrepeated(t) && Trimmed(t)
    requires u == t + [' '] && s == u + ['!']
    ensures Normalize(s) == t
  {
    OneMore(t, ' ');
    OneMore(u, '!');
    FoldedTwice(s);
    ClosedOnce(s, u, t);
  }

  lemma OneMore(x: string, c: char)
    requires x != "" && NoUpper(x) && Spaced(x) && Unrepeated(x) && !IsSpace(x[0])
    requires !('A' <= c <= 'Z') && (c == ' ' || !IsSpace(c))
    requires !(IsSpace(x[|x| - 1]) && IsSpace(c)) && x[|x| - 1] != c
    ensures NoUpper(x + [c]) && Spaced(x + [c]) && Unrepeated(x + [c])
    ensures !IsSpace((x + [c])[0]) && (x + [c])[|x|] == c && (x + [c])[..|x|] == x
  {
  }

  lemma ClosedOnce(s: string, y: string, x: string)
    requires Unrepeated(s) && s != "" && y == s[..|s| - 1] && IsMark(s[|s| - 1])
    requires y != "" && !IsMark(y[|y| - 1]) && !IsSpace(y[0])
    requires y == x || y == x + [' ']
    requires x != "" && !IsSpace(x[|x| - 1])
    ensures Closed(s) == x
  {
    DedupeUnrepeated(s);
    RStripStays(x);
    if y != x {
      assert y[..|y| - 1] == x;
    }
  }
}
