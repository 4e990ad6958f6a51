/** Different questions stay different: what normalisation may forget is white
    space, sentence punctuation and case, and nothing else.
 */
module SameQuestion {
  import opened Text
  import opened QueryKeys

  /** White space, or one of `?!.,;:`. */
  predicate Silent(c: char) {
    c == ' ' || 9 <= c as int <= 13 || 28 <= c as int <= 31 || c in "?!.,;:"
  }

  /** What a question says, without white space and sentence punctuation. */
  function Said(s: string): string {
    if s == "" then "" else (if Silent(s[0]) then "" else [s[0]]) + Said(s[1..])
  }

  lemma SilentIs(c: char)
    ensures Silent(c) <==> IsSpace(c) || IsMark(c)
  {
  }

  lemma SaidAhead(c: char, u: string)
    ensures Said([c] + u) == (if Silent(c) then "" else [c]) + Said(u)
  {
    assert ([c] + u)[1..] == u;
  }

  lemma {:induction false} SaidJoins(a: string, b: string)
    ensures Said(a + b) == Said(a) + Said(b)
  {
    if a == "" {
      assert a + b == b;
    } else {
      var c, u := a[0], a[1..];
      assert a == [c] + u && a + b == [c] + (u + b);
      SaidJoins(u, b);
      SaidAhead(c, u);
      SaidAhead(c, u + b);
    }
  }

  lemma SaidAtEnd(t: string, c: char)
    ensures Said(t + [c]) == Said(t) + if Silent(c) then "" else [c]
  {
    SaidJoins(t, [c]);
    SaidAhead(c, "");
    assert [c] + "" == [c];
  }

  // ---------------------------------------------------- each step, in turn

  lemma LowerSilent(c: char)
    ensures Silent(LowerChar(c)) == Silent(c) && (Silent(c) ==> LowerChar(c) == c)
  {
  }

  lemma {:induction false} LowerSaid(s: string)
    ensures Said(Lower(s)) == Lower(Said(s))
  {
    if s != "" {
      var c, u := s[0], s[1..];
      LowerSilent(c);
      LowerSaid(u);
      LowerJoins([c], u);
      assert s == [c] + u && Lower([c]) == [LowerChar(c)];
      SaidAhead(LowerChar(c), Lower(u));
      LowerJoins(if Silent(c) then "" else [c], Said(u));
    }
  }

  lemma {:induction false} SqueezeSaid(s: string)
    ensures Said(Squeeze(s)) == Said(s)
  {
    if s != "" {
      SqueezeSaid(s[1..]);
      SilentIs(s[0]);
      SaidAhead(s[0], Squeeze(s[1..]));
      SaidAhead(' ', Squeeze(s[1..]));
    }
  }

  lemma {:induction false} DedupeSaid(s: string)
    ensures Said(Dedupe(s)) == Said(s)
  {
    if s != "" {
      DedupeSaid(s[1..]);
      SilentIs(s[0]);
      SaidAhead(s[0], Dedupe(s[1..]));
    }
  }

  lemma {:induction false} LStripSaid(s: string)
    ensures Said(LStrip(s)) == Said(s)
  {
    if s != "" && IsSpace(s[0]) {
      SilentIs(s[0]);
      LStripSaid(s[1..]);
    }
  }

  lemma {:induction false} RStripSaid(s: string)
    ensures Said(RStrip(s)) == Said(s)
  {
    if s != "" && IsSpace(s[|s| - 1]) {
      var t, c := s[..|s| - 1], s[|s| - 1];
      SilentIs(c);
      RStripSaid(t);
      SaidAtEnd(t, c);
      assert s == t + [c];
    }
  }

  lemma {:induction false} MarksSaid(s: string)
    ensures Said(RStripMarks(s)) == Said(s)
  {
    if s != "" && IsMark(s[|s| - 1]) {
      var t, c := s[..|s| - 1], s[|s| - 1];
      SilentIs(c);
      MarksSaid(t);
      SaidAtEnd(t, c);
      assert s == t + [c];
    }
  }

  /** Normalising lowers what is said and keeps all of it, in order. */
  lemma NormalizeSaid(query: string)
    ensures Said(Normalize(query)) == Lower(Said(query))
  {
    var s := Squeeze(Lower(query));
    LowerSaid(query);
    SqueezeSaid(Lower(query));
    LStripSaid(s);
    RStripSaid(LStrip(s));
    var y := Folded(query);
    DedupeSaid(y);
    MarksSaid(Dedupe(y));
    var z := RStripMarks(Dedupe(y));
    LStripSaid(z);
    RStripSaid(LStrip(z));
  }

  lemma LoweredAlike(c: char, d: char)
    requires LowerChar(c) == LowerChar(d)
    ensures SameLetter(c, d)
  {
  }

  /** Two questions with one key say the same, character by character, up to case. */
  lemma KeysSeparate(a: string, b: string)
    requires Normalize(a) == Normalize(b)
    ensures SameLetters(Said(a), Said(b))
  {
    NormalizeSaid(a);
    NormalizeSaid(b);
    var s, t := Said(a), Said(b);
    forall i | 0 <= i < |s| ensures SameLetter(s[i], t[i]) {
      assert Lower(s)[i] == Lower(t)[i];
      LoweredAlike(s[i], t[i]);
    }
  }
}
