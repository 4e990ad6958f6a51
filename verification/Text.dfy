/** The string operations the source leans on, on ASCII text. */
module Text {
  predicate IsSpace(c: char) {
    c == ' ' || '\t' <= c <= '\r' || '\U{001C}' <= c <= '\U{001F}'
  }

  function LStrip(s: string): (r: string)
    ensures |r| <= |s|
    ensures r != "" ==> !IsSpace(r[0])
  {
    if s != "" && IsSpace(s[0]) then LStrip(s[1..]) else s
  }

  lemma {:induction false} LStripSuffix(s: string)
    ensures LStrip(s) == s[|s| - |LStrip(s)|..]
  {
    if s != "" && IsSpace(s[0]) {
      LStripSuffix(s[1..]);
    }
  }

  function RStrip(s: string): (r: string)
    ensures r <= s
    ensures r != "" ==> !IsSpace(r[|r| - 1])
  {
    if s != "" && IsSpace(s[|s| - 1]) then RStrip(s[..|s| - 1]) else s
  }

  /** `s.strip()` */
  function Strip(s: string): (r: string)
    ensures |r| <= |s|
    ensures r != "" ==> !IsSpace(r[0]) && !IsSpace(r[|r| - 1])
  {
    RStrip(LStrip(s))
  }

  predicate Blank(s: string) {
    forall i :: 0 <= i < |s| ==> IsSpace(s[i])
  }

  lemma {:induction false} LStripBlank(s: string)
    ensures LStrip(s) == "" <==> Blank(s)
  {
    if s != "" && IsSpace(s[0]) {
      LStripBlank(s[1..]);
      assert Blank(s) <==> Blank(s[1..]) by {
        assert forall i :: 1 <= i < |s| ==> s[i] == s[1..][i - 1];
      }
    }
  }

  lemma {:induction false} RStripKeepsFirst(s: string)
    requires s != "" && !IsSpace(s[0])
    ensures RStrip(s) != "" && RStrip(s)[0] == s[0]
  {
    if IsSpace(s[|s| - 1]) {
      RStripKeepsFirst(s[..|s| - 1]);
    }
  }

  /** What is left after stripping is empty exactly when there was nothing but space. */
  lemma StripBlank(s: string)
    ensures Strip(s) == "" <==> Blank(s)
  {
    LStripBlank(s);
    var l := LStrip(s);
    if l != "" {
      RStripKeepsFirst(l);
    }
  }

  lemma {:induction false} RStripSplits(s: string) returns (after: string)
    ensures Blank(after) && s == RStrip(s) + after
  {
    if s != "" && IsSpace(s[|s| - 1]) {
      after := RStripSplits(s[..|s| - 1]);
      after := after + [s[|s| - 1]];
    } else {
      after := "";
    }
  }

  lemma {:induction false} LStripSplits(s: string) returns (before: string)
    ensures Blank(before) && s == before + LStrip(s)
  {
    if s != "" && IsSpace(s[0]) {
      before := LStripSplits(s[1..]);
      before := [s[0]] + before;
    } else {
      before := "";
    }
  }

  /** Stripping takes white space from the ends, all of it, and nothing else. */
  lemma StripSplits(s: string) returns (before: string, after: string)
    ensures Blank(before) && Blank(after) && s == before + Strip(s) + after
    ensures Strip(s) != "" ==> !IsSpace(Strip(s)[0]) && !IsSpace(Strip(s)[|Strip(s)| - 1])
  {
    before := LStripSplits(s);
    after := RStripSplits(LStrip(s));
  }

  lemma StrippedIsNotBlank(s: string)
    ensures Strip(s) != "" ==> !Blank(Strip(s)) && !Blank(s)
  {
    StripBlank(s);
    var r := Strip(s);
    assert r != "" ==> !IsSpace(r[0]);
  }
}
