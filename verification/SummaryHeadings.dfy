/** Which lines of a summary are its headings
    (src/application/kernel/compaction_verifier.py, lines 185-190). */
module SummaryHeadings {
  import opened Texts
  import opened SummaryCheck

  const MARKS: Drop := Chars("#*-")
  const COLONS: Drop := Chars(":")

  // ---------------------------------------------------------------- heading lines

  /** Begins and ends with something that no stripping takes off. */
  predicate Firm(h: string) {
    h != "" && !IsSpace(h[0]) && h[0] !in "#*-" && !IsSpace(h[|h| - 1]) && h[|h| - 1] != ':'
  }

  /** A heading may have marks before it, colons after it, and white space around all of them. */
  ghost predicate Dressed(line: string, heading: string, a: string, marks: string, b: string, c: string,
                          colons: string, d: string)
  {
    && line == a + marks + b + heading + c + colons + d
    && Blank(a) && AllIn(marks, MARKS) && Blank(b) && Blank(c) && AllIn(colons, COLONS) && Blank(d)
  }

  ghost predicate HeadingLine(line: string, heading: string) {
    exists a, marks, b, c, colons, d :: Dressed(line, heading, a, marks, b, c, colons, d)
  }

  lemma {:induction false} AfterMarks(marks: string, b: string, rest: string)
    requires AllIn(marks, MARKS) && Blank(b)
    requires rest != "" && !IsSpace(rest[0]) && rest[0] !in "#*-" && !IsSpace(rest[|rest| - 1])
    ensures Strip(StripStart(marks + (b + rest), MARKS)) == rest
  {
    assert b != "" ==> b[0] in b;
    StripStartOf(marks, b + rest, MARKS);
    StripOf(b, rest, "");
    assert b + rest + "" == b + rest;
  }

  lemma {:induction false} BeforeColons(h: string, c: string, colons: string)
    requires Firm(h) && Blank(c) && AllIn(colons, COLONS)
    ensures Strip(StripEnd(h + c + colons, COLONS)) == h
  {
    assert c != "" ==> c[|c| - 1] in c;
    StripEndOf(h + c, colons, COLONS);
    StripOf("", h, c);
    assert "" + h + c == h + c;
  }

  /** What stands between the outer white space begins and ends with something else. */
  lemma {:induction false} OuterStrip(a: string, marks: string, b: string, rest: string, d: string)
    requires Blank(a) && AllIn(marks, MARKS) && Blank(d) && (marks == "" ==> b == "")
    requires rest != "" && !IsSpace(rest[0]) && !IsSpace(rest[|rest| - 1])
    ensures Strip(a + (marks + (b + rest)) + d) == marks + (b + rest)
  {
    assert marks != "" ==> marks[0] in marks;
    StripOf(a, marks + (b + rest), d);
  }

  lemma {:induction false} BareTight(line: string, h: string, a: string, marks: string, b: string, c: string,
                                     colons: string, d: string)
    requires Firm(h) && Dressed(line, h, a, marks, b, c, colons, d)
    requires (marks == "" ==> b == "") && (colons == "" ==> c == "")
    ensures Bare(line) == h
  {
    var rest := h + c + colons;
    assert colons != "" ==> colons[|colons| - 1] in colons;
    assert line == a + (marks + (b + rest)) + d;
    OuterStrip(a, marks, b, rest, d);
    AfterMarks(marks, b, rest);
    BeforeColons(h, c, colons);
  }

  lemma {:induction false} WithoutMarks(line: string, h: string, a: string, b: string, c: string, colons: string,
                                        d: string)
    requires Dressed(line, h, a, "", b, c, colons, d)
    ensures Dressed(line, h, a + b, "", "", c, colons, d)
  {
    assert a + "" + b == (a + b) + "" + "";
  }

  lemma {:induction false} WithoutColons(line: string, h: string, a: string, marks: string, b: string, c: string,
                                         d: string)
    requires Dressed(line, h, a, marks, b, c, "", d)
    ensures Dressed(line, h, a, marks, b, "", "", c + d)
  {
    var x := a + marks + b + h;
    assert x + c + "" + d == x + "" + "" + (c + d);
  }

  lemma {:induction false} DressedIsBare(line: string, h: string, a: string, marks: string, b: string, c: string,
                                         colons: string, d: string)
    requires Firm(h) && Dressed(line, h, a, marks, b, c, colons, d)
    ensures Bare(line) == h
    decreases |b| + |c|
  {
    if marks == "" && b != "" {
      WithoutMarks(line, h, a, b, c, colons, d);
      DressedIsBare(line, h, a + b, "", "", c, colons, d);
    } else if colons == "" && c != "" {
      WithoutColons(line, h, a, marks, b, c, d);
      DressedIsBare(line, h, a, marks, b, "", "", c + d);
    } else {
      BareTight(line, h, a, marks, b, c, colons, d);
    }
  }

  lemma {:induction false} BlankTogether(a: string, b: string)
    requires Blank(a) && Blank(b)
    ensures Blank(a + b)
  {
  }

  lemma {:induction false} InnerParts(v: string, h: string, b: string, e: string, c: string, colons: string, t: string)
    requires v == b + (e + h + c + colons) + t
    ensures v == (b + e) + h + c + colons + t
  {
  }

  lemma {:induction false} AllParts(a: string, marks: string, x: string, t: string, d: string)
    ensures a + (marks + (x + t)) + d == (a + marks + x) + (t + d)
  {
  }

  lemma {:induction false} FrontParts(f: string, x: string, h: string, c: string, colons: string)
    ensures f + (x + h + c + colons) == f + x + h + c + colons
  {
  }

  lemma {:induction false} BareIsDressed(line: string, h: string)
    requires Bare(line) == h
    ensures HeadingLine(line, h)
  {
    var a, d := BothCut(line);
    var marks := StartCut(Strip(line), MARKS);
    var v := StripStart(Strip(line), MARKS);
    var b, t := BothCut(v);
    var colons := EndCut(Strip(v), COLONS);
    var e, c := BothCut(StripEnd(Strip(v), COLONS));
    BlankTogether(b, e);
    BlankTogether(t, d);
    DressedTogether(line, h, a, marks, b, e, c, colons, t, d, v);
  }

  lemma {:induction false} DressedTogether(line: string, h: string, a: string, marks: string, b: string, e: string,
                                           c: string, colons: string, t: string, d: string, v: string)
    requires line == a + (marks + v) + d && v == b + (e + h + c + colons) + t
    requires Blank(a) && AllIn(marks, MARKS) && Blank(b + e) && Blank(c) && AllIn(colons, COLONS) && Blank(t + d)
    ensures HeadingLine(line, h)
  {
    var x := (b + e) + h + c + colons;
    InnerParts(v, h, b, e, c, colons, t);
    AllParts(a, marks, x, t, d);
    FrontParts(a + marks, b + e, h, c, colons);
    assert Dressed(line, h, a, marks, b + e, c, colons, t + d);
  }

  /** A summary has a heading if and only if one of its lines is the heading, dressed so. */
  lemma {:induction false} HeadingIff(summary: string, h: string)
    requires h in {DECISIONS, OPEN_TASKS, KEY_FACTS}
    ensures HasHeading(summary, h) <==> exists line <- SplitLines(summary) :: HeadingLine(line, h)
  {
    assert Firm(h);
    forall line ensures Bare(line) == h <==> HeadingLine(line, h) {
      if Bare(line) == h {
        BareIsDressed(line, h);
      }
      if HeadingLine(line, h) {
        var a, marks, b, c, colons, d :| Dressed(line, h, a, marks, b, c, colons, d);
        DressedIsBare(line, h, a, marks, b, c, colons, d);
      }
    }
  }
}
