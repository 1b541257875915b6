/**
 * Replacing a body section twice (replaceOrAppendBodySection in src/frontmatter.ts), in a document
 * that may hold any number of such sections: only the first is ever taken out.
 */
module SectionCopies {
  import opened Prelude
  import opened Text
  import opened Frontmatters
  import opened Escalations

  /** The lines that stay in front of the section that is written. */
  function Before(doc: Doc, heading: string): (before: Doc)
    requires doc != []
    ensures before != []
  {
    TrimEnd(WithoutSection(doc, heading))
  }

  /** The section that is written, as it stands at the end of a text. */
  function Standing(heading: string, body: Doc): seq<string> {
    Trimming(["## " + heading, ""] + body)
  }

  /** Copies of one section with a blank line between them, and nothing else. */
  predicate Copies(lines: seq<string>, section: seq<string>) {
    || lines == section
    || (|section| < |lines| && lines[..|section| + 1] == section + [""] && Copies(lines[|section| + 1..], section))
  }

  /**
   * The body opens no section and no such section is left; or those left are copies of the very
   * section that is written, up to the end.
   */
  predicate Settles(doc: Doc, heading: string, body: Doc)
    requires doc != []
  {
    var before, section := Before(doc, heading), Standing(heading, body);
    var i := HeadingFrom(before + [""], "## " + heading, 1);
    if i >= |before| then NoSections(body)
    else NoSections(Skip(section, 1)) && Copies(before[i..], section)
  }

  function Skip(lines: seq<string>, n: nat): seq<string> {
    if n <= |lines| then lines[n..] else []
  }

  // ----- copies and the equation they solve -----

  lemma {:induction false} CopiesShift(lines: seq<string>, section: seq<string>)
    requires Copies(lines, section)
    ensures lines + ([""] + section) == section + [""] + lines
  {
    if lines == section {
      assert lines + ([""] + section) == section + [""] + lines;
    } else {
      var rest := lines[|section| + 1..];
      CopiesShift(rest, section);
      assert lines == section + [""] + rest;
      assert lines + ([""] + section) == section + [""] + (rest + ([""] + section));
    }
  }

  /** Lines that are one section further on after a section was cut from them are copies of it. */
  lemma {:induction false} ShiftIsCopies(lines: seq<string>, section: seq<string>, cut: seq<string>)
    requires lines + ([""] + section) == cut + lines && lines != [] && section != []
    requires |cut| == |section| + 1 && StartsWith(cut[0], "## ") && cut[0] == lines[0]
    requires forall t :: 2 <= t < |cut| ==> !StartsWith(cut[t], "## ")
    requires |section| == 1 || section[0] == lines[0]
    ensures Copies(lines, section) && cut == section + [""]
    decreases |lines|
  {
    hide StartsWith;
    var whole, n, w := lines + ([""] + section), |cut|, |lines|;
    if w < n {
      assert whole[w + 1] == section[0];
      assert forall t :: 2 <= t < n ==> whole[t] == cut[t];
      assert w + 1 == n;
      assert whole[n..] == lines && whole[n..] == section;
      assert whole[..n] == cut && whole[..n] == lines + [""];
    } else {
      assert whole[..n] == cut && whole[..n] == lines[..n];
      var rest := lines[n..];
      assert lines == cut + rest;
      assert (cut + (rest + ([""] + section)))[n..] == rest + ([""] + section);
      assert whole == cut + (rest + ([""] + section));
      assert (cut + lines)[n..] == lines;
      assert rest + ([""] + section) == cut + rest;
      EmptyOpensNothing();
      assert (rest + ([""] + section))[0] == if rest == [] then "" else rest[0];
      assert (cut + rest)[0] == cut[0];
      ShiftIsCopies(rest, section, cut);
      assert lines[..|section| + 1] == section + [""];
    }
  }

  lemma EmptyOpensNothing()
    ensures !StartsWith("", "## ")
  {
  }

  /** The first section of copies is as long as they are, if nothing in it opens another. */
  lemma CutOfCopies(lines: seq<string>, section: seq<string>, line: string, n: nat)
    requires Copies(lines, section) && section != [] && section[0] == line && StartsWith(line, "## ")
    requires NoSections(section[1..]) && 2 <= n <= |lines| + 1 && StartsWith((lines + ["", line])[n], "## ")
    requires forall t :: 2 <= t < n ==> !StartsWith((lines + ["", line])[t], "## ")
    ensures n == |section| + 1
  {
    hide *;
    CopiesLook(lines, section, line);
    LooksOpen(lines + ["", line], section);
  }

  /** Copies begin with the section, a blank line and the opening line again. */
  lemma CopiesLook(lines: seq<string>, section: seq<string>, line: string)
    requires Copies(lines, section) && section != [] && section[0] == line
    ensures |section| <= |lines|
    ensures (lines + ["", line])[..|section| + 2] == section + ["", line]
  {
    var m := |section| + 1;
    if lines == section {
      assert lines + ["", line] == section + ["", line];
    } else {
      var rest := lines[m..];
      CopiesStart(rest, section);
      assert lines == section + [""] + rest && rest == [line] + rest[1..];
      hide Copies;
      assert lines + ["", line] == section + ["", line] + (rest[1..] + ["", line]);
    }
  }

  lemma LooksOpen(whole: seq<string>, section: seq<string>)
    requires section != [] && NoSections(section[1..]) && |section| + 2 <= |whole|
    requires whole[..|section| + 2] == section + ["", section[0]] && StartsWith(section[0], "## ")
    ensures StartsWith(whole[|section| + 1], "## ")
    ensures forall t :: 1 <= t < |section| + 1 ==> !StartsWith(whole[t], "## ")
  {
    EmptyOpensNothing();
    hide StartsWith;
    var front := section + ["", section[0]];
    assert forall t :: 0 <= t < |front| ==> whole[t] == front[t];
    assert forall t :: 1 <= t < |section| ==> front[t] == section[1..][t - 1];
  }

  lemma CopiesStart(lines: seq<string>, section: seq<string>)
    requires Copies(lines, section) && section != []
    ensures lines != [] && lines[0] == section[0]
  {
    if lines != section {
      assert lines[..|section| + 1][0] == (section + [""])[0];
    }
  }

  /** Cutting the first section and writing the new one behind gives the lines back exactly if they are copies. */
  lemma CutIffCopies(lines: seq<string>, section: seq<string>, line: string, n: nat)
    requires lines != [] && lines[0] == line && StartsWith(line, "## ") && 2 <= n <= |lines| + 1
    requires |section| == 1 || (|section| > 1 && section[0] == line && section[1] == "")
    requires StartsWith((lines + ["", line])[n], "## ")
    requires forall t :: 2 <= t < n ==> !StartsWith((lines + ["", line])[t], "## ")
    ensures (lines + ([""] + section))[n..] == lines <==> NoSections(Skip(section, 1)) && Copies(lines, section)
  {
    hide StartsWith, Copies, NoSections;
    var whole := lines + ([""] + section);
    if whole[n..] == lines {
      var cut := whole[..n];
      assert whole == cut + whole[n..];
      assert |whole| == n + |lines|;
      assert cut[0] == lines[0];
      assert forall t :: 2 <= t < n ==> cut[t] == (lines + ["", line])[t];
      ShiftIsCopies(lines, section, cut);
      assert forall t :: 2 <= t < |section| ==> section[t] == cut[t];
      RestOpensNothing(section);
    }
    if NoSections(Skip(section, 1)) && Copies(lines, section) {
      CopiesStart(lines, section);
      CutOfCopies(lines, section, line, n);
      CopiesShift(lines, section);
      assert (section + [""] + lines)[n..] == lines;
    }
  }

  lemma RestOpensNothing(section: seq<string>)
    requires section != [] && (|section| == 1 || section[1] == "")
    requires forall t :: 2 <= t < |section| ==> !StartsWith(section[t], "## ")
    ensures NoSections(Skip(section, 1))
  {
    EmptyOpensNothing();
    hide StartsWith;
    assert forall t :: 0 <= t < |section| - 1 ==> section[1..][t] == section[t + 1];
  }

  // ----- the document, piece by piece -----

  lemma HeadingOpens(heading: string)
    ensures var line := "## " + heading; StartsWith(line, "## ") && TrimRight(line) != "" && line != ""
  {
    SectionLineIsNotBlank("## " + heading);
  }

  lemma StandingIs(heading: string, body: Doc)
    ensures var line, section := "## " + heading, Standing(heading, body);
            |section| == 1 || (|section| > 1 && section[0] == line && section[1] == "")
    ensures Standing(heading, body) == Trimming(["## " + heading, ""] + body)
  {
    var line := "## " + heading;
    HeadingOpens(heading);
    TrimmingOfAppend([line, ""], body);
    TrimmingOfAppend([line], [""]);
    assert [line] + [""] == [line, ""];
    BlankTrims();
    hide TrimRight;
    assert Init([line]) == [] && |Trimming([line])| == 1;
  }

  /** What is left of the end of a document that holds these lines and then the section. */
  lemma EndTrims(lines: seq<string>, heading: string, body: Doc, n: nat)
    requires n <= |lines| + 1
    ensures Trimming((lines + ["", "## " + heading, ""] + body + [""])[n..])
            == (lines + ([""] + Standing(heading, body)))[n..]
    ensures Standing(heading, body) != []
  {
    hide *;
    var line := "## " + heading;
    var text := [line, ""] + body;
    StandingIs(heading, body);
    BlankTrims();
    TrimmingOfAppend(text, [""]);
    TrimmingOfAppend([""], text + [""]);
    if n <= |lines| {
      TrimmingOfAppend(lines[n..], [""] + (text + [""]));
      assert (lines + ["", line, ""] + body + [""])[n..] == lines[n..] + ([""] + (text + [""]));
    } else {
      assert (lines + ["", line, ""] + body + [""])[n..] == text + [""];
    }
  }

  lemma {:induction false} TrimEndBehind(front: seq<string>, rest: seq<string>)
    requires front != [] && Trimming(rest) != []
    ensures TrimEnd(front + rest) == front + Trimming(rest)
  {
    hide TrimRight;
    assert Last(front + rest) == Last(rest) && Init(front + rest) == front + Init(rest);
    if TrimRight(Last(rest)) == "" {
      TrimEndBehind(front, Init(rest));
    } else {
      assert front + (Init(rest) + [TrimRight(Last(rest))]) == front + Init(rest) + [TrimRight(Last(rest))];
    }
  }

  /** Writing the section behind two texts gives one document only if the texts are one. */
  lemma EndingIsOne(a: seq<string>, b: seq<string>, line: string, body: Doc)
    ensures Ending(a, line, body) == Ending(b, line, body) <==> a == b
  {
    var x, y := Ending(a, line, body), Ending(b, line, body);
    if x == y {
      assert |a| == |b|;
      assert x[..|a|] == a && y[..|a|] == b;
    }
  }

  lemma ReplacedIs(doc: Doc, heading: string, body: Doc)
    requires doc != []
    ensures Replaced(doc, heading, body) == Ending(Before(doc, heading), "## " + heading, body)
  {
    hide TrimEnd, WithoutSection;
  }

  /** Where no such section is left, the written one is taken out again, up to the next section in it. */
  lemma NoneLeft(before: Doc, heading: string, body: Doc)
    requires before != [] && forall m :: 1 <= m < |before| ==> before[m] != "## " + heading
    requires TrimEnd(before + [""]) == before
    ensures Before(Ending(before, "## " + heading, body), heading) == before <==> NoSections(body)
  {
    hide *;
    var p := SectionFrom(body, 0);
    var doc := Ending(before, "## " + heading, body);
    EndingIsSome(before, "## " + heading, body);
    EndingCut(before, heading, body);
    BeforeIs(doc, heading);
    FirstSection(body);
    if p == |body| {
      NothingBehind(before + [""]);
    } else {
      StillThere(before, body, p);
    }
  }

  lemma EndingIsSome(before: Doc, line: string, body: Doc)
    ensures Ending(before, line, body) != []
  {
  }

  lemma NothingBehind(lines: seq<string>)
    ensures lines + [] == lines
  {
  }

  lemma StillThere(before: Doc, body: Doc, p: nat)
    requires p < |body| && StartsWith(body[p], "## ")
    ensures |TrimEnd(before + [""] + (body[p..] + [""]))| > |before|
  {
    hide *;
    var again := before + [""] + (body[p..] + [""]);
    assert again[|before| + 1] == body[p];
    SectionLineIsNotBlank(body[p]);
    TrimEndKeeps(again, |before| + 1);
  }

  lemma BeforeIs(doc: Doc, heading: string)
    requires doc != []
    ensures WithoutSection(doc, heading) != [] && Before(doc, heading) == TrimEnd(WithoutSection(doc, heading))
  {
    hide TrimEnd;
  }

  lemma FirstSection(body: Doc)
    ensures var p := SectionFrom(body, 0);
            p <= |body| && (p == |body| <==> NoSections(body)) && (p < |body| ==> StartsWith(body[p], "## "))
  {
    hide StartsWith;
  }

  /** Where one is left, it is the first that is taken out. */
  lemma FirstLeftIsCut(before: Doc, heading: string, body: Doc, i: nat)
    requires 1 <= i < |before| && before[i] == "## " + heading
    requires forall m :: 1 <= m < i ==> before[m] != "## " + heading
    ensures Before(Ending(before, "## " + heading, body), heading) == before
            <==> NoSections(Skip(Standing(heading, body), 1)) && Copies(before[i..], Standing(heading, body))
  {
    hide *;
    var line, section, lines := "## " + heading, Standing(heading, body), before[i..];
    var doc := Ending(before, line, body);
    var n := CutFirst(before, heading, body, i);
    StandingIs(heading, body);
    HeadingOpens(heading);
    CutIffCopies(lines, section, line, n);
    SamePrefix(before[..i], (lines + ([""] + section))[n..], lines);
    SplitAt(before, i);
  }

  lemma SplitAt(doc: Doc, i: nat)
    requires i < |doc|
    ensures doc == doc[..i] + doc[i..] && doc[i..][0] == doc[i]
  {
  }

  /** The section taken out: its length, and what is kept. */
  lemma CutFirst(before: Doc, heading: string, body: Doc, i: nat) returns (n: nat)
    requires 1 <= i < |before| && before[i] == "## " + heading
    requires forall m :: 1 <= m < i ==> before[m] != "## " + heading
    ensures var line, lines := "## " + heading, before[i..];
            && 2 <= n <= |lines| + 1 && StartsWith((lines + ["", line])[n], "## ")
            && (forall t :: 2 <= t < n ==> !StartsWith((lines + ["", line])[t], "## "))
            && Before(Ending(before, line, body), heading)
               == before[..i] + (lines + ([""] + Standing(heading, body)))[n..]
  {
    hide *;
    var line, lines := "## " + heading, before[i..];
    var doc := Ending(before, line, body);
    HeadingOpens(heading);
    EndingIs(before, line, body, i);
    HeadingIsAt(doc, line, 1, i);
    var j := SectionFrom(doc, i + 2);
    NextSection(doc, i + 2, |before| + 1);
    CutAt(doc, heading, i, j);
    BeforeIs(doc, heading);
    n := j - i;
    SliceAgain(doc, i, n);
    EndTrims(lines, heading, body, n);
    SomeBehind(lines, Standing(heading, body), n);
    TrimEndBehind(before[..i], doc[j..]);
    SameLines(before, line, body, i, n);
  }

  lemma SliceAgain(doc: Doc, i: nat, n: nat)
    requires i + n <= |doc|
    ensures doc[i + n..] == doc[i..][n..]
  {
  }

  lemma SomeBehind(lines: seq<string>, section: seq<string>, n: nat)
    requires n <= |lines| + 1 && section != []
    ensures (lines + ([""] + section))[n..] != []
  {
  }

  lemma SameLines(before: Doc, line: string, body: Doc, i: nat, n: nat)
    requires i < |before| && n <= |before| - i + 1
    ensures var doc := Ending(before, line, body);
            forall t :: 0 <= t <= n ==> i + t < |doc| && (before[i..] + ["", line])[t] == doc[i + t]
  {
  }

  lemma SamePrefix(front: seq<string>, a: seq<string>, b: seq<string>)
    ensures front + a == front + b <==> a == b
  {
    if front + a == front + b {
      assert (front + a)[|front|..] == a && (front + b)[|front|..] == b;
    }
  }

  lemma EndingIs(before: Doc, line: string, body: Doc, i: nat)
    requires i < |before|
    ensures var doc := Ending(before, line, body);
            && |doc| == |before| + 4 + |body| && doc[..i] == before[..i] && doc[|before| + 1] == line
            && doc[i..] == before[i..] + ["", line, ""] + body + [""]
            && forall m :: 0 <= m < |before| ==> doc[m] == before[m]
  {
  }

  lemma NextSection(doc: Doc, k: nat, at: nat)
    requires k <= at < |doc| && StartsWith(doc[at], "## ")
    ensures var j := SectionFrom(doc, k);
            k <= j <= at && StartsWith(doc[j], "## ") && forall m :: k <= m < j ==> !StartsWith(doc[m], "## ")
  {
    hide StartsWith;
  }

  lemma HeadingLeft(before: Doc, line: string)
    ensures var i := HeadingFrom(before + [""], line, 1);
            if i >= |before| then forall m :: 1 <= m < |before| ==> before[m] != line
            else 1 <= i && before[i] == line && forall m :: 1 <= m < i ==> before[m] != line
  {
    var doc := before + [""];
    assert forall m :: 0 <= m < |before| ==> doc[m] == before[m];
  }

  lemma SettlesIs(doc: Doc, heading: string, body: Doc)
    requires doc != []
    ensures var before, section := Before(doc, heading), Standing(heading, body);
            var i := HeadingFrom(before + [""], "## " + heading, 1);
            Settles(doc, heading, body)
            <==> if i >= |before| then NoSections(body)
                 else NoSections(Skip(section, 1)) && Copies(before[i..], section)
  {
    hide Before, Standing, HeadingFrom, NoSections, Copies, Skip;
  }

  /** Replacing a section twice is replacing it once exactly when the document settles, whatever it holds. */
  lemma ReplaceSettlesIff(doc: Doc, heading: string, body: Doc)
    requires doc != []
    ensures Replaced(Replaced(doc, heading, body), heading, body) == Replaced(doc, heading, body)
            <==> Settles(doc, heading, body)
  {
    hide *;
    var before, line := Before(doc, heading), "## " + heading;
    var once := Replaced(doc, heading, body);
    ReplacedIs(doc, heading, body);
    ReplacedIs(once, heading, body);
    EndingIsOne(Before(once, heading), before, line, body);
    SettlesIs(doc, heading, body);
    HeadingLeft(before, line);
    var i := HeadingFrom(before + [""], line, 1);
    if i >= |before| {
      BeforeIs(doc, heading);
      TrimEndStays(WithoutSection(doc, heading));
      NoneLeft(before, heading, body);
    } else {
      FirstLeftIsCut(before, heading, body, i);
    }
  }
}
