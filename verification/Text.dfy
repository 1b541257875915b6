/** Characters, trimming, splitting and joining, as the JavaScript string methods the repository uses see them. */
module Text {
  import opened Prelude

  /** White space for trim() and \s: the ECMAScript WhiteSpace and LineTerminator characters. */
  predicate IsSpace(c: char) {
    var n := c as int;
    || 9 <= n <= 13 || n == 32 || n == 0xA0 || n == 0x1680 || 0x2000 <= n <= 0x200A
    || n == 0x2028 || n == 0x2029 || n == 0x202F || n == 0x205F || n == 0x3000 || n == 0xFEFF
  }

  /** What `.` does not match. */
  predicate IsLineTerminator(c: char) {
    c == '\n' || c == '\r' || c as int == 0x2028 || c as int == 0x2029
  }

  /** No character of a line terminator. */
  predicate OneLine(s: string) {
    forall i :: 0 <= i < |s| ==> !IsLineTerminator(s[i])
  }

  function TrimLeft(s: string): (r: string)
    ensures |r| <= |s| && r == s[|s| - |r|..]
    ensures r != "" ==> !IsSpace(r[0])
    ensures forall k :: 0 <= k < |s| - |r| ==> IsSpace(s[k])
  {
    if s != "" && IsSpace(s[0]) then TrimLeft(s[1..]) else s
  }

  function TrimRight(s: string): (r: string)
    ensures |r| <= |s| && r == s[..|r|]
    ensures r != "" ==> !IsSpace(Last(r))
    ensures forall k :: |r| <= k < |s| ==> IsSpace(s[k])
  {
    if s != "" && IsSpace(Last(s)) then TrimRight(Init(s)) else s
  }

  function Trim(s: string): string {
    TrimRight(TrimLeft(s))
  }

  /** Nothing to trim. */
  predicate Trimmed(s: string) {
    s == "" || (!IsSpace(s[0]) && !IsSpace(Last(s)))
  }

  lemma TrimIsTrimmed(s: string)
    ensures Trimmed(Trim(s))
  {
    var l := TrimLeft(s);
    var r := TrimRight(l);
    if r != "" {
      assert r[0] == l[0];
    }
  }

  lemma TrimmedStays(s: string)
    requires Trimmed(s)
    ensures Trim(s) == s && TrimLeft(s) == s && TrimRight(s) == s
  {
  }

  /** Blanks in front of a trimmed text are all that trim() takes away. */
  lemma {:induction false} TrimLeftPadding(pad: string, s: string)
    requires forall i :: 0 <= i < |pad| ==> IsSpace(pad[i])
    requires Trimmed(s)
    ensures TrimLeft(pad + s) == s
  {
    if pad == "" {
      assert pad + s == s;
    } else {
      assert (pad + s)[1..] == pad[1..] + s;
      TrimLeftPadding(pad[1..], s);
    }
  }

  lemma TrimOneLine(s: string)
    requires OneLine(s)
    ensures OneLine(Trim(s)) && OneLine(TrimLeft(s))
  {
    var l := TrimLeft(s);
    forall i | 0 <= i < |l|
      ensures !IsLineTerminator(l[i])
    {
      assert l[i] == s[|s| - |l| + i];
    }
    var r := TrimRight(l);
    forall i | 0 <= i < |r|
      ensures !IsLineTerminator(r[i])
    {
      assert r[i] == l[i];
    }
  }

  lemma {:induction false} TrimRightOfAppend(a: string, b: string)
    ensures TrimRight(a + b) == if TrimRight(b) != "" then a + TrimRight(b) else TrimRight(a)
    decreases |b|
  {
    if b == "" {
      assert a + b == a;
    } else {
      assert Init(a + b) == a + Init(b) && Last(a + b) == Last(b);
      TrimRightOfAppend(a, Init(b));
    }
  }

  /** The two ends can be trimmed in either order. */
  lemma {:induction false} TrimEndsCommute(s: string)
    ensures TrimLeft(TrimRight(s)) == Trim(s)
  {
    if s != "" {
      assert s == [s[0]] + s[1..];
      TrimRightOfAppend([s[0]], s[1..]);
      assert Init([s[0]]) == "";
      if IsSpace(s[0]) {
        TrimEndsCommute(s[1..]);
        if TrimRight(s[1..]) != "" {
          assert ([s[0]] + TrimRight(s[1..]))[1..] == TrimRight(s[1..]);
        }
      }
    }
  }

  predicate StartsWith(s: string, prefix: string) {
    |prefix| <= |s| && s[..|prefix|] == prefix
  }

  lemma StartsWithSplits(s: string, prefix: string)
    requires StartsWith(s, prefix)
    ensures s == prefix + s[|prefix|..]
  {
  }

  // ----- splitting at one character, joining with a text -----

  /** s.split(sep) for a one-character separator: never empty. */
  function Split(s: string, sep: char): (parts: seq<string>)
    ensures parts != []
    ensures forall i :: 0 <= i < |parts| ==> sep !in parts[i]
  {
    if s == "" then [""]
    else
      var rest := Split(s[1..], sep);
      if s[0] == sep then [""] + rest else [[s[0]] + rest[0]] + rest[1..]
  }

  /** parts.join(glue) */
  function Join(parts: seq<string>, glue: string): string {
    if parts == [] then ""
    else if |parts| == 1 then parts[0]
    else parts[0] + glue + Join(parts[1..], glue)
  }

  /** A text without the separator is one part; in front of a separator it is the first one. */
  lemma {:induction false} SplitFront(front: string, sep: char, rest: string)
    requires sep !in front
    ensures Split(front, sep) == [front]
    ensures Split(front + [sep] + rest, sep) == [front] + Split(rest, sep)
  {
    if front == "" {
      assert front + [sep] + rest == [sep] + rest;
      assert ([sep] + rest)[1..] == rest;
    } else {
      SplitFront(front[1..], sep, rest);
      assert (front + [sep] + rest)[1..] == front[1..] + [sep] + rest;
      assert [front[0]] + front[1..] == front;
    }
  }

  /** Splitting goes separator by separator. */
  lemma {:induction false} SplitOfAppend(a: string, sep: char, b: string)
    ensures Split(a + [sep] + b, sep) == Split(a, sep) + Split(b, sep)
  {
    hide Split;
    if a == "" {
      SplitFront("", sep, b);
      assert "" + [sep] + b == a + [sep] + b;
    } else {
      var whole, rest := a + [sep] + b, a[1..] + [sep] + b;
      assert whole[0] == a[0] && whole[1..] == rest;
      SplitOfAppend(a[1..], sep, b);
      SplitOfCons(whole, sep);
      SplitOfCons(a, sep);
      FirstPartGrows(a[0], Split(a[1..], sep), Split(b, sep));
    }
  }

  lemma FirstPartGrows(c: char, parts: seq<string>, more: seq<string>)
    requires parts != []
    ensures [""] + (parts + more) == [""] + parts + more
    ensures [[c] + (parts + more)[0]] + (parts + more)[1..] == [[c] + parts[0]] + parts[1..] + more
  {
  }

  lemma SplitOfCons(s: string, sep: char)
    requires s != ""
    ensures var rest := Split(s[1..], sep);
            Split(s, sep) == if s[0] == sep then [""] + rest else [[s[0]] + rest[0]] + rest[1..]
  {
  }

  /** The parts put together again are the text, and none holds a separator: so no other parts would do. */
  lemma {:induction false} SplitRejoins(s: string, sep: char)
    ensures Join(Split(s, sep), [sep]) == s
  {
    if s != "" {
      var rest := Split(s[1..], sep);
      SplitRejoins(s[1..], sep);
      SplitOfCons(s, sep);
      hide Split, Join;
      JoinFirst(s[0], rest, [sep]);
      assert s == [s[0]] + s[1..];
    }
  }

  /** One character more in front of the first part, or one part more that is empty. */
  lemma JoinFirst(c: char, parts: seq<string>, glue: string)
    requires parts != []
    ensures Join([""] + parts, glue) == glue + Join(parts, glue)
    ensures Join([[c] + parts[0]] + parts[1..], glue) == [c] + Join(parts, glue)
  {
    assert ([""] + parts)[1..] == parts && "" + glue == glue;
    var grown := [[c] + parts[0]] + parts[1..];
    assert grown[1..] == parts[1..] && grown[0] == [c] + parts[0];
    if |parts| > 1 {
      var tail := glue + Join(parts[1..], glue);
      assert parts[0] + glue + Join(parts[1..], glue) == parts[0] + tail;
      assert [c] + parts[0] + glue + Join(parts[1..], glue) == [c] + (parts[0] + tail);
    }
  }

  predicate FoundAt(text: string, part: string, i: int) {
    0 <= i <= |text| - |part| && text[i..i + |part|] == part
  }

  /** text.includes(part) */
  predicate Includes(text: string, part: string) {
    exists i :: 0 <= i <= |text| - |part| && FoundAt(text, part, i)
  }

  /** The part stands in the text with something, or nothing, on either side. */
  lemma IncludesIff(text: string, part: string)
    ensures Includes(text, part) <==> exists front, back :: text == front + part + back
  {
    if i :| 0 <= i <= |text| - |part| && FoundAt(text, part, i) {
      assert text == text[..i] + part + text[i + |part|..];
    }
    if front, back :| text == front + part + back {
      assert FoundAt(text, part, |front|);
    }
  }

  /** The lines a reader sees of these lines once they are written: one that holds '\n' is several. */
  function Relined(lines: seq<string>): (r: seq<string>)
    ensures (r == [] <==> lines == []) && forall i :: 0 <= i < |r| ==> '\n' !in r[i]
  {
    if lines == [] then [] else Split(lines[0], '\n') + Relined(lines[1..])
  }

  /** lines.join("\n") and split("\n") again. */
  lemma {:induction false} RelinedIsReread(lines: seq<string>)
    requires lines != []
    ensures Split(Join(lines, "\n"), '\n') == Relined(lines)
  {
    if |lines| > 1 {
      RelinedIsReread(lines[1..]);
      SplitOfAppend(lines[0], '\n', Join(lines[1..], "\n"));
    } else {
      assert lines[1..] == [];
    }
  }

  lemma {:induction false} RelinedOfAppend(a: seq<string>, b: seq<string>)
    ensures Relined(a + b) == Relined(a) + Relined(b)
  {
    if a == [] {
      assert a + b == b;
    } else {
      assert (a + b)[1..] == a[1..] + b;
      RelinedOfAppend(a[1..], b);
    }
  }

  /** Lines that were read from a text. */
  predicate AreLines(lines: seq<string>) {
    forall i :: 0 <= i < |lines| ==> '\n' !in lines[i]
  }

  lemma {:induction false} RelinedLines(lines: seq<string>)
    requires AreLines(lines)
    ensures Relined(lines) == lines
  {
    if lines != [] {
      SplitFront(lines[0], '\n', "");
      RelinedLines(lines[1..]);
    }
  }

  function TrimAll(parts: seq<string>): (r: seq<string>)
    ensures |r| == |parts| && forall i :: 0 <= i < |r| ==> r[i] == Trim(parts[i])
  {
    seq(|parts|, i requires 0 <= i < |parts| => Trim(parts[i]))
  }

  lemma TrimAllOfCons(x: string, rest: seq<string>)
    ensures TrimAll([x] + rest) == [Trim(x)] + TrimAll(rest)
  {
    hide Trim;
  }

  /** A list item that survives being written between commas. */
  predicate PlainItem(s: string) {
    Trimmed(s) && ',' !in s
  }

  lemma JoinOfCons(parts: seq<string>, glue: string)
    requires |parts| > 1
    ensures Join(parts, glue) == parts[0] + glue + Join(parts[1..], glue)
  {
  }

  lemma PaddedItem(pad: string, item: string)
    requires (pad == "" || pad == " ") && PlainItem(item)
    ensures Trim(pad + item) == item && ',' !in pad + item
  {
    TrimLeftPadding(pad, item);
    TrimmedStays(item);
  }

  /** Joining trimmed items with ", " and splitting at the commas gives the items back, blanks aside. */
  lemma {:induction false} ItemsSurviveJoin(items: seq<string>, pad: string)
    requires items != [] && (pad == "" || pad == " ")
    requires forall i :: 0 <= i < |items| ==> PlainItem(items[i])
    ensures TrimAll(Split(pad + Join(items, ", "), ',')) == items
  {
    hide PlainItem, Trim, Split;
    var head := pad + items[0];
    PaddedItem(pad, items[0]);
    if |items| == 1 {
      SplitFront(head, ',', "");
      TrimAllOfCons(head, []);
    } else {
      JoinOfCons(items, ", ");
      hide Join;
      var rest := " " + Join(items[1..], ", ");
      assert pad + Join(items, ", ") == head + [','] + rest;
      SplitFront(head, ',', rest);
      ItemsSurviveJoin(items[1..], " ");
      TrimAllOfCons(head, Split(rest, ','));
    }
  }
}
