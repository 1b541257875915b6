/**
 * Ids and file names for new tickets (src/structuralRefinement.ts), and which ids a scan accepts
 * (src/scanTickets.ts).
 */
module TicketIds {
  import opened Prelude
  import opened Ids
  import opened Text

  predicate IsDigit(c: char) {
    '0' <= c <= '9'
  }

  predicate Digits(s: string) {
    forall i :: 0 <= i < |s| ==> IsDigit(s[i])
  }

  function Number(s: string): nat
    requires Digits(s)
  {
    if s == "" then 0 else Number(Init(s)) * 10 + (Last(s) as int - '0' as int)
  }

  function Digit(n: nat): char
    requires n < 10
  {
    ('0' as int + n) as char
  }

  /** String(n) */
  function Decimal(n: nat): (s: string)
    ensures s != "" && Digits(s)
  {
    if n < 10 then [Digit(n)] else Decimal(n / 10) + [Digit(n % 10)]
  }

  /** padStart(3, "0") */
  function Pad3(s: string): (r: string)
    ensures |r| == Max(3, |s|)
    decreases 3 - |s|
  {
    if |s| >= 3 then s else Pad3("0" + s)
  }

  function IdOf(n: nat): Id {
    "TICKET-" + Pad3(Decimal(n))
  }

  /** The number of a TICKET-<digits> id; other ids have none. */
  function NumberOf(id: Id): Option<nat> {
    if StartsWith(id, "TICKET-") && |id| > 7 && Digits(id[7..]) then Some(Number(id[7..])) else None
  }

  lemma {:induction false} NumberOfDecimal(n: nat)
    ensures Number(Decimal(n)) == n
  {
    if n >= 10 {
      NumberOfDecimal(n / 10);
      InitOfAppend(Decimal(n / 10), Digit(n % 10));
    }
  }

  lemma {:induction false} LeadingZero(s: string)
    requires Digits(s)
    ensures Digits("0" + s) && Number("0" + s) == Number(s)
    decreases |s|
  {
    if s == "" {
      assert Init("0" + s) == "";
    } else {
      LeadingZero(Init(s));
      assert Init("0" + s) == "0" + Init(s) && Last("0" + s) == Last(s);
    }
  }

  lemma {:induction false} PaddingKeepsNumber(s: string)
    requires Digits(s)
    ensures Digits(Pad3(s)) && Number(Pad3(s)) == Number(s)
    decreases 3 - |s|
  {
    if |s| < 3 {
      LeadingZero(s);
      PaddingKeepsNumber("0" + s);
    }
  }

  /** An id reads back as the number it was made from. */
  lemma IdRoundTrip(n: nat)
    ensures NumberOf(IdOf(n)) == Some(n)
  {
    NumberOfDecimal(n);
    PaddingKeepsNumber(Decimal(n));
    assert IdOf(n)[..7] == "TICKET-" && IdOf(n)[7..] == Pad3(Decimal(n));
  }

  // ----- allocation -----

  function MaxNumber(existing: seq<Id>): nat {
    if existing == [] then 0
    else
      var m, n := MaxNumber(Init(existing)), NumberOf(Last(existing));
      if n.Some? && n.value > m then n.value else m
  }

  /** allocateTicketIds: the next `count` ids after every number in use. */
  function AllocateTicketIds(existing: seq<Id>, count: nat): (ids: seq<Id>)
    ensures |ids| == count
  {
    seq(count, i requires 0 <= i < count => IdOf(MaxNumber(existing) + i + 1))
  }

  lemma {:induction false} MaxCovers(existing: seq<Id>, id: Id)
    requires id in existing && NumberOf(id).Some?
    ensures NumberOf(id).value <= MaxNumber(existing)
  {
    if id != Last(existing) {
      assert existing == Init(existing) + [Last(existing)];
      MaxCovers(Init(existing), id);
    }
  }

  /** Allocated ids are pairwise distinct, new, and numbered from the largest number in use. */
  lemma AllocationIsFresh(existing: seq<Id>, count: nat)
    ensures Distinct(AllocateTicketIds(existing, count))
    ensures forall id :: id in AllocateTicketIds(existing, count) ==> id !in existing && NumberOf(id).Some?
  {
    var ids := AllocateTicketIds(existing, count);
    forall i | 0 <= i < |ids|
      ensures NumberOf(ids[i]) == Some(MaxNumber(existing) + i + 1) && ids[i] !in existing
    {
      IdRoundTrip(MaxNumber(existing) + i + 1);
      if ids[i] in existing {
        MaxCovers(existing, ids[i]);
      }
    }
  }

  /** Asking again for more repeats what was handed out and goes on from there. */
  lemma AllocationExtends(existing: seq<Id>, first: nat, more: nat)
    ensures AllocateTicketIds(existing, first + more)[..first] == AllocateTicketIds(existing, first)
  {
  }

  // ----- which ids a scan accepts -----

  predicate IsLetter(c: char) {
    'a' <= c <= 'z' || 'A' <= c <= 'Z'
  }

  /** /^TICKET-\d{3}[A-Za-z]?$/ */
  predicate IsTicketId(id: Id) {
    && StartsWith(id, "TICKET-")
    && 10 <= |id| <= 11 && Digits(id[7..10])
    && (|id| == 11 ==> IsLetter(id[10]))
  }

  lemma {:induction false} DecimalLength(n: nat)
    ensures |Decimal(n)| <= 3 <==> n <= 999
    ensures |Decimal(n)| <= 2 <==> n <= 99
    ensures |Decimal(n)| <= 1 <==> n <= 9
  {
    if n >= 10 {
      DecimalLength(n / 10);
    }
  }

  /** An allocated id is one a scan accepts exactly up to number 999. */
  lemma AllocatedIdIsScannableIff(n: nat)
    ensures IsTicketId(IdOf(n)) <==> n <= 999
  {
    DecimalLength(n);
    PaddingKeepsNumber(Decimal(n));
    var id := IdOf(n);
    assert id[..7] == "TICKET-" && id[7..] == Pad3(Decimal(n));
    if |id| == 11 {
      assert id[10] == id[7..][3];
      assert IsDigit(id[10]);
    }
    if |id| == 10 {
      assert id[7..10] == id[7..];
    }
  }

  // ----- file names -----

  /** path.join(ticketsDir, `${id}-${slug}.md`) */
  function StubPath(dir: string, id: Id, slug: string): string {
    dir + "/" + id + "-" + slug + ".md"
  }

  /** Whatever the slugs, stubs with different numbers have different paths. */
  lemma PathTellsTheTicket(dir: string, m: nat, n: nat, a: string, b: string)
    requires StubPath(dir, IdOf(m), a) == StubPath(dir, IdOf(n), b)
    ensures m == n
  {
    var x, y := Pad3(Decimal(m)), Pad3(Decimal(n));
    PaddingKeepsNumber(Decimal(m));
    PaddingKeepsNumber(Decimal(n));
    NumberOfDecimal(m);
    NumberOfDecimal(n);
    hide Pad3, Decimal;
    PathSplits(dir, x, a);
    PathSplits(dir, y, b);
    var path := StubPath(dir, "TICKET-" + x, a);
    assert path[|dir| + 8..] == x + ("-" + a + ".md");
    FieldEnds(x, "-" + a + ".md", y, "-" + b + ".md");
  }

  lemma PathSplits(dir: string, digits: string, slug: string)
    ensures StubPath(dir, "TICKET-" + digits, slug)[|dir| + 8..] == digits + ("-" + slug + ".md")
  {
    assert StubPath(dir, "TICKET-" + digits, slug) == (dir + "/TICKET-") + (digits + ("-" + slug + ".md"));
  }

  /** A field of digits ends where the hyphen stands. */
  lemma FieldEnds(x: string, xs: string, y: string, ys: string)
    requires Digits(x) && Digits(y) && x + xs == y + ys
    requires xs != "" && ys != "" && xs[0] == '-' && ys[0] == '-'
    ensures x == y
  {
    var s := x + xs;
    assert s == y + ys && s[|x|] == '-' && s[|y|] == '-';
    assert forall i :: 0 <= i < |x| ==> s[i] == x[i];
    assert forall i :: 0 <= i < |y| ==> s[i] == y[i];
    assert x == s[..|x|] && y == s[..|y|];
  }

  // ----- slugs -----

  const MAX_SLUG_LEN: nat := 50

  function Lower(c: char): char {
    if 'A' <= c <= 'Z' then (c as int - 'A' as int + 'a' as int) as char else c
  }

  predicate IsSlugChar(c: char) {
    'a' <= c <= 'z' || IsDigit(c)
  }

  /** The runs of letters and digits in a title, in lower case; `run` is the one being read. */
  function Words(title: string, run: string): seq<string>
    decreases title
  {
    if title == "" then (if run == "" then [] else [run])
    else if IsSlugChar(Lower(title[0])) then Words(title[1..], run + [Lower(title[0])])
    else (if run == "" then [] else [run]) + Words(title[1..], "")
  }

  predicate IsWord(w: string) {
    w != "" && forall i :: 0 <= i < |w| ==> IsSlugChar(w[i])
  }

  lemma {:induction false} WordsAreWords(title: string, run: string)
    requires run == "" || IsWord(run)
    ensures forall w :: w in Words(title, run) ==> IsWord(w)
    decreases title
  {
    if title != "" {
      if IsSlugChar(Lower(title[0])) {
        WordsAreWords(title[1..], run + [Lower(title[0])]);
      } else {
        WordsAreWords(title[1..], "");
      }
    }
  }

  lemma {:induction false} JoinSnoc(parts: seq<string>, x: string)
    requires parts != []
    ensures Join(parts + [x], "-") == Join(parts, "-") + "-" + x
  {
    if |parts| > 1 {
      assert (parts + [x])[1..] == parts[1..] + [x];
      JoinSnoc(parts[1..], x);
    }
  }

  /** Letters and digits between single hyphens, none at either end. */
  predicate IsSlug(s: string) {
    && s != "" && s[0] != '-' && Last(s) != '-'
    && (forall i :: 0 <= i < |s| ==> IsSlugChar(s[i]) || s[i] == '-')
  }

  lemma {:induction false} JoinIsSlug(words: seq<string>)
    requires words != [] && forall i :: 0 <= i < |words| ==> IsWord(words[i])
    ensures IsSlug(Join(words, "-"))
  {
    if |words| > 1 {
      JoinIsSlug(words[1..]);
      var rest := Join(words[1..], "-");
      assert Join(words, "-") == words[0] + "-" + rest;
    }
  }

  /** How many leading words fit under the cap, given that `k` do. */
  function Fit(words: seq<string>, k: nat): (n: nat)
    requires 1 <= k <= |words|
    ensures k <= n <= |words|
    ensures n > k ==> |Join(words[..n], "-")| <= 50
    ensures n < |words| ==> |Join(words[..n + 1], "-")| > 50
    decreases |words| - k
  {
    if k < |words| && |Join(words[..k + 1], "-")| <= MAX_SLUG_LEN then Fit(words, k + 1) else k
  }

  /** As many whole words as fit, at least one; one overlong word is cut; no word at all is the fallback. */
  function Slug(title: string, fallback: string): string {
    var words := Words(title, "");
    if words == [] then fallback
    else
      var kept := Join(words[..Fit(words, 1)], "-");
      kept[..Min(MAX_SLUG_LEN, |kept|)]
  }

  /** A slug is bounded and clean whatever the title. */
  lemma SlugIsClean(title: string, fallback: string)
    requires IsSlug(fallback) && |fallback| <= 50
    ensures IsSlug(Slug(title, fallback)) && |Slug(title, fallback)| <= 50
  {
    var words := Words(title, "");
    if words != [] {
      WordsAreWords(title, "");
      var n := Fit(words, 1);
      JoinIsSlug(words[..n]);
      var kept := Join(words[..n], "-");
      if |kept| > MAX_SLUG_LEN {
        assert n == 1 && words[..1] == [words[0]];
        assert kept == words[0] && words[0] in words;
      }
    }
  }

  lemma {:induction false} FitIsWhole(words: seq<string>, k: nat)
    requires 1 <= k <= |words| && |Join(words, "-")| <= MAX_SLUG_LEN
    ensures Fit(words, k) == |words|
    decreases |words| - k
  {
    if k < |words| {
      JoinGrows(words, k + 1);
      FitIsWhole(words, k + 1);
    }
  }

  lemma {:induction false} JoinGrows(words: seq<string>, n: nat)
    requires 1 <= n <= |words|
    ensures |Join(words[..n], "-")| <= |Join(words, "-")|
    decreases |words| - n
  {
    if n == |words| {
      assert words[..n] == words;
    } else {
      JoinGrows(words, n + 1);
      assert words[..n + 1] == words[..n] + [words[n]];
      JoinSnoc(words[..n], words[n]);
    }
  }

  /** slugifyTicketTitle */
  method SlugifyTicketTitle(title: string, fallback: string) returns (slug: string)
    ensures slug == Slug(title, fallback)
  {
    var words := Words(title, "");
    if words == [] {
      return fallback;
    }
    var whole := Join(words, "-");
    if |whole| <= MAX_SLUG_LEN {
      FitIsWhole(words, 1);
      assert words[..|words|] == words;
      return whole;
    }
    var out := words[0];
    assert words[..1] == [words[0]];
    var k := 1;
    while k < |words| && |out| + 1 + |words[k]| <= MAX_SLUG_LEN
      invariant 1 <= k <= |words| && out == Join(words[..k], "-") && Fit(words, k) == Fit(words, 1)
    {
      assert words[..k + 1] == words[..k] + [words[k]];
      JoinSnoc(words[..k], words[k]);
      out := out + "-" + words[k];
      k := k + 1;
    }
    if k < |words| {
      assert words[..k + 1] == words[..k] + [words[k]];
      JoinSnoc(words[..k], words[k]);
    }
    slug := out[..Min(MAX_SLUG_LEN, |out|)];
  }
}
