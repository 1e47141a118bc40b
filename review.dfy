/** The review step (components/Review.tsx): the shopping list, read from the
    AI's markdown into checklist categories or built from the plan when the AI
    gives nothing, and the images and ingredient lists the review cards, the
    recipe modal and the print view show. */
module Review {
  import opened Types
  import opened Strings
  import App
  import Builder

  /** One category of the checklist: its heading and its items. */
  datatype Category = Category(title: string, items: seq<string>)

  /** The title of the single category the parser falls back to. */
  const GeneralTitle: string := "General"

  // ----- The category markers "### " and "**" -----

  /** The length of the marker that starts at `q`: 4 for "### ", 2 for "**",
      0 when neither starts there. */
  function MarkerLen(s: string, q: nat): (n: nat)
    ensures n == 0 || n == 2 || n == 4
    ensures n > 0 ==> q + n <= |s| && (s[q] == '#' || s[q] == '*')
  {
    if q + 4 <= |s| && s[q] == '#' && s[q + 1] == '#' && s[q + 2] == '#' && s[q + 3] == ' ' then 4
    else if q + 2 <= |s| && s[q] == '*' && s[q + 1] == '*' then 2
    else 0
  }

  /** The first index at or after `from` where a marker starts, or `|s|`. */
  function MarkerFrom(s: string, from: nat): (k: nat)
    requires from <= |s|
    ensures from <= k <= |s|
    ensures forall i :: from <= i < k ==> MarkerLen(s, i) == 0
    ensures k < |s| ==> MarkerLen(s, k) > 0
    decreases |s| - from
  {
    if from == |s| || MarkerLen(s, from) > 0 then from else MarkerFrom(s, from + 1)
  }

  /** The first replacement of the parser, with a lazy `.*?` across lines:
      the text from its first marker on, or the whole text when it has no
      marker. */
  function DropPreamble(s: string): (r: string)
    ensures |r| <= |s| && r == s[|s| - |r|..]
    ensures (forall i :: 0 <= i < |s| ==> MarkerLen(s, i) == 0) ==> r == s
    ensures r != s ==> MarkerLen(r, 0) > 0 && forall i :: 0 <= i < |s| - |r| ==> MarkerLen(s, i) == 0
  {
    var k := MarkerFrom(s, 0);
    if k == |s| then s else s[k..]
  }

  /** Where the title of a marker at `q` ends: at the first line terminator
      after the marker, or at the end of the text. */
  function TitleEnd(s: string, q: nat): (e: nat)
    requires MarkerLen(s, q) > 0
    ensures q + MarkerLen(s, q) <= e <= |s|
  {
    LineEnd(s, q + MarkerLen(s, q))
  }

  /** Whether the category pattern matches at `q`: a marker, then the rest of
      its line up to a '\n' or the end of the text. Any other line terminator
      stops the lazy `.*?` before a '\n' is reached, and then there is no
      match at `q`. */
  predicate HeadingAt(s: string, q: nat) {
    MarkerLen(s, q) > 0 && (TitleEnd(s, q) == |s| || s[TitleEnd(s, q)] == '\n')
  }

  /** Where the text after the heading at `q` resumes: past its '\n'. */
  function HeadingEnd(s: string, q: nat): (h: nat)
    requires MarkerLen(s, q) > 0
    ensures q < h <= |s| && TitleEnd(s, q) <= h
  {
    var e := TitleEnd(s, q);
    if e == |s| then e else e + 1
  }

  /** The first index at or after `from` where the category pattern
      matches, or `|s|`. */
  function NextHeading(s: string, from: nat): (k: nat)
    requires from <= |s|
    ensures from <= k <= |s|
    ensures forall i :: from <= i < k ==> !HeadingAt(s, i)
    ensures k < |s| ==> HeadingAt(s, k)
    decreases |s| - from
  {
    if from == |s| || HeadingAt(s, from) then from else NextHeading(s, from + 1)
  }

  /** `split` with the category pattern, whose one group captures a title:
      the text before the first match, that match's title, and then the
      pieces of the text after the match's line. */
  function Scan(s: string): (r: seq<string>)
    ensures |r| % 2 == 1
    decreases |s|
  {
    var k := NextHeading(s, 0);
    if k == |s| then [s]
    else [s[..k], s[k + MarkerLen(s, k)..TitleEnd(s, k)]] + Scan(s[HeadingEnd(s, k)..])
  }

  /** `filter(Boolean)` on strings: the non-empty ones, in order. */
  function NonEmpty(xs: seq<string>): (r: seq<string>)
    ensures |r| <= |xs|
    ensures forall i :: 0 <= i < |r| ==> r[i] != "" && r[i] in xs
    ensures |r| == |xs| <==> "" !in xs
  {
    if xs == [] then []
    else (if xs[0] == "" then [] else [xs[0]]) + NonEmpty(xs[1..])
  }

  /** The sections of a text from its first marker on: titles and contents,
      with the empty pieces gone. */
  function Sections(cleaned: string): (r: seq<string>)
    ensures forall i :: 0 <= i < |r| ==> r[i] != ""
  {
    NonEmpty(Scan(cleaned))
  }

  // ----- Items -----

  /** Where the capture of the first item match starts: past the first '-'
      and the spaces after it, which may run over line ends. */
  function ItemStart(c: string): (k: nat)
    requires IndexOf(c, '-', 0) < |c|
    ensures IndexOf(c, '-', 0) < k <= |c|
  {
    SpaceRunEnd(c, IndexOf(c, '-', 0) + 1)
  }

  /** Where the first item match ends: at the end of the line its capture
      starts on. */
  function ItemEnd(c: string): (e: nat)
    requires IndexOf(c, '-', 0) < |c|
    ensures ItemStart(c) <= e <= |c|
  {
    LineEnd(c, ItemStart(c))
  }

  /** The items of one section's content: the matches of `/-\s*(.*)/g`,
      each capture trimmed. A match is the first '-', the spaces after it
      and the rest of the line; the search resumes where the match ends. */
  function Items(content: string): (r: seq<string>)
    ensures r != [] <==> '-' in content
    ensures |r| <= |content|
    decreases |content|
  {
    if IndexOf(content, '-', 0) == |content| then []
    else [Trim(content[ItemStart(content)..ItemEnd(content)])] + Items(content[ItemEnd(content)..])
  }

  /** The category the first two sections give: a title and its content
      (or "" when there is no second section), kept when the trimmed title
      is not empty and the content has an item. */
  function Kept(secs: seq<string>, itemsOf: string -> seq<string>): (r: seq<Category>)
    requires secs != []
    ensures |r| <= 1
    ensures r != [] ==> r[0].title != "" && r[0].items != []
  {
    var title := Trim(secs[0]);
    var items := itemsOf(if 1 < |secs| then secs[1] else "");
    if title != "" && items != [] then [Category(title, items)] else []
  }

  /** The sections from index `i` on; none past the end. */
  function From(secs: seq<string>, i: nat): (r: seq<string>)
    ensures |r| == if i <= |secs| then |secs| - i else 0
  {
    if i <= |secs| then secs[i..] else []
  }

  /** The loop over the sections, two at a time. Its bookkeeping does not
      depend on how a content's items are found, so the item extractor is a
      parameter; the parser passes `Items`. */
  function Collect(secs: seq<string>, itemsOf: string -> seq<string>): (r: seq<Category>)
    ensures |r| <= (|secs| + 1) / 2
    decreases |secs|
  {
    if secs == [] then [] else Kept(secs, itemsOf) + Collect(From(secs, 2), itemsOf)
  }

  /** Every category the loop keeps has a title and an item. */
  lemma {:induction false} CollectKeeps(secs: seq<string>, itemsOf: string -> seq<string>)
    ensures forall m :: 0 <= m < |Collect(secs, itemsOf)| ==>
      Collect(secs, itemsOf)[m].title != "" && Collect(secs, itemsOf)[m].items != []
    decreases |secs|
  {
    if secs != [] {
      CollectKeeps(From(secs, 2), itemsOf);
      var k: seq<Category>, rest: seq<Category> := Kept(secs, itemsOf), Collect(From(secs, 2), itemsOf);
      assert Collect(secs, itemsOf) == k + rest;
      forall m | 0 <= m < |k + rest|
        ensures (k + rest)[m].title != "" && (k + rest)[m].items != []
      {
        if m >= |k| {
          assert (k + rest)[m] == rest[m - |k|];
        }
      }
    }
  }

  /** A line's `replace` of the pattern `-\s*` by nothing: its first '-' and
      the spaces after it removed. */
  function RemoveDash(l: string): (r: string)
    ensures '-' !in l ==> r == l
    ensures |r| < |l| <==> '-' in l
  {
    var j := IndexOf(l, '-', 0);
    if j == |l| then l else l[..j] + l[SpaceRunEnd(l, j + 1)..]
  }

  /** Each line without its first dash, trimmed, the empty ones dropped. */
  function CleanLines(lines: seq<string>): (r: seq<string>)
    ensures |r| <= |lines|
    ensures forall m :: 0 <= m < |r| ==> r[m] != ""
  {
    if lines == [] then []
    else
      var x := Trim(RemoveDash(lines[0]));
      (if x == "" then [] else [x]) + CleanLines(lines[1..])
  }

  /** The items of the fallback category: every line of the whole text,
      at most one item per line and none empty. */
  function GeneralItems(text: string): (r: seq<string>)
    ensures |r| <= |Split(text, '\n')|
    ensures forall m :: 0 <= m < |r| ==> r[m] != ""
  {
    CleanLines(Split(text, '\n'))
  }

  /** The categories the checklist shows for a shopping-list text. */
  function Parse(text: string): (r: seq<Category>)
    ensures text == "" ==> r == []
  {
    if text == "" then []
    else
      var secs := Sections(DropPreamble(text));
      if secs == [] then []
      else
        var r := Collect(secs, Items);
        if r == [] && Contains(text, "-") then [Category(GeneralTitle, GeneralItems(text))] else r
  }

  /** Every category shown has a title, and an item unless it is the
      fallback category of a text with a dash. */
  lemma ParseKeeps(text: string)
    ensures forall m :: 0 <= m < |Parse(text)| ==> Parse(text)[m].title != ""
    ensures forall m :: 0 <= m < |Parse(text)| ==>
      (Parse(text)[m].items != []
       || (Parse(text) == [Category(GeneralTitle, GeneralItems(text))] && Contains(text, "-")))
  {
    if text != "" {
      var secs := Sections(DropPreamble(text));
      if secs != [] {
        CollectKeeps(secs, Items);
        ParseCases(text, secs);
      }
    }
  }

  /** The parse of a text with sections: the loop's categories, or the
      fallback category when the loop keeps none and the text has a dash. */
  lemma ParseCases(text: string, secs: seq<string>)
    requires text != "" && secs == Sections(DropPreamble(text)) && secs != []
    ensures Collect(secs, Items) == [] && Contains(text, "-") ==>
      Parse(text) == [Category(GeneralTitle, GeneralItems(text))]
    ensures !(Collect(secs, Items) == [] && Contains(text, "-")) ==> Parse(text) == Collect(secs, Items)
  {
  }

  /** One turn of the loop keeps its invariant. */
  lemma CollectAdvance(secs: seq<string>, i: nat, before: seq<Category>, itemsOf: string -> seq<string>, added: seq<Category>)
    requires i < |secs|
    requires before + Collect(From(secs, i), itemsOf) == Collect(secs, itemsOf)
    requires added == Kept(From(secs, i), itemsOf)
    ensures (before + added) + Collect(From(secs, i + 2), itemsOf) == Collect(secs, itemsOf)
  {
    var tail := From(secs, i);
    assert From(tail, 2) == From(secs, i + 2);
    assert Collect(tail, itemsOf) == added + Collect(From(secs, i + 2), itemsOf);
    Associative(before, added, Collect(From(secs, i + 2), itemsOf));
  }

  /** The category of the sections from `i` on is read from the sections at
      `i` and `i + 1`. */
  lemma KeptAt(secs: seq<string>, i: nat, itemsOf: string -> seq<string>, title: string, items: seq<string>)
    requires i < |secs|
    requires title == Trim(secs[i]) && items == itemsOf(if i + 1 < |secs| then secs[i + 1] else "")
    ensures Kept(From(secs, i), itemsOf) == if title != "" && |items| > 0 then [Category(title, items)] else []
  {
    assert From(secs, i)[0] == secs[i];
    assert i + 1 < |secs| ==> From(secs, i)[1] == secs[i + 1];
  }

  /** The loop of the parser: the sections taken two at a time, a category
      pushed for each title with items. The item extractor is a parameter,
      as in `Collect`. */
  method CollectCategories(sections: seq<string>, itemsOf: string -> seq<string>) returns (result: seq<Category>)
    ensures result == Collect(sections, itemsOf)
  {
    result := [];
    var i := 0;
    assert From(sections, 0) == sections;
    while i < |sections|
      invariant 0 <= i <= |sections| + 1
      invariant result + Collect(From(sections, i), itemsOf) == Collect(sections, itemsOf)
      decreases |sections| + 1 - i
    {
      var title := Trim(sections[i]);
      var content := if i + 1 < |sections| then sections[i + 1] else "";
      var items := itemsOf(content);
      var added := if title != "" && |items| > 0 then [Category(title, items)] else [];
      KeptAt(sections, i, itemsOf, title, items);
      CollectAdvance(sections, i, result, itemsOf, added);
      result := result + added;
      i := i + 2;
    }
    assert From(sections, i) == [];
    assert result + [] == result;
  }

  /** The parser as the checklist runs it: the empty text, the sections, the
      loop, then the fallback. */
  method ParseShoppingList(listText: string) returns (categories: seq<Category>)
    ensures categories == Parse(listText)
  {
    if listText == "" {
      return [];
    }
    var sections := Sections(DropPreamble(listText));
    if |sections| == 0 {
      return [];
    }
    var result := CollectCategories(sections, Items);
    if |result| == 0 && Contains(listText, "-") {
      return [Category(GeneralTitle, GeneralItems(listText))];
    }
    return result;
  }

  // ----- Reading back a list written in the checklist's own shape -----

  /** A title the parser reads back unchanged: not empty, no space at either
      end, on one line. */
  predicate PlainTitle(t: string) {
    t != [] && !IsSpace(t[0]) && !IsSpace(t[|t| - 1])
    && forall i :: 0 <= i < |t| ==> !IsLineTerminator(t[i])
  }

  /** An item the parser reads back unchanged: a plain title without the
      marker characters '#' and '*'. */
  predicate PlainItem(x: string) {
    PlainTitle(x) && forall i :: 0 <= i < |x| ==> x[i] != '#' && x[i] != '*'
  }

  /** Categories that can be written out and read back. */
  predicate Writable(cats: seq<Category>) {
    forall m :: 0 <= m < |cats| ==>
      PlainTitle(cats[m].title) && cats[m].items != []
      && forall k :: 0 <= k < |cats[m].items| ==> PlainItem(cats[m].items[k])
  }

  /** A category heading: "### " and the title on a line of its own. */
  function Heading(title: string): string {
    "### " + title + "\n"
  }

  /** The items as "- " lines. */
  function ItemLines(items: seq<string>): string {
    if items == [] then "" else "- " + items[0] + "\n" + ItemLines(items[1..])
  }

  /** A list in the markdown shape the parser reads: for each category its
      heading and then its item lines. */
  function Render(cats: seq<Category>): string {
    if cats == [] then "" else Heading(cats[0].title) + ItemLines(cats[0].items) + Render(cats[1..])
  }

  /** The sections a rendered list splits into: each title, then its lines. */
  function Flat(cats: seq<Category>): seq<string> {
    if cats == [] then [] else [cats[0].title, ItemLines(cats[0].items)] + Flat(cats[1..])
  }

  /** `LineEnd` is determined by its contract. */
  lemma LineEndAt(s: string, from: nat, k: nat)
    requires from <= k <= |s|
    requires forall i :: from <= i < k ==> !IsLineTerminator(s[i])
    requires k < |s| ==> IsLineTerminator(s[k])
    ensures LineEnd(s, from) == k
  {
  }

  /** `SpaceRunEnd` is determined by its contract. */
  lemma SpaceRunEndAt(s: string, from: nat, k: nat)
    requires from <= k <= |s|
    requires forall i :: from <= i < k ==> IsSpace(s[i])
    requires k < |s| ==> !IsSpace(s[k])
    ensures SpaceRunEnd(s, from) == k
  {
  }

  /** The end of a line read in a suffix is the same line end. */
  lemma LineEndSuffix(s: string, off: nat, x: nat)
    requires off + x <= |s|
    ensures LineEnd(s, off + x) == off + LineEnd(s[off..], x)
  {
    var b := s[off..];
    var e := LineEnd(b, x);
    forall i | off + x <= i < off + e
      ensures !IsLineTerminator(s[i])
    {
      assert s[i] == b[i - off];
    }
    if e < |b| {
      assert s[off + e] == b[e];
    }
    LineEndAt(s, off + x, off + e);
  }

  /** A run of spaces read in a suffix is the same run. */
  lemma SpaceRunEndSuffix(s: string, off: nat, x: nat)
    requires off + x <= |s|
    ensures SpaceRunEnd(s, off + x) == off + SpaceRunEnd(s[off..], x)
  {
    var b := s[off..];
    var e := SpaceRunEnd(b, x);
    forall i | off + x <= i < off + e
      ensures IsSpace(s[i])
    {
      assert s[i] == b[i - off];
    }
    if e < |b| {
      assert s[off + e] == b[e];
    }
    SpaceRunEndAt(s, off + x, off + e);
  }

  /** Whether a heading starts at an index, and where it ends, depends only
      on the text from there on. */
  lemma HeadingSuffix(s: string, off: nat, q: nat)
    requires off + q <= |s|
    ensures MarkerLen(s, off + q) == MarkerLen(s[off..], q)
    ensures MarkerLen(s[off..], q) > 0 ==>
      TitleEnd(s, off + q) == off + TitleEnd(s[off..], q)
      && HeadingEnd(s, off + q) == off + HeadingEnd(s[off..], q)
    ensures HeadingAt(s, off + q) == HeadingAt(s[off..], q)
  {
    var b := s[off..];
    assert forall i :: q <= i < |b| ==> s[off + i] == b[i];
    var n := MarkerLen(b, q);
    if n > 0 {
      LineEndSuffix(s, off, q + n);
      var e := TitleEnd(b, q);
      if e < |b| {
        assert s[off + e] == b[e];
      }
    }
  }

  /** `NextHeading` is determined by its contract. */
  lemma NextHeadingAt(s: string, from: nat, k: nat)
    requires from <= k <= |s|
    requires forall i :: from <= i < k ==> !HeadingAt(s, i)
    requires k < |s| ==> HeadingAt(s, k)
    ensures NextHeading(s, from) == k
  {
  }

  /** One step of `Scan` at its first heading `k`: the piece before it, its
      title, and the pieces of the rest after its line. */
  lemma ScanStep(s: string, k: nat, piece: string, title: string, rest: string)
    requires k < |s| && NextHeading(s, 0) == k && HeadingAt(s, k)
    requires piece == s[..k] && title == s[k + MarkerLen(s, k)..TitleEnd(s, k)]
    requires rest == s[HeadingEnd(s, k)..]
    ensures Scan(s) == [piece, title] + Scan(rest)
  {
  }

  /** A text without a heading is one piece. */
  lemma ScanNone(s: string)
    requires NextHeading(s, 0) == |s|
    ensures Scan(s) == [s]
  {
  }

  /** A text that starts with a plain heading splits into an empty piece,
      the title, and the pieces of what follows the heading's line. */
  lemma HeadingFirst(t: string, x: string)
    requires PlainTitle(t)
    ensures HeadingAt(Heading(t) + x, 0)
    ensures Scan(Heading(t) + x) == ["", t] + Scan(x)
  {
    var s := Heading(t) + x;
    assert s == "### " + (t + ("\n" + x));
    assert s[0] == '#' && s[1] == '#' && s[2] == '#' && s[3] == ' ';
    assert MarkerLen(s, 0) == 4;
    forall i | 4 <= i < 4 + |t|
      ensures !IsLineTerminator(s[i])
    {
      assert s[i] == t[i - 4];
    }
    assert s[4 + |t|] == '\n';
    LineEndAt(s, 4, 4 + |t|);
    assert TitleEnd(s, 0) == 4 + |t| && HeadingEnd(s, 0) == 5 + |t|;
    NextHeadingAt(s, 0, 0);
    assert s[..0] == "" && s[4..4 + |t|] == t && s[5 + |t|..] == x;
    ScanStep(s, 0, "", t, x);
  }

  /** A "**" heading followed by its line splits into its title and the
      pieces after it. */
  lemma BoldFirst(t: string, x: string)
    requires PlainTitle(t)
    ensures HeadingAt("**" + t + "\n" + x, 0)
    ensures Scan("**" + t + "\n" + x) == ["", t] + Scan(x)
  {
    var s := "**" + t + "\n" + x;
    assert s[0] == '*' && s[1] == '*';
    assert MarkerLen(s, 0) == 2;
    forall i | 2 <= i < 2 + |t|
      ensures !IsLineTerminator(s[i])
    {
      assert s[i] == t[i - 2];
    }
    assert s[2 + |t|] == '\n';
    LineEndAt(s, 2, 2 + |t|);
    NextHeadingAt(s, 0, 0);
    assert s[..0] == "" && s[2..2 + |t|] == t && s[3 + |t|..] == x;
    ScanStep(s, 0, "", t, x);
  }

  /** No marker character occurs in item lines. */
  lemma {:induction false} ItemLinesUnmarked(items: seq<string>)
    requires forall k :: 0 <= k < |items| ==> PlainItem(items[k])
    ensures forall i :: 0 <= i < |ItemLines(items)| ==> ItemLines(items)[i] != '#' && ItemLines(items)[i] != '*'
    ensures items != [] ==> ItemLines(items) != ""
  {
    if items != [] {
      ItemLinesUnmarked(items[1..]);
      var x, rest := items[0], ItemLines(items[1..]);
      var s := ItemLines(items);
      assert s == "- " + x + "\n" + rest;
      forall i | 0 <= i < |s|
        ensures s[i] != '#' && s[i] != '*'
      {
        if 2 <= i < 2 + |x| {
          assert s[i] == x[i - 2];
        } else if 3 + |x| <= i {
          assert s[i] == rest[i - 3 - |x|];
        }
      }
    }
  }

  /** No heading starts inside text without marker characters. */
  lemma UnmarkedPrefix(a: string, b: string)
    requires forall i :: 0 <= i < |a| ==> a[i] != '#' && a[i] != '*'
    ensures forall k :: 0 <= k < |a| ==> !HeadingAt(a + b, k)
  {
    var s := a + b;
    forall k | 0 <= k < |a|
      ensures !HeadingAt(s, k)
    {
      assert s[k] == a[k];
    }
  }

  /** Text without marker characters is one piece. */
  lemma ScanUnmarked(a: string)
    requires forall i :: 0 <= i < |a| ==> a[i] != '#' && a[i] != '*'
    ensures Scan(a) == [a]
  {
    UnmarkedPrefix(a, "");
    assert a + "" == a;
    NextHeadingAt(a, 0, |a|);
    ScanNone(a);
  }

  /** A heading after text without marker characters is the first heading,
      at the same place relative to the text after it. */
  lemma HeadingAfterPlain(a: string, b: string)
    requires forall i :: 0 <= i < |a| ==> a[i] != '#' && a[i] != '*'
    requires b != [] && HeadingAt(b, 0)
    ensures NextHeading(a + b, 0) == |a| && HeadingAt(a + b, |a|)
    ensures MarkerLen(a + b, |a|) == MarkerLen(b, 0)
    ensures TitleEnd(a + b, |a|) == |a| + TitleEnd(b, 0)
    ensures HeadingEnd(a + b, |a|) == |a| + HeadingEnd(b, 0)
  {
    var s := a + b;
    UnmarkedPrefix(a, b);
    assert s[|a|..] == b;
    HeadingSuffix(s, |a|, 0);
    NextHeadingAt(s, 0, |a|);
  }

  /** The pieces of text without marker characters followed by a heading:
      that text, the heading's title, and the pieces after its line. */
  lemma ScanAfterPlain(a: string, b: string)
    requires forall i :: 0 <= i < |a| ==> a[i] != '#' && a[i] != '*'
    requires b != [] && HeadingAt(b, 0)
    ensures Scan(a + b) == [a, b[MarkerLen(b, 0)..TitleEnd(b, 0)]] + Scan(b[HeadingEnd(b, 0)..])
  {
    var s := a + b;
    HeadingAfterPlain(a, b);
    var n, e, h := MarkerLen(b, 0), TitleEnd(b, 0), HeadingEnd(b, 0);
    assert s[..|a|] == a;
    ShiftedSlices(a, b, n, e);
    ShiftedSlices(a, b, h, h);
    ScanStep(s, |a|, a, b[n..e], b[h..]);
  }

  /** The pieces of a text that starts with a heading. */
  lemma ScanAtHeading(b: string)
    requires b != [] && HeadingAt(b, 0)
    ensures Scan(b) == ["", b[MarkerLen(b, 0)..TitleEnd(b, 0)]] + Scan(b[HeadingEnd(b, 0)..])
  {
    NextHeadingAt(b, 0, 0);
    ScanStep(b, 0, "", b[MarkerLen(b, 0)..TitleEnd(b, 0)], b[HeadingEnd(b, 0)..]);
  }

  /** Text without marker characters followed by a heading splits into that
      text and then the heading's pieces. */
  lemma ScanBeforeHeading(a: string, b: string)
    requires forall i :: 0 <= i < |a| ==> a[i] != '#' && a[i] != '*'
    requires b != [] && HeadingAt(b, 0)
    ensures Scan(a + b) == [a] + Scan(b)[1..]
  {
    var title, after := b[MarkerLen(b, 0)..TitleEnd(b, 0)], Scan(b[HeadingEnd(b, 0)..]);
    ScanAfterPlain(a, b);
    ScanAtHeading(b);
    DropHead(Scan(a + b), Scan(b), a, a, title, "", title, after, after);
  }

  /** Two sequences that agree after their first elements. */
  lemma DropHead<T>(xs: seq<T>, ys: seq<T>, a: T, x0: T, x1: T, y0: T, y1: T, xr: seq<T>, yr: seq<T>)
    requires xs == [x0, x1] + xr && ys == [y0, y1] + yr
    requires x0 == a && x1 == y1 && xr == yr
    ensures xs == [a] + ys[1..]
  {
    assert ys[1..] == [y1] + yr;
  }

  /** A rendered list splits into an empty piece and then each title
      followed by its item lines. */
  lemma {:induction false} RenderScan(cats: seq<Category>)
    requires Writable(cats) && cats != []
    ensures HeadingAt(Render(cats), 0)
    ensures Scan(Render(cats)) == [""] + Flat(cats)
  {
    var c, rest := cats[0], cats[1..];
    var lines, tail := ItemLines(c.items), Render(rest);
    Associative(Heading(c.title), lines, tail);
    HeadingFirst(c.title, lines + tail);
    ItemLinesUnmarked(c.items);
    if rest != [] {
      WritableTail(cats);
      RenderScan(rest);
      ScanBeforeHeading(lines, tail);
      DropOne("", Flat(rest));
    } else {
      assert lines + tail == lines;
      ScanUnmarked(lines);
      assert [lines] == [lines] + Flat(rest);
    }
    Regroup("", c.title, lines, Flat(rest));
  }

  /** Concatenation is associative. */
  lemma Associative<T>(a: seq<T>, b: seq<T>, c: seq<T>)
    ensures (a + b) + c == a + (b + c)
  {
  }

  /** Dropping the first element. */
  lemma DropOne<T>(x: T, r: seq<T>)
    ensures ([x] + r)[1..] == r
  {
  }

  /** Two ways of writing three leading elements. */
  lemma Regroup<T>(x: T, y: T, z: T, r: seq<T>)
    ensures [x, y] + ([z] + r) == [x] + ([y, z] + r)
  {
  }

  /** The categories after the first of writable ones are writable. */
  lemma WritableTail(cats: seq<Category>)
    requires Writable(cats) && cats != []
    ensures Writable(cats[1..])
  {
    var rest := cats[1..];
    forall m | 0 <= m < |rest|
      ensures PlainTitle(rest[m].title) && rest[m].items != []
        && forall k :: 0 <= k < |rest[m].items| ==> PlainItem(rest[m].items[k])
    {
      assert rest[m] == cats[m + 1];
    }
  }

  /** `IndexOf` is determined by its contract. */
  lemma IndexOfAt(s: string, c: char, from: nat, k: nat)
    requires from <= k <= |s|
    requires forall i :: from <= i < k ==> s[i] != c
    requires k < |s| ==> s[k] == c
    ensures IndexOf(s, c, from) == k
  {
  }

  /** One match of the item pattern, and the items after it. */
  lemma ItemsStep(c: string)
    requires IndexOf(c, '-', 0) < |c|
    ensures Items(c) == [Trim(c[ItemStart(c)..ItemEnd(c)])] + Items(c[ItemEnd(c)..])
  {
  }

  /** Two texts whose first item matches read the same item, and whose
      texts after it agree, have the same items. */
  lemma ItemsSame(s: string, r: string)
    requires IndexOf(s, '-', 0) < |s| && IndexOf(r, '-', 0) < |r|
    requires s[ItemStart(s)..ItemEnd(s)] == r[ItemStart(r)..ItemEnd(r)]
    requires s[ItemEnd(s)..] == r[ItemEnd(r)..]
    ensures Items(s) == Items(r)
  {
    ItemsStep(s);
    ItemsStep(r);
  }

  /** Text without a '-' has no items. */
  lemma ItemsNone(c: string)
    requires IndexOf(c, '-', 0) == |c|
    ensures Items(c) == []
  {
  }

  /** Where the first item match lies in text without a '-' before the rest:
      where it lies in the rest, shifted. */
  lemma ItemBoundsAfterPlain(p: string, r: string)
    requires forall i :: 0 <= i < |p| ==> p[i] != '-'
    ensures IndexOf(p + r, '-', 0) == |p| + IndexOf(r, '-', 0)
    ensures IndexOf(r, '-', 0) < |r| ==>
      ItemStart(p + r) == |p| + ItemStart(r) && ItemEnd(p + r) == |p| + ItemEnd(r)
  {
    var s := p + r;
    var j := IndexOf(r, '-', 0);
    DashAfterPlain(p, r);
    if j < |r| {
      assert s[|p|..] == r;
      SpaceRunEndSuffix(s, |p|, j + 1);
      LineEndSuffix(s, |p|, ItemStart(r));
    }
  }

  /** The first '-' of text without a '-' before the rest is the first '-'
      of the rest, shifted. */
  lemma DashAfterPlain(p: string, r: string)
    requires forall i :: 0 <= i < |p| ==> p[i] != '-'
    ensures IndexOf(p + r, '-', 0) == |p| + IndexOf(r, '-', 0)
  {
    var s := p + r;
    var j := IndexOf(r, '-', 0);
    forall i | 0 <= i < |p| + j
      ensures s[i] != '-'
    {
      if i >= |p| {
        assert s[i] == r[i - |p|];
      }
    }
    if j < |r| {
      assert s[|p| + j] == r[j];
    }
    IndexOfAt(s, '-', 0, |p| + j);
  }

  /** Text without a '-' before the rest adds no items. */
  lemma ItemsAfterPlain(p: string, r: string)
    requires forall i :: 0 <= i < |p| ==> p[i] != '-'
    ensures Items(p + r) == Items(r)
  {
    var s := p + r;
    ItemBoundsAfterPlain(p, r);
    if IndexOf(r, '-', 0) == |r| {
      ItemsNone(s);
      ItemsNone(r);
    } else {
      var k, e := ItemStart(r), ItemEnd(r);
      ShiftedSlices(p, r, k, e);
      ItemsSame(s, r);
    }
  }

  /** Slices of the rest, read in the whole text at shifted indices. */
  lemma ShiftedSlices(p: string, r: string, k: nat, e: nat)
    requires k <= e <= |r|
    ensures (p + r)[|p| + k..|p| + e] == r[k..e]
    ensures (p + r)[|p| + e..] == r[e..]
  {
    var s := p + r;
    assert s[|p|..] == r;
    assert s[|p| + k..|p| + e] == s[|p|..][k..e];
    assert s[|p| + e..] == s[|p|..][e..];
  }

  /** A text that starts with "- " and then no space: its first item
      starts at index 2. */
  lemma BulletStart(s: string)
    requires |s| >= 3 && s[0] == '-' && s[1] == ' ' && !IsSpace(s[2])
    ensures IndexOf(s, '-', 0) == 0 && ItemStart(s) == 2
  {
    IndexOfAt(s, '-', 0, 0);
    SpaceRunEndAt(s, 1, 2);
  }

  /** Where the item of an item line lies: after "- ", up to its '\n'. */
  lemma ItemLineBounds(x: string, rest: string)
    requires PlainItem(x)
    ensures IndexOf("- " + x + ("\n" + rest), '-', 0) == 0
    ensures ItemStart("- " + x + ("\n" + rest)) == 2
    ensures ItemEnd("- " + x + ("\n" + rest)) == 2 + |x|
  {
    var s := "- " + x + ("\n" + rest);
    assert s[0] == '-' && s[1] == ' ';
    assert x[0] == s[2];
    BulletStart(s);
    assert s[2..2 + |x|] == x && s[2 + |x|] == '\n';
    LineBefore(s, 2, x);
  }

  /** A line that holds `x` from `start` on and then a '\n' ends there. */
  lemma LineBefore(s: string, start: nat, x: string)
    requires start + |x| < |s| && s[start..start + |x|] == x && s[start + |x|] == '\n'
    requires forall i :: 0 <= i < |x| ==> !IsLineTerminator(x[i])
    ensures LineEnd(s, start) == start + |x|
  {
    forall i | start <= i < start + |x|
      ensures !IsLineTerminator(s[i])
    {
      assert s[i] == x[i - start];
    }
    LineEndAt(s, start, start + |x|);
  }

  /** An item line reads back as its item, followed by the items after it. */
  lemma ItemLineFirst(x: string, rest: string)
    requires PlainItem(x)
    ensures Items("- " + x + ("\n" + rest)) == [x] + Items(rest)
  {
    var s := "- " + x + ("\n" + rest);
    ItemLineBounds(x, rest);
    assert s[2..2 + |x|] == x;
    assert s[2 + |x|..] == "\n" + rest;
    ItemsStep(s);
    ItemsAfterPlain("\n", rest);
  }

  /** The item lines of a non-empty list: the first item's line, then the rest. */
  lemma ItemLinesCons(items: seq<string>)
    requires items != []
    ensures ItemLines(items) == "- " + items[0] + ("\n" + ItemLines(items[1..]))
  {
    Associative("- " + items[0], "\n", ItemLines(items[1..]));
  }

  /** Item lines give back their items. */
  lemma {:induction false} ItemLinesItems(items: seq<string>)
    requires forall k :: 0 <= k < |items| ==> PlainItem(items[k])
    ensures Items(ItemLines(items)) == items
  {
    if items != [] {
      var x, rest := items[0], ItemLines(items[1..]);
      ItemLinesCons(items);
      ItemLineFirst(x, rest);
      ItemLinesItems(items[1..]);
      assert items == [x] + items[1..];
    }
  }

  /** The loop reads a title and its item lines back as the category, and
      then goes on with the sections after them. */
  lemma CollectFirst(c: Category, rest: seq<string>)
    requires PlainTitle(c.title) && c.items != []
    requires forall k :: 0 <= k < |c.items| ==> PlainItem(c.items[k])
    ensures Collect([c.title, ItemLines(c.items)] + rest, Items) == [c] + Collect(rest, Items)
  {
    var secs := [c.title, ItemLines(c.items)] + rest;
    assert secs[0] == c.title && secs[1] == ItemLines(c.items);
    assert From(secs, 2) == rest;
    ItemLinesItems(c.items);
  }

  /** The loop reads each title and its item lines back as the category. */
  lemma {:induction false} CollectFlat(cats: seq<Category>)
    requires Writable(cats)
    ensures Collect(Flat(cats), Items) == cats
  {
    if cats != [] {
      var c, rest := cats[0], cats[1..];
      assert Flat(cats) == [c.title, ItemLines(c.items)] + Flat(rest);
      CollectFirst(c, Flat(rest));
      WritableTail(cats);
      CollectFlat(rest);
      assert cats == [c] + rest;
    }
  }

  /** Filtering leaves a sequence without empty strings alone. */
  lemma {:induction false} NonEmptyKeepsAll(xs: seq<string>)
    requires "" !in xs
    ensures NonEmpty(xs) == xs
  {
    if xs != [] {
      assert xs == [xs[0]] + xs[1..];
      NonEmptyKeepsAll(xs[1..]);
    }
  }

  /** The sections of a rendered list are its titles and item lines. */
  lemma {:induction false} FlatNonEmpty(cats: seq<Category>)
    requires Writable(cats)
    ensures "" !in Flat(cats)
  {
    if cats != [] {
      ItemLinesUnmarked(cats[0].items);
      assert Writable(cats[1..]) by {
        forall m | 0 <= m < |cats[1..]|
          ensures PlainTitle(cats[1..][m].title) && cats[1..][m].items != []
            && forall k :: 0 <= k < |cats[1..][m].items| ==> PlainItem(cats[1..][m].items[k])
        {
          assert cats[1..][m] == cats[m + 1];
        }
      }
      FlatNonEmpty(cats[1..]);
    }
  }

  /** A rendered list splits into its titles and item lines. */
  lemma RenderSections(cats: seq<Category>)
    requires Writable(cats) && cats != []
    ensures Sections(Render(cats)) == Flat(cats)
  {
    RenderScan(cats);
    FlatNonEmpty(cats);
    assert [""] + Flat(cats) == [""] + Flat(cats);
    NonEmptyKeepsAll(Flat(cats));
    assert NonEmpty([""] + Flat(cats)) == NonEmpty(Flat(cats)) by {
      assert ([""] + Flat(cats))[1..] == Flat(cats);
    }
  }

  /** Round trip: a list written in the checklist's shape reads back as the
      same categories, in the same order. */
  lemma RenderParse(cats: seq<Category>)
    requires Writable(cats)
    ensures Parse(Render(cats)) == cats
  {
    if cats != [] {
      var text := Render(cats);
      RenderScan(cats);
      assert MarkerFrom(text, 0) == 0;
      assert DropPreamble(text) == text;
      RenderSections(cats);
      CollectFlat(cats);
      FlatNonEmpty(cats);
      assert Flat(cats) != [];
    }
  }

  // ----- Texts without a dash -----

  /** `text.includes("-")` holds exactly when '-' is a character of `text`. */
  lemma ContainsDash(text: string)
    ensures Contains(text, "-") <==> '-' in text
  {
    if '-' in text {
      var i :| 0 <= i < |text| && text[i] == '-';
      assert text[i..i + 1] == "-";
      ContainsAt(text, "-", 0, i);
    } else {
      ContainsNoDash(text, 0);
    }
  }

  lemma {:induction false} ContainsNoDash(text: string, from: nat)
    requires '-' !in text
    ensures !ContainsFrom(text, "-", from)
    decreases |text| - from
  {
    if from + 1 <= |text| {
      assert text[from..from + 1][0] == text[from];
      ContainsNoDash(text, from + 1);
    }
  }

  /** The pieces of a text without a dash have no dash. */
  lemma {:induction false} ScanNoDash(s: string)
    requires '-' !in s
    ensures forall i :: 0 <= i < |Scan(s)| ==> '-' !in Scan(s)[i]
    decreases |s|
  {
    var k := NextHeading(s, 0);
    if k < |s| {
      var rest := s[HeadingEnd(s, k)..];
      SliceChars(s, HeadingEnd(s, k));
      ScanNoDash(rest);
      var title := s[k + MarkerLen(s, k)..TitleEnd(s, k)];
      assert forall c :: c in title ==> c in s by {
        forall c | c in title ensures c in s {
          var j :| 0 <= j < |title| && title[j] == c;
          assert s[k + MarkerLen(s, k) + j] == c;
        }
      }
      SliceChars(s, k);
    }
  }

  /** Every section of a text without a dash lacks one too. */
  lemma SectionsNoDash(text: string)
    requires '-' !in text
    ensures forall i :: 0 <= i < |Sections(DropPreamble(text))| ==> '-' !in Sections(DropPreamble(text))[i]
  {
    var cleaned := DropPreamble(text);
    SliceChars(text, |text| - |cleaned|);
    ScanNoDash(cleaned);
    var secs := Sections(cleaned);
    forall i | 0 <= i < |secs|
      ensures '-' !in secs[i]
    {
      var j :| 0 <= j < |Scan(cleaned)| && Scan(cleaned)[j] == secs[i];
    }
  }

  /** Sections without a dash give no category. */
  lemma {:induction false} CollectNoDash(secs: seq<string>)
    requires forall i :: 0 <= i < |secs| ==> '-' !in secs[i]
    ensures Collect(secs, Items) == []
    decreases |secs|
  {
    if secs != [] {
      var content := if 1 < |secs| then secs[1] else "";
      assert '-' !in content;
      assert IndexOf(content, '-', 0) == |content|;
      var rest := From(secs, 2);
      assert forall i :: 0 <= i < |rest| ==> rest[i] == secs[i + 2];
      CollectNoDash(rest);
    }
  }

  /** A text without a dash, whitespace-only text among them, shows no
      category, which is the "not generated yet" placeholder. */
  lemma NoDashNoCategories(text: string)
    requires '-' !in text
    ensures Parse(text) == []
  {
    if text != "" {
      SectionsNoDash(text);
      CollectNoDash(Sections(DropPreamble(text)));
      ContainsDash(text);
    }
  }

  // ----- The fallback category -----

  /** The fallback items of a text given line by line: each line without its
      first dash and trimmed, the empty ones dropped. */
  lemma GeneralItemsOfLines(lines: seq<string>)
    requires |lines| >= 1
    requires forall k :: 0 <= k < |lines| ==> '\n' !in lines[k]
    ensures GeneralItems(Join(lines, '\n')) == CleanLines(lines)
  {
    SplitJoin(lines, '\n');
  }

  /** A line "- x" with a plain `x` becomes `x`. */
  lemma CleanBullet(x: string)
    requires PlainItem(x)
    ensures Trim(RemoveDash("- " + x)) == x
  {
    var l := "- " + x;
    IndexOfAt(l, '-', 0, 0);
    assert l[0] == '-' && l[1] == ' ' && l[2] == x[0];
    SpaceRunEndAt(l, 1, 2);
    assert l[..0] + l[2..] == x;
  }

  /** A text with a dash but no marker character is one section with no
      items, so it falls back to the "General" category of all its lines. */
  lemma NoMarkersFallback(text: string)
    requires '-' in text
    requires forall i :: 0 <= i < |text| ==> text[i] != '#' && text[i] != '*'
    ensures Parse(text) == [Category(GeneralTitle, GeneralItems(text))]
  {
    ScanUnmarked(text);
    assert MarkerFrom(text, 0) == |text|;
    assert DropPreamble(text) == text;
    assert Sections(text) == [text];
    assert Items("") == [];
    assert Kept([text], Items) == [];
    assert From([text], 2) == [];
    assert Collect([text], Items) == [];
    ContainsDash(text);
  }

  /** A bullet line of a plain item is one line. */
  lemma BulletOneLine(x: string)
    requires PlainItem(x)
    ensures '\n' !in "- " + x
  {
    var l := "- " + x;
    forall i | 0 <= i < |l|
      ensures l[i] != '\n'
    {
      if i >= 2 {
        assert l[i] == x[i - 2];
      }
    }
  }

  /** Two bullet lines joined: a dash first, no marker character. */
  lemma TwoBulletsUnmarked(x: string, y: string)
    requires PlainItem(x) && PlainItem(y)
    ensures '-' in Join(["- " + x, "- " + y], '\n')
    ensures forall i :: 0 <= i < |Join(["- " + x, "- " + y], '\n')| ==>
      Join(["- " + x, "- " + y], '\n')[i] != '#' && Join(["- " + x, "- " + y], '\n')[i] != '*'
  {
    var lines := ["- " + x, "- " + y];
    var text := Join(lines, '\n');
    assert lines[1..] == ["- " + y];
    assert text == ("- " + x) + "\n" + ("- " + y);
    assert text[0] == '-';
    BulletUnmarked(x);
    BulletUnmarked(y);
    forall i | 0 <= i < |text|
      ensures text[i] != '#' && text[i] != '*'
    {
      if i > 2 + |x| {
        assert text[i] == ("- " + y)[i - 3 - |x|];
      } else if i < 2 + |x| {
        assert text[i] == ("- " + x)[i];
      }
    }
  }

  /** Two lines that clean to non-empty texts give those texts. */
  lemma CleanTwo(a: string, b: string, x: string, y: string)
    requires Trim(RemoveDash(a)) == x != "" && Trim(RemoveDash(b)) == y != ""
    ensures CleanLines([a, b]) == [x, y]
  {
    CleanOne(b, y);
    assert [a, b][1..] == [b];
    assert CleanLines([a, b]) == [x] + CleanLines([b]);
  }

  /** A line that cleans to a non-empty text gives that text. */
  lemma CleanOne(b: string, y: string)
    requires Trim(RemoveDash(b)) == y != ""
    ensures CleanLines([b]) == [y]
  {
    assert [b][1..] == [];
    assert CleanLines([b]) == [y] + CleanLines([]);
  }

  /** The cleaned lines of two bullet lines are their items. */
  lemma CleanTwoBullets(x: string, y: string)
    requires PlainItem(x) && PlainItem(y)
    ensures CleanLines(["- " + x, "- " + y]) == [x, y]
  {
    CleanBullet(x);
    CleanBullet(y);
    CleanTwo("- " + x, "- " + y, x, y);
  }

  /** Two bullet lines without headings fall back to one "General"
      category holding both items, in order. */
  lemma TwoBulletsFallback(x: string, y: string)
    requires PlainItem(x) && PlainItem(y)
    ensures Parse(Join(["- " + x, "- " + y], '\n')) == [Category(GeneralTitle, [x, y])]
  {
    var lines := ["- " + x, "- " + y];
    TwoBulletsUnmarked(x, y);
    BulletOneLine(x);
    BulletOneLine(y);
    CleanTwoBullets(x, y);
    LinesFallback(lines, [x, y]);
  }

  /** Lines joined into a text with a dash and no marker character fall
      back to the "General" category of their cleaned lines. */
  lemma LinesFallback(lines: seq<string>, items: seq<string>)
    requires |lines| >= 1
    requires forall k :: 0 <= k < |lines| ==> '\n' !in lines[k]
    requires '-' in Join(lines, '\n')
    requires forall i :: 0 <= i < |Join(lines, '\n')| ==> Join(lines, '\n')[i] != '#' && Join(lines, '\n')[i] != '*'
    requires CleanLines(lines) == items
    ensures Parse(Join(lines, '\n')) == [Category(GeneralTitle, items)]
  {
    NoMarkersFallback(Join(lines, '\n'));
    GeneralItemsOfLines(lines);
  }

  /** The two-line example of the fallback. */
  lemma SaltPepperText()
    ensures Join(["- " + "Salt", "- " + "Pepper"], '\n') == "- Salt\n- Pepper"
    ensures PlainItem("Salt") && PlainItem("Pepper")
  {
    assert ["- Salt", "- Pepper"][1..] == ["- Pepper"];
  }

  /** Bullet lines without headings fall back to one "General" category
      holding every item, in order. */
  lemma SaltAndPepper()
    ensures Parse("- Salt\n- Pepper") == [Category(GeneralTitle, ["Salt", "Pepper"])]
  {
    SaltPepperText();
    TwoBulletsFallback("Salt", "Pepper");
  }

  /** The emptiness test of the parser comes before the fallback: a dash
      ahead of an empty heading is no category and no fallback either. */
  lemma DashBeforeEmptyHeading()
    ensures Contains("-**", "-") && Parse("-**") == []
  {
    var text := "-**";
    assert text[0..1] == "-";
    ContainsAt(text, "-", 0, 0);
    assert MarkerLen(text, 0) == 0 && MarkerLen(text, 1) == 2;
    assert MarkerFrom(text, 0) == 1;
    var b := text[1..];
    assert b == "**";
    assert HeadingAt(b, 0) && TitleEnd(b, 0) == 2 && HeadingEnd(b, 0) == 2;
    NextHeadingAt(b, 0, 0);
    assert Scan(b) == ["", "", ""] by {
      ScanStep(b, 0, "", "", "");
      assert Scan("") == [""];
    }
    assert NonEmpty(["", "", ""]) == [];
  }

  // ----- The worked example of the checklist -----

  /** A last item line without its '\n' reads as its item. */
  lemma LastItemLine(x: string)
    requires PlainItem(x)
    ensures Items("- " + x) == [x]
  {
    var c := "- " + x;
    assert c == "- " + x + ("\n" + "")[..0];
    IndexOfAt(c, '-', 0, 0);
    assert c[0] == '-' && c[1] == ' ' && c[2] == x[0];
    SpaceRunEndAt(c, 1, 2);
    forall i | 2 <= i < |c|
      ensures !IsLineTerminator(c[i])
    {
      assert c[i] == x[i - 2];
    }
    LineEndAt(c, 2, |c|);
    assert c[2..|c|] == x;
    ItemsStep(c);
    assert c[|c|..] == "";
    assert IndexOf("", '-', 0) == 0;
  }

  /** The pieces of two headings, the first followed by unmarked lines and
      the second by an unmarked last line. */
  lemma ScanTwoHeadings(t1: string, lines: string, t2: string, last: string)
    requires PlainTitle(t1) && PlainTitle(t2)
    requires forall i :: 0 <= i < |lines| ==> lines[i] != '#' && lines[i] != '*'
    requires forall i :: 0 <= i < |last| ==> last[i] != '#' && last[i] != '*'
    ensures Scan(Heading(t1) + (lines + (Heading(t2) + last))) == ["", t1, lines, t2, last]
  {
    HeadingFirst(t1, lines + (Heading(t2) + last));
    ScanLinesThenHeading(lines, t2, last);
  }

  /** The pieces of unmarked lines, then a heading and an unmarked last
      line. */
  lemma ScanLinesThenHeading(lines: string, t2: string, last: string)
    requires PlainTitle(t2)
    requires forall i :: 0 <= i < |lines| ==> lines[i] != '#' && lines[i] != '*'
    requires forall i :: 0 <= i < |last| ==> last[i] != '#' && last[i] != '*'
    ensures Scan(lines + (Heading(t2) + last)) == [lines, t2, last]
  {
    var tail := Heading(t2) + last;
    HeadingFirst(t2, last);
    ScanBeforeHeading(lines, tail);
    ScanUnmarked(last);
  }

  /** The categories of two headings: the item lines of the first, and one
      last item of the second. */
  lemma CollectTwoHeadings(c: Category, t2: string, x: string)
    requires PlainTitle(c.title) && c.items != []
    requires forall k :: 0 <= k < |c.items| ==> PlainItem(c.items[k])
    requires PlainTitle(t2) && PlainItem(x)
    ensures Collect([c.title, ItemLines(c.items)] + [t2, "- " + x], Items)
      == [c, Category(t2, [x])]
  {
    CollectFirst(c, [t2, "- " + x]);
    LastItemLine(x);
    CollectLast(t2, "- " + x, [x]);
  }

  /** A title whose content has no items adds no category. */
  lemma CollectSkip(t: string, content: string, rest: seq<string>)
    requires Items(content) == []
    ensures Collect([t, content] + rest, Items) == Collect(rest, Items)
  {
    var secs := [t, content] + rest;
    assert secs[0] == t && secs[1] == content;
    assert Kept(secs, Items) == [];
    assert From(secs, 2) == rest;
  }

  /** A last title and its content make one category when it has items. */
  lemma CollectLast(t: string, content: string, items: seq<string>)
    requires PlainTitle(t) && Items(content) == items && items != []
    ensures Collect([t, content], Items) == [Category(t, items)]
  {
    var secs := [t, content];
    assert Kept(secs, Items) == [Category(t, items)];
    assert From(secs, 2) == [];
  }

  /** A text that starts with a marker and has categories shows them. */
  lemma ParseFromMarker(text: string, secs: seq<string>, r: seq<Category>)
    requires text != [] && MarkerLen(text, 0) > 0
    requires Sections(text) == secs && secs != []
    requires Collect(secs, Items) == r && r != []
    ensures Parse(text) == r
  {
    assert DropPreamble(text) == text;
  }

  /** Filtering drops a leading empty piece and keeps non-empty ones. */
  lemma DropLeadingEmpty(xs: seq<string>)
    requires "" !in xs
    ensures NonEmpty([""] + xs) == xs
  {
    assert ([""] + xs)[1..] == xs;
    NonEmptyKeepsAll(xs);
  }

  /** Filtering four non-empty pieces after an empty one keeps the four. */
  lemma FourPieces(p: string, q: string, r: string, s: string)
    requires p != "" && q != "" && r != "" && s != ""
    ensures NonEmpty(["", p, q, r, s]) == [p, q] + [r, s]
  {
    var xs := [p, q, r, s];
    assert ["", p, q, r, s] == [""] + xs;
    DropLeadingEmpty(xs);
  }

  /** A bullet line of a plain item has no marker character. */
  lemma BulletUnmarked(x: string)
    requires PlainItem(x)
    ensures forall i :: 0 <= i < |"- " + x| ==> ("- " + x)[i] != '#' && ("- " + x)[i] != '*'
  {
    forall i | 2 <= i < |"- " + x| ensures ("- " + x)[i] == x[i - 2] { }
  }

  /** A list of two "### " categories whose text ends without a '\n' reads
      back as those two categories. */
  lemma TwoCategories(c: Category, t2: string, x: string)
    requires PlainTitle(c.title) && c.items != []
    requires forall k :: 0 <= k < |c.items| ==> PlainItem(c.items[k])
    requires PlainTitle(t2) && PlainItem(x)
    ensures Parse(Heading(c.title) + (ItemLines(c.items) + (Heading(t2) + ("- " + x))))
      == [c, Category(t2, [x])]
  {
    var lines := ItemLines(c.items);
    var text := Heading(c.title) + (lines + (Heading(t2) + ("- " + x)));
    ItemLinesUnmarked(c.items);
    BulletUnmarked(x);
    ScanTwoHeadings(c.title, lines, t2, "- " + x);
    HeadingFirst(c.title, lines + (Heading(t2) + ("- " + x)));
    var secs := [c.title, lines] + [t2, "- " + x];
    FourPieces(c.title, lines, t2, "- " + x);
    CollectTwoHeadings(c, t2, x);
    ParseFromMarker(text, secs, [c, Category(t2, [x])]);
  }

  lemma WorkedExampleWords()
    ensures PlainTitle("Fruits") && PlainTitle("Dairy")
    ensures PlainItem("Apple") && PlainItem("Banana") && PlainItem("Milk")
  {
  }

  /** The item lines of the worked example. */
  lemma AppleBananaLines()
    ensures ItemLines(["Apple", "Banana"]) == "- Apple\n- Banana\n"
  {
    var items := ["Apple", "Banana"];
    assert items[1..] == ["Banana"];
    assert ["Banana"][1..] == [];
    assert ItemLines(["Banana"]) == "- Banana\n";
  }

  /** The worked example's text as headings and item lines. */
  lemma FruitsDairyText()
    ensures Heading("Fruits") + (ItemLines(["Apple", "Banana"]) + (Heading("Dairy") + ("- " + "Milk")))
      == "### Fruits\n- Apple\n- Banana\n### Dairy\n- Milk"
  {
    AppleBananaLines();
    WorkedHeadings();
    LiteralJoin();
  }

  lemma WorkedHeadings()
    ensures Heading("Fruits") == "### Fruits\n" && Heading("Dairy") == "### Dairy\n"
    ensures "- " + "Milk" == "- Milk"
  {
  }

  lemma LiteralJoin()
    ensures "### Fruits\n" + ("- Apple\n- Banana\n" + ("### Dairy\n" + "- Milk"))
      == "### Fruits\n- Apple\n- Banana\n### Dairy\n- Milk"
  {
  }

  /** Two "### " headings with their bullet lines read as two categories, in
      order. */
  lemma FruitsAndDairy()
    ensures Parse("### Fruits\n- Apple\n- Banana\n### Dairy\n- Milk")
      == [Category("Fruits", ["Apple", "Banana"]), Category("Dairy", ["Milk"])]
  {
    WorkedExampleWords();
    TwoCategories(Category("Fruits", ["Apple", "Banana"]), "Dairy", "Milk");
    FruitsDairyText();
  }

  /** `MarkerFrom` is determined by its contract. */
  lemma {:induction false} MarkerFromAt(s: string, from: nat, k: nat)
    requires from <= k <= |s|
    requires forall i :: from <= i < k ==> MarkerLen(s, i) == 0
    requires k < |s| ==> MarkerLen(s, k) > 0
    ensures MarkerFrom(s, from) == k
    decreases k - from
  {
    if from < k {
      MarkerFromAt(s, from + 1, k);
    }
  }

  /** Text without marker characters before a "**" heading is preamble, and
      is dropped. */
  lemma PreambleBeforeBold(p: string, t: string, lines: string)
    requires forall i :: 0 <= i < |p| ==> p[i] != '#' && p[i] != '*'
    ensures DropPreamble(p + ("**" + t + "\n" + lines)) == "**" + t + "\n" + lines
  {
    var b := "**" + t + "\n" + lines;
    var s := p + b;
    forall i | 0 <= i < |p|
      ensures MarkerLen(s, i) == 0
    {
      assert s[i] == p[i];
    }
    assert s[|p|] == '*' && s[|p| + 1] == '*';
    MarkerFromAt(s, 0, |p|);
    assert s[|p|..] == b;
  }

  /** The pieces of a "**" heading and its item lines: nothing before the
      heading, the title, and the lines. */
  lemma BoldScan(t: string, items: seq<string>)
    requires PlainTitle(t) && items != []
    requires forall k :: 0 <= k < |items| ==> PlainItem(items[k])
    ensures Scan("**" + t + "\n" + ItemLines(items)) == [""] + [t, ItemLines(items)]
  {
    var lines := ItemLines(items);
    BoldFirst(t, lines);
    ItemLinesUnmarked(items);
    ScanUnmarked(lines);
    PairThenOne("", t, lines);
  }

  /** The sections of a "**" heading and its item lines: the title and the
      lines. */
  lemma BoldSections(t: string, items: seq<string>)
    requires PlainTitle(t) && items != []
    requires forall k :: 0 <= k < |items| ==> PlainItem(items[k])
    ensures Sections("**" + t + "\n" + ItemLines(items)) == [t, ItemLines(items)]
  {
    var lines := ItemLines(items);
    assert lines != "" by { ItemLinesUnmarked(items); }
    BoldScan(t, items);
    SectionsAfterEmpty("**" + t + "\n" + lines, t, lines);
  }

  /** A text split into an empty piece, a title and content has the title
      and content as its sections. */
  lemma SectionsAfterEmpty(c: string, t: string, content: string)
    requires Scan(c) == [""] + [t, content] && t != "" && content != ""
    ensures Sections(c) == [t, content]
  {
    DropLeadingEmpty([t, content]);
  }

  /** A title and its item lines make one category. */
  lemma BoldCollect(t: string, items: seq<string>)
    requires PlainTitle(t) && items != []
    requires forall k :: 0 <= k < |items| ==> PlainItem(items[k])
    ensures Collect([t, ItemLines(items)], Items) == [Category(t, items)]
  {
    ItemLinesItems(items);
    CollectLast(t, ItemLines(items), items);
  }

  lemma PairThenOne<T>(x: T, y: T, z: T)
    ensures [x, y] + [z] == [x] + [y, z]
  {
  }

  /** A text whose sections, after the preamble, give categories shows
      them. */
  lemma ParseAfterPreamble(text: string, cleaned: string, secs: seq<string>, r: seq<Category>)
    requires text != [] && DropPreamble(text) == cleaned
    requires Sections(cleaned) == secs && secs != []
    requires Collect(secs, Items) == r && r != []
    ensures Parse(text) == r
  {
  }

  /** A "**" after text without marker characters, such as the "- " of a
      bullet, starts a category: the text before it is dropped with the
      preamble, and the rest of the line, a closing "**" included, becomes
      the title that the following item lines belong to. */
  lemma BoldAfterUnmarked(p: string, t: string, items: seq<string>)
    requires forall i :: 0 <= i < |p| ==> p[i] != '#' && p[i] != '*'
    requires PlainTitle(t) && items != []
    requires forall k :: 0 <= k < |items| ==> PlainItem(items[k])
    ensures Parse(p + ("**" + t + "\n" + ItemLines(items))) == [Category(t, items)]
  {
    BoldAfterUnmarkedParts(p, t, items);
    ParseAfterPreamble(p + ("**" + t + "\n" + ItemLines(items)), "**" + t + "\n" + ItemLines(items),
      [t, ItemLines(items)], [Category(t, items)]);
  }

  /** The three stages of that parse: the preamble dropped, the sections,
      and the category kept. */
  lemma BoldAfterUnmarkedParts(p: string, t: string, items: seq<string>)
    requires forall i :: 0 <= i < |p| ==> p[i] != '#' && p[i] != '*'
    requires PlainTitle(t) && items != []
    requires forall k :: 0 <= k < |items| ==> PlainItem(items[k])
    ensures DropPreamble(p + ("**" + t + "\n" + ItemLines(items))) == "**" + t + "\n" + ItemLines(items)
    ensures Sections("**" + t + "\n" + ItemLines(items)) == [t, ItemLines(items)]
    ensures Collect([t, ItemLines(items)], Items) == [Category(t, items)]
  {
    PreambleBeforeBold(p, t, ItemLines(items));
    BoldSections(t, items);
    BoldCollect(t, items);
  }

  /** "- **Tomate** 1 kg" followed by "- Cebolla" is one category titled
      "Tomate** 1 kg" holding "Cebolla": the bold item is lost as an item. */
  lemma BoldItemTomate()
    ensures Parse("- **Tomate** 1 kg\n- Cebolla\n") == [Category("Tomate** 1 kg", ["Cebolla"])]
  {
    TomateWords();
    BoldAfterUnmarked("- ", "Tomate** 1 kg", ["Cebolla"]);
    TomateText();
  }

  lemma TomateWords()
    ensures PlainTitle("Tomate** 1 kg") && PlainItem("Cebolla")
    ensures forall i :: 0 <= i < |"- "| ==> "- "[i] != '#' && "- "[i] != '*'
  {
  }

  /** The example's text as a bullet, a bold title and item lines. */
  lemma TomateText()
    ensures "- " + ("**" + "Tomate** 1 kg" + "\n" + ItemLines(["Cebolla"])) == "- **Tomate** 1 kg\n- Cebolla\n"
  {
    assert ["Cebolla"][1..] == [];
    assert ItemLines(["Cebolla"]) == "- Cebolla\n";
  }
}
