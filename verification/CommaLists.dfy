/** The comma list functions (src/lib/utils.ts): a parser and a printer that undo each other. */
module CommaLists {
  import opened Collections
  import opened Strings

  /** What a stored list may turn out to be; the items stand for their `String(...)` texts. */
  datatype Value = Items(items: seq<string>) | Text(text: string) | Other

  function Split(s: string): (r: seq<string>)
    ensures r != []
  {
    if s == "" then [""]
    else if s[0] == ',' then [""] + Split(s[1..])
    else
      var rest := Split(s[1..]);
      [[s[0]] + rest[0]] + rest[1..]
  }

  predicate NonEmpty(item: string) { item != "" }

  function CleanUp(pieces: seq<string>): seq<string> {
    Select(MapSeq(Trim, pieces), NonEmpty)
  }

  function ParseCommaList(s: string): seq<string> {
    CleanUp(Split(s))
  }

  function ListToCommaString(value: Value): string {
    match value
    case Items(items) => Join(items, ", ")
    case Text(text) => text
    case Other => ""
  }

  predicate CommaFree(s: string) { ',' !in s }

  /** An item that a comma list can carry. */
  predicate Clean(item: string) {
    item != "" && Trimmed(item) && CommaFree(item)
  }

  ghost predicate AllClean(items: seq<string>) {
    forall x :: x in items ==> Clean(x)
  }

  // ----- splitting -----

  /** Splitting loses nothing but the commas. */
  lemma {:induction false} SplitRejoins(s: string)
    ensures Join(Split(s), ",") == s
  {
    if s != "" {
      SplitRejoins(s[1..]);
      var rest := Split(s[1..]);
      assert s == [s[0]] + s[1..];
      if s[0] == ',' {
        assert ([""] + rest)[1..] == rest;
        assert Join([""] + rest, ",") == "," + s[1..];
      } else {
        var first := [s[0]] + rest[0];
        assert rest == [rest[0]] + rest[1..];
        assert ([first] + rest[1..])[1..] == rest[1..];
        assert Join([first] + rest[1..], ",") == [s[0]] + Join(rest, ",");
      }
    }
  }

  /** Splitting cuts at every comma. */
  lemma {:induction false} SplitPieces(s: string)
    ensures forall p :: p in Split(s) ==> CommaFree(p)
  {
    if s != "" {
      SplitPieces(s[1..]);
      var rest := Split(s[1..]);
      assert rest[0] in rest;
    }
  }

  lemma {:induction false} SplitCommaFree(s: string)
    requires CommaFree(s)
    ensures Split(s) == [s]
  {
    if s != "" {
      SplitCommaFree(s[1..]);
      assert s == [s[0]] + s[1..];
    }
  }

  lemma {:induction false} SplitAppend(s: string, t: string)
    ensures Split(s + "," + t) == Split(s) + Split(t)
  {
    var whole := s + "," + t;
    if s == "" {
      assert whole[1..] == t;
    } else {
      assert whole[1..] == s[1..] + "," + t;
      SplitAppend(s[1..], t);
    }
  }

  lemma {:induction false} SplitOfJoin(pieces: seq<string>)
    requires pieces != [] && forall p :: p in pieces ==> CommaFree(p)
    ensures Split(Join(pieces, ",")) == pieces
  {
    SplitCommaFree(pieces[0]);
    if |pieces| > 1 {
      SplitAppend(pieces[0], Join(pieces[1..], ","));
      SplitOfJoin(pieces[1..]);
    }
  }

  /** `Split` is the one way to cut a text at its commas. */
  lemma SplitIsTheOnlyCut(s: string, pieces: seq<string>)
    ensures pieces == Split(s) <==> pieces != [] && (forall p :: p in pieces ==> CommaFree(p)) && Join(pieces, ",") == s
  {
    SplitRejoins(s);
    SplitPieces(s);
    if pieces != [] && forall p :: p in pieces ==> CommaFree(p) { SplitOfJoin(pieces); }
  }

  // ----- parsing -----

  lemma CleanUpAppend(ps: seq<string>, qs: seq<string>)
    ensures CleanUp(ps + qs) == CleanUp(ps) + CleanUp(qs)
  {
    assert MapSeq(Trim, ps + qs) == MapSeq(Trim, ps) + MapSeq(Trim, qs);
    SelectAppend(MapSeq(Trim, ps), MapSeq(Trim, qs), NonEmpty);
  }

  /** A space in front of a text does not change its items. */
  lemma SpaceIsIgnored(t: string)
    ensures ParseCommaList(" " + t) == ParseCommaList(t)
  {
    var ps := Split(t);
    assert (" " + t)[1..] == t;
    TrimSkips(' ', ps[0]);
    assert MapSeq(Trim, [" " + ps[0]] + ps[1..]) == MapSeq(Trim, ps);
  }

  /** The items of two texts joined by the printer's separator are the items of the one, then of the other. */
  lemma ParseAppend(s: string, t: string)
    ensures ParseCommaList(s + ", " + t) == ParseCommaList(s) + ParseCommaList(t)
  {
    assert s + ", " + t == s + "," + (" " + t);
    SplitAppend(s, " " + t);
    CleanUpAppend(Split(s), Split(" " + t));
    SpaceIsIgnored(t);
  }

  lemma PieceStaysCommaFree(s: string)
    requires CommaFree(s)
    ensures CommaFree(Trim(s))
  {
    var pre, post := TrimFacts(s);
  }

  /** Whatever the text, the parser returns items that a comma list can carry. */
  lemma ParseIsClean(s: string)
    ensures AllClean(ParseCommaList(s))
  {
    var trimmed := MapSeq(Trim, Split(s));
    SplitPieces(s);
    SelectMembers(trimmed, NonEmpty);
    forall x | x in ParseCommaList(s) ensures Clean(x) {
      var i :| 0 <= i < |trimmed| && trimmed[i] == x;
      PieceStaysCommaFree(Split(s)[i]);
      var pre, post := TrimFacts(Split(s)[i]);
    }
  }

  lemma ParseOne(item: string)
    requires Clean(item)
    ensures ParseCommaList(item) == [item]
  {
    SplitCommaFree(item);
    TrimOfTrimmed(item);
    assert MapSeq(Trim, [item]) == [item];
    SelectStep([], item, NonEmpty);
  }

  // ----- what the parser does, in two laws -----

  /** A text without a comma is one item, its trim, or none if that is empty. */
  lemma ParseOfOnePiece(s: string)
    requires CommaFree(s)
    ensures ParseCommaList(s) == if Trim(s) == "" then [] else [Trim(s)]
  {
    SplitCommaFree(s);
    assert MapSeq(Trim, [s]) == [Trim(s)];
    SelectStep([], Trim(s), NonEmpty);
    assert [] + [Trim(s)] == [Trim(s)];
  }

  /** A comma separates: in front of it are the items of the one text, behind it those of the other. */
  lemma ParseAtComma(s: string, t: string)
    ensures ParseCommaList(s + "," + t) == ParseCommaList(s) + ParseCommaList(t)
  {
    SplitAppend(s, t);
    CleanUpAppend(Split(s), Split(t));
  }

  function ParseEach(items: seq<string>): seq<string> {
    if items == [] then [] else ParseCommaList(items[0]) + ParseEach(items[1..])
  }

  /** Printing a list and parsing it back parses each item on its own: items cannot run into each other. */
  lemma {:induction false} ParseOfPrint(items: seq<string>)
    ensures ParseCommaList(ListToCommaString(Items(items))) == ParseEach(items)
  {
    if items == [] {
      assert MapSeq(Trim, [""]) == [""];
      SelectStep([], "", NonEmpty);
    } else if |items| == 1 {
      assert ParseEach(items[1..]) == [];
    } else {
      ParseAppend(items[0], Join(items[1..], ", "));
      ParseOfPrint(items[1..]);
    }
  }

  lemma {:induction false} ParseEachOfClean(items: seq<string>)
    requires AllClean(items)
    ensures ParseEach(items) == items
  {
    if items != [] {
      ParseOne(items[0]);
      ParseEachOfClean(items[1..]);
      assert items == [items[0]] + items[1..];
    }
  }

  /** A printed list parses back to itself if and only if its items are trimmed, non-empty and comma-free. */
  lemma PrintThenParse(items: seq<string>)
    ensures ParseCommaList(ListToCommaString(Items(items))) == items <==> AllClean(items)
  {
    ParseIsClean(ListToCommaString(Items(items)));
    if AllClean(items) {
      ParseOfPrint(items);
      ParseEachOfClean(items);
    }
  }

  /** Saving a text as a list, printing it and saving it again changes nothing. */
  lemma ParsePrintParse(s: string)
    ensures ParseCommaList(ListToCommaString(Items(ParseCommaList(s)))) == ParseCommaList(s)
  {
    ParseIsClean(s);
    PrintThenParse(ParseCommaList(s));
  }

  /** Two lists that a comma list can carry print alike only if they are the same list. */
  lemma PrintIsInjective(xs: seq<string>, ys: seq<string>)
    requires AllClean(xs) && AllClean(ys)
    requires ListToCommaString(Items(xs)) == ListToCommaString(Items(ys))
    ensures xs == ys
  {
    PrintThenParse(xs);
    PrintThenParse(ys);
  }

  /** An item with a comma in it comes back as two items. */
  lemma CommaCutsAnItem(x: string, y: string)
    requires Clean(x) && Clean(y)
    ensures ParseCommaList(ListToCommaString(Items([x + ", " + y]))) == [x, y]
  {
    ParseAppend(x, y);
    ParseOne(x);
    ParseOne(y);
  }
}
