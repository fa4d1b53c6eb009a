/** The book list: the 66 books of the Protestant canon in canonical
    order, and a copy of it sorted by name. */
module BibleBooks {
  import opened BibleTypes

  /** The canonical list, written in rows of eleven books. */
  const BookRow0: seq<BibleBook> := [
    BibleBook("Genesis", OT), BibleBook("Exodus", OT), BibleBook("Leviticus", OT),
    BibleBook("Numbers", OT), BibleBook("Deuteronomy", OT), BibleBook("Joshua", OT),
    BibleBook("Judges", OT), BibleBook("Ruth", OT), BibleBook("1 Samuel", OT),
    BibleBook("2 Samuel", OT), BibleBook("1 Kings", OT)
  ]

  const BookRow1: seq<BibleBook> := [
    BibleBook("2 Kings", OT), BibleBook("1 Chronicles", OT), BibleBook("2 Chronicles", OT),
    BibleBook("Ezra", OT), BibleBook("Nehemiah", OT), BibleBook("Esther", OT),
    BibleBook("Job", OT), BibleBook("Psalms", OT), BibleBook("Proverbs", OT),
    BibleBook("Ecclesiastes", OT), BibleBook("Song of Solomon", OT)
  ]

  const BookRow2: seq<BibleBook> := [
    BibleBook("Isaiah", OT), BibleBook("Jeremiah", OT), BibleBook("Lamentations", OT),
    BibleBook("Ezekiel", OT), BibleBook("Daniel", OT), BibleBook("Hosea", OT),
    BibleBook("Joel", OT), BibleBook("Amos", OT), BibleBook("Obadiah", OT),
    BibleBook("Jonah", OT), BibleBook("Micah", OT)
  ]

  const BookRow3: seq<BibleBook> := [
    BibleBook("Nahum", OT), BibleBook("Habakkuk", OT), BibleBook("Zephaniah", OT),
    BibleBook("Haggai", OT), BibleBook("Zechariah", OT), BibleBook("Malachi", OT),
    BibleBook("Matthew", NT), BibleBook("Mark", NT), BibleBook("Luke", NT),
    BibleBook("John", NT), BibleBook("Acts", NT)
  ]

  const BookRow4: seq<BibleBook> := [
    BibleBook("Romans", NT), BibleBook("1 Corinthians", NT), BibleBook("2 Corinthians", NT),
    BibleBook("Galatians", NT), BibleBook("Ephesians", NT), BibleBook("Philippians", NT),
    BibleBook("Colossians", NT), BibleBook("1 Thessalonians", NT), BibleBook("2 Thessalonians", NT),
    BibleBook("1 Timothy", NT), BibleBook("2 Timothy", NT)
  ]

  const BookRow5: seq<BibleBook> := [
    BibleBook("Titus", NT), BibleBook("Philemon", NT), BibleBook("Hebrews", NT),
    BibleBook("James", NT), BibleBook("1 Peter", NT), BibleBook("2 Peter", NT),
    BibleBook("1 John", NT), BibleBook("2 John", NT), BibleBook("3 John", NT),
    BibleBook("Jude", NT), BibleBook("Revelation", NT)
  ]

  const ChronologicalBooks: seq<BibleBook> :=
    BookRow0 + BookRow1 + BookRow2 + BookRow3 + BookRow4 + BookRow5

  /** No two books of the list share a name. */
  predicate DistinctNames(books: seq<BibleBook>) {
    forall i, j :: 0 <= i < j < |books| ==> books[i].name != books[j].name
  }

  /** No name of `a` is a name of `b`. */
  predicate NamesApart(a: seq<BibleBook>, b: seq<BibleBook>) {
    forall i, j :: 0 <= i < |a| && 0 <= j < |b| ==> a[i].name != b[j].name
  }

  lemma DistinctConcat(a: seq<BibleBook>, b: seq<BibleBook>)
    requires DistinctNames(a) && DistinctNames(b) && NamesApart(a, b)
    ensures DistinctNames(a + b)
  {
    var ab := a + b;
    forall i, j | 0 <= i < j < |ab|
      ensures ab[i].name != ab[j].name
    {
      if j < |a| {
        assert ab[i] == a[i] && ab[j] == a[j];
      } else if i < |a| {
        assert ab[i] == a[i] && ab[j] == b[j - |a|];
      } else {
        assert ab[i] == b[i - |a|] && ab[j] == b[j - |a|];
      }
    }
  }

  lemma NamesApartConcat(a: seq<BibleBook>, b: seq<BibleBook>, c: seq<BibleBook>)
    requires NamesApart(a, c) && NamesApart(b, c)
    ensures NamesApart(a + b, c)
  {
    forall i, j | 0 <= i < |a + b| && 0 <= j < |c|
      ensures (a + b)[i].name != c[j].name
    {
      if i < |a| {
        assert (a + b)[i] == a[i];
      } else {
        assert (a + b)[i] == b[i - |a|];
      }
    }
  }

  lemma Row0Distinct()
    ensures DistinctNames(BookRow0)
  {
    assert forall i, j :: 0 <= i < j < |BookRow0| ==> BookRow0[i].name != BookRow0[j].name;
  }

  lemma Row1Distinct()
    ensures DistinctNames(BookRow1)
  {
    assert forall i, j :: 0 <= i < j < |BookRow1| ==> BookRow1[i].name != BookRow1[j].name;
  }

  lemma Row2Distinct()
    ensures DistinctNames(BookRow2)
  {
    assert forall i, j :: 0 <= i < j < |BookRow2| ==> BookRow2[i].name != BookRow2[j].name;
  }

  lemma Row3Distinct()
    ensures DistinctNames(BookRow3)
  {
    assert forall i, j :: 0 <= i < j < |BookRow3| ==> BookRow3[i].name != BookRow3[j].name;
  }

  lemma Row4Distinct()
    ensures DistinctNames(BookRow4)
  {
    assert forall i, j :: 0 <= i < j < |BookRow4| ==> BookRow4[i].name != BookRow4[j].name;
  }

  lemma Row5Distinct()
    ensures DistinctNames(BookRow5)
  {
    assert forall i, j :: 0 <= i < j < |BookRow5| ==> BookRow5[i].name != BookRow5[j].name;
  }

  lemma Rows01Apart()
    ensures NamesApart(BookRow0, BookRow1)
  {
  }

  lemma Rows02Apart()
    ensures NamesApart(BookRow0, BookRow2)
  {
  }

  lemma Rows03Apart()
    ensures NamesApart(BookRow0, BookRow3)
  {
  }

  lemma Rows04Apart()
    ensures NamesApart(BookRow0, BookRow4)
  {
  }

  lemma Rows05Apart()
    ensures NamesApart(BookRow0, BookRow5)
  {
  }

  lemma Rows12Apart()
    ensures NamesApart(BookRow1, BookRow2)
  {
  }

  lemma Rows13Apart()
    ensures NamesApart(BookRow1, BookRow3)
  {
  }

  lemma Rows14Apart()
    ensures NamesApart(BookRow1, BookRow4)
  {
  }

  lemma Rows15Apart()
    ensures NamesApart(BookRow1, BookRow5)
  {
  }

  lemma Rows23Apart()
    ensures NamesApart(BookRow2, BookRow3)
  {
  }

  lemma Rows24Apart()
    ensures NamesApart(BookRow2, BookRow4)
  {
  }

  lemma Rows25Apart()
    ensures NamesApart(BookRow2, BookRow5)
  {
  }

  lemma Rows34Apart()
    ensures NamesApart(BookRow3, BookRow4)
  {
  }

  lemma Rows35Apart()
    ensures NamesApart(BookRow3, BookRow5)
  {
  }

  lemma Rows45Apart()
    ensures NamesApart(BookRow4, BookRow5)
  {
  }

  /** The canonical list names 66 different books. */
  lemma ChronologicalNamesDistinct()
    ensures |ChronologicalBooks| == 66
    ensures DistinctNames(ChronologicalBooks)
  {
    Row0Distinct();
    Row1Distinct();
    Row2Distinct();
    Row3Distinct();
    Row4Distinct();
    Row5Distinct();
    Rows01Apart();
    Rows02Apart();
    Rows03Apart();
    Rows04Apart();
    Rows05Apart();
    Rows12Apart();
    Rows13Apart();
    Rows14Apart();
    Rows15Apart();
    Rows23Apart();
    Rows24Apart();
    Rows25Apart();
    Rows34Apart();
    Rows35Apart();
    Rows45Apart();
    var p1 := BookRow0 + BookRow1;
    DistinctConcat(BookRow0, BookRow1);
    var p2 := p1 + BookRow2;
    NamesApartConcat(BookRow0, BookRow1, BookRow2);
    DistinctConcat(p1, BookRow2);
    var p3 := p2 + BookRow3;
    NamesApartConcat(BookRow0, BookRow1, BookRow3);
    NamesApartConcat(p1, BookRow2, BookRow3);
    DistinctConcat(p2, BookRow3);
    var p4 := p3 + BookRow4;
    NamesApartConcat(BookRow0, BookRow1, BookRow4);
    NamesApartConcat(p1, BookRow2, BookRow4);
    NamesApartConcat(p2, BookRow3, BookRow4);
    DistinctConcat(p3, BookRow4);
    NamesApartConcat(BookRow0, BookRow1, BookRow5);
    NamesApartConcat(p1, BookRow2, BookRow5);
    NamesApartConcat(p2, BookRow3, BookRow5);
    NamesApartConcat(p3, BookRow4, BookRow5);
    DistinctConcat(p4, BookRow5);
  }

  /** Genesis to Malachi, the first 39 books, form the Old Testament; the
      remaining 27, Matthew to Revelation, the New. */
  lemma TestamentSplit()
    ensures |ChronologicalBooks| == 66
    ensures forall i :: 0 <= i < 39 ==> ChronologicalBooks[i].testament == OT
    ensures forall i :: 39 <= i < 66 ==> ChronologicalBooks[i].testament == NT
    ensures ChronologicalBooks[0].name == "Genesis" && ChronologicalBooks[38].name == "Malachi"
    ensures ChronologicalBooks[39].name == "Matthew" && ChronologicalBooks[65].name == "Revelation"
  {
    var b := ChronologicalBooks;
    assert forall i :: 0 <= i < 33 ==> b[i].testament == OT;
    assert forall i :: 33 <= i < 39 ==> b[i] == BookRow3[i - 33];
    assert forall i :: 39 <= i < 44 ==> b[i] == BookRow3[i - 33];
    assert forall i :: 44 <= i < 66 ==> b[i].testament == NT;
  }

  /** A total preorder on names: the model's stand-in for the
      locale-dependent `localeCompare`, read as "sorts no later than". */
  ghost predicate IsTotalPreorder(le: (string, string) -> bool) {
    (forall a, b :: le(a, b) || le(b, a))
    && (forall a, b, c :: le(a, b) && le(b, c) ==> le(a, c))
  }

  predicate SortedByName(le: (string, string) -> bool, books: seq<BibleBook>) {
    forall i, j :: 0 <= i < j < |books| ==> le(books[i].name, books[j].name)
  }

  lemma InsertAtFront(le: (string, string) -> bool, b: BibleBook, sorted: seq<BibleBook>)
    requires IsTotalPreorder(le) && SortedByName(le, sorted)
    requires sorted != [] && !le(sorted[0].name, b.name)
    ensures SortedByName(le, [b] + sorted)
  {
    var r := [b] + sorted;
    assert le(b.name, sorted[0].name);
    forall i, j | 0 <= i < j < |r|
      ensures le(r[i].name, r[j].name)
    {
      if i == 0 && j > 1 {
        assert le(sorted[0].name, sorted[j - 1].name);
      }
    }
  }

  lemma InsertBehind(le: (string, string) -> bool, first: BibleBook, rest: seq<BibleBook>,
                     b: BibleBook, tail: seq<BibleBook>)
    requires IsTotalPreorder(le) && SortedByName(le, rest) && SortedByName(le, [first] + tail)
    requires le(first.name, b.name) && multiset(rest) == multiset(tail) + multiset{b}
    ensures SortedByName(le, [first] + rest)
  {
    var r := [first] + rest;
    forall i, j | 0 <= i < j < |r|
      ensures le(r[i].name, r[j].name)
    {
      if i == 0 {
        var x := rest[j - 1];
        assert x in multiset(rest);
        if x != b {
          assert x in multiset(tail);
          var k :| 0 <= k < |tail| && tail[k] == x;
          assert ([first] + tail)[0] == first && ([first] + tail)[k + 1] == x;
        }
      } else {
        assert r[i] == rest[i - 1] && r[j] == rest[j - 1];
      }
    }
  }

  /** Places `b` after every book that sorts no later than it, so that
      books comparing equal keep their order. */
  function InsertByName(le: (string, string) -> bool, b: BibleBook, sorted: seq<BibleBook>): (r: seq<BibleBook>)
    requires IsTotalPreorder(le) && SortedByName(le, sorted)
    ensures multiset(r) == multiset(sorted) + multiset{b}
    ensures SortedByName(le, r)
  {
    if sorted == [] then [b]
    else if !le(sorted[0].name, b.name) then
      InsertAtFront(le, b, sorted);
      [b] + sorted
    else
      var rest := InsertByName(le, b, sorted[1..]);
      assert sorted == [sorted[0]] + sorted[1..];
      InsertBehind(le, sorted[0], rest, b, sorted[1..]);
      [sorted[0]] + rest
  }

  /** A stable sort by name, as `Array.prototype.sort` performs it. */
  function SortByName(le: (string, string) -> bool, books: seq<BibleBook>): (r: seq<BibleBook>)
    requires IsTotalPreorder(le)
    ensures multiset(r) == multiset(books)
    ensures SortedByName(le, r)
  {
    if books == [] then []
    else
      assert books == books[..|books| - 1] + [books[|books| - 1]];
      InsertByName(le, books[|books| - 1], SortByName(le, books[..|books| - 1]))
  }

  /** The alphabetical list: a sorted copy of the canonical one, which
      itself is left in canonical order. */
  function AlphabeticalBooks(le: (string, string) -> bool): (r: seq<BibleBook>)
    requires IsTotalPreorder(le)
    ensures multiset(r) == multiset(ChronologicalBooks)
    ensures SortedByName(le, r)
  {
    SortByName(le, ChronologicalBooks)
  }

  /** The alphabetical list holds the same 66 books as the canonical one. */
  lemma AlphabeticalIsPermutation(le: (string, string) -> bool)
    requires IsTotalPreorder(le)
    ensures |AlphabeticalBooks(le)| == 66
    ensures forall b :: b in ChronologicalBooks <==> b in AlphabeticalBooks(le)
  {
    var r := AlphabeticalBooks(le);
    assert |r| == |multiset(r)| == |multiset(ChronologicalBooks)| == 66;
    forall b
      ensures b in ChronologicalBooks <==> b in r
    {
      assert b in ChronologicalBooks <==> b in multiset(ChronologicalBooks);
      assert b in r <==> b in multiset(r);
    }
  }
}
