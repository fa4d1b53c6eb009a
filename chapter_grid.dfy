/** The chapter picker of the Bible explorer: a table of chapter counts
    keyed by book name, and the buttons offered for a book. */
module ChapterGrid {
  import opened Wrappers
  import opened JsText
  import opened BibleTypes
  import opened BibleBooks

  /** The chapter-count table, in rows of eleven entries. */
  const CountRow0: seq<(string, nat)> := [
    ("Genesis", 50), ("Exodus", 40), ("Leviticus", 27), ("Numbers", 36),
    ("Deuteronomy", 34), ("Joshua", 24), ("Judges", 21), ("Ruth", 4),
    ("1 Samuel", 31), ("2 Samuel", 24), ("1 Kings", 22)
  ]

  const CountRow1: seq<(string, nat)> := [
    ("2 Kings", 25), ("1 Chronicles", 29), ("2 Chronicles", 36), ("Ezra", 10),
    ("Nehemiah", 13), ("Esther", 10), ("Job", 42), ("Psalms", 150),
    ("Proverbs", 31), ("Ecclesiastes", 12), ("Song of Solomon", 8)
  ]

  const CountRow2: seq<(string, nat)> := [
    ("Isaiah", 66), ("Jeremiah", 52), ("Lamentations", 5), ("Ezekiel", 48),
    ("Daniel", 12), ("Hosea", 14), ("Joel", 3), ("Amos", 9),
    ("Obadiah", 1), ("Jonah", 4), ("Micah", 7)
  ]

  const CountRow3: seq<(string, nat)> := [
    ("Nahum", 3), ("Habakkuk", 3), ("Zephaniah", 3), ("Haggai", 2),
    ("Zechariah", 14), ("Malachi", 4), ("Matthew", 28), ("Mark", 16),
    ("Luke", 24), ("John", 21), ("Acts", 28)
  ]

  const CountRow4: seq<(string, nat)> := [
    ("Romans", 16), ("1 Corinthians", 16), ("2 Corinthians", 13), ("Galatians", 6),
    ("Ephesians", 6), ("Philippians", 4), ("Colossians", 4), ("1 Thessalonians", 5),
    ("2 Thessalonians", 3), ("1 Timothy", 6), ("2 Timothy", 4)
  ]

  const CountRow5: seq<(string, nat)> := [
    ("Titus", 3), ("Philemon", 1), ("Hebrews", 13), ("James", 5),
    ("1 Peter", 5), ("2 Peter", 3), ("1 John", 5), ("2 John", 1),
    ("3 John", 1), ("Jude", 1), ("Revelation", 22)
  ]

  const ChapterCountTable: seq<(string, nat)> :=
    CountRow0 + CountRow1 + CountRow2 + CountRow3 + CountRow4 + CountRow5

  /** `chapterCounts[bookName] || 0`. */
  function ChapterCount(bookName: string): nat {
    Property(ChapterCountTable, bookName).GetOr(0)
  }

  /** The chapter numbers the grid shows for a book, in order. */
  function ChapterButtons(bookName: string): (r: seq<int>)
    ensures |r| == ChapterCount(bookName)
    ensures forall i, j :: 0 <= i < j < |r| ==> r[i] < r[j]
  {
    seq(ChapterCount(bookName), i => i + 1)
  }

  /** The grid offers exactly the chapters 1 to the book's count, and none
      at all for a name the table does not know. */
  lemma ChapterButtonsRange(bookName: string, c: int)
    ensures c in ChapterButtons(bookName) <==> 1 <= c <= ChapterCount(bookName)
    ensures (forall i :: 0 <= i < |ChapterCountTable| ==> ChapterCountTable[i].0 != bookName)
            ==> ChapterButtons(bookName) == []
  {
    var r := ChapterButtons(bookName);
    if 1 <= c <= ChapterCount(bookName) {
      assert r[c - 1] == c;
    }
  }

  /** Entry `i` of the table is keyed by book `i`'s name and holds a positive count. */
  predicate Aligned(table: seq<(string, nat)>, books: seq<BibleBook>) {
    |table| == |books| && forall i :: 0 <= i < |table| ==> table[i].0 == books[i].name && table[i].1 > 0
  }

  lemma AlignedConcat(t1: seq<(string, nat)>, b1: seq<BibleBook>, t2: seq<(string, nat)>, b2: seq<BibleBook>)
    requires Aligned(t1, b1) && Aligned(t2, b2)
    ensures Aligned(t1 + t2, b1 + b2)
  {
    var t, b := t1 + t2, b1 + b2;
    forall i | 0 <= i < |t|
      ensures t[i].0 == b[i].name && t[i].1 > 0
    {
      if i < |t1| {
        assert t[i] == t1[i] && b[i] == b1[i];
      } else {
        assert t[i] == t2[i - |t1|] && b[i] == b2[i - |t1|];
      }
    }
  }

  lemma Row0Aligned()
    ensures Aligned(CountRow0, BookRow0)
  {
    assert forall i :: 0 <= i < 11 ==> CountRow0[i].0 == BookRow0[i].name && CountRow0[i].1 > 0;
  }

  lemma Row1Aligned()
    ensures Aligned(CountRow1, BookRow1)
  {
    assert forall i :: 0 <= i < 11 ==> CountRow1[i].0 == BookRow1[i].name && CountRow1[i].1 > 0;
  }

  lemma Row2Aligned()
    ensures Aligned(CountRow2, BookRow2)
  {
    assert forall i :: 0 <= i < 11 ==> CountRow2[i].0 == BookRow2[i].name && CountRow2[i].1 > 0;
  }

  lemma Row3Aligned()
    ensures Aligned(CountRow3, BookRow3)
  {
    assert forall i :: 0 <= i < 11 ==> CountRow3[i].0 == BookRow3[i].name && CountRow3[i].1 > 0;
  }

  lemma Row4Aligned()
    ensures Aligned(CountRow4, BookRow4)
  {
    assert forall i :: 0 <= i < 11 ==> CountRow4[i].0 == BookRow4[i].name && CountRow4[i].1 > 0;
  }

  lemma Row5Aligned()
    ensures Aligned(CountRow5, BookRow5)
  {
    assert forall i :: 0 <= i < 11 ==> CountRow5[i].0 == BookRow5[i].name && CountRow5[i].1 > 0;
  }

  /** The table is keyed by the canonical book names, in canonical order,
      and every count in it is positive. */
  lemma TableFollowsBookList()
    ensures Aligned(ChapterCountTable, ChronologicalBooks) && |ChapterCountTable| == 66
  {
    Row0Aligned();
    Row1Aligned();
    Row2Aligned();
    Row3Aligned();
    Row4Aligned();
    Row5Aligned();
    AlignedConcat(CountRow0, BookRow0, CountRow1, BookRow1);
    AlignedConcat(CountRow0 + CountRow1, BookRow0 + BookRow1, CountRow2, BookRow2);
    AlignedConcat(CountRow0 + CountRow1 + CountRow2, BookRow0 + BookRow1 + BookRow2, CountRow3, BookRow3);
    AlignedConcat(CountRow0 + CountRow1 + CountRow2 + CountRow3, BookRow0 + BookRow1 + BookRow2 + BookRow3,
                  CountRow4, BookRow4);
    AlignedConcat(CountRow0 + CountRow1 + CountRow2 + CountRow3 + CountRow4,
                  BookRow0 + BookRow1 + BookRow2 + BookRow3 + BookRow4, CountRow5, BookRow5);
  }

  /** Every book of the canonical list has a positive count, so its grid
      is never empty; the table has exactly 66 entries, one per book. */
  lemma EveryBookHasChapters(i: nat)
    requires i < |ChronologicalBooks|
    ensures |ChapterCountTable| == 66
    ensures ChapterCount(ChronologicalBooks[i].name) == ChapterCountTable[i].1 > 0
  {
    TableFollowsBookList();
    ChronologicalNamesDistinct();
    PropertyOfDistinctKey(ChapterCountTable, i);
  }
}
