/** The book-alias table of the offline Bible service (`BOOK_MAPPINGS`),
    the reverse index built from it (`ABBREV_TO_BOOK`), and the facts about
    the table as written that book lookup relies on. */
module BookAliases {
  import opened Wrappers
  import opened JsText

  /** A canonical book key and the aliases it is known by. */
  type BookMapping = (string, seq<string>)

  /** The alias table, in source order, written in rows of eleven books. */
  const MappingRow0: seq<(string, seq<string>)> := [
    ("genesis", ["gn", "gen", "genesis"]),
    ("exodus", ["ex", "exo", "exodus"]),
    ("leviticus", ["lv", "lev", "leviticus"]),
    ("numbers", ["nu", "num", "numbers"]),
    ("deuteronomy", ["dt", "deu", "deuteronomy"]),
    ("joshua", ["jos", "josh", "joshua"]),
    ("judges", ["jdg", "judg", "judges"]),
    ("ruth", ["ru", "ruth"]),
    ("1samuel", ["1sa", "1sam", "1samuel"]),
    ("2samuel", ["2sa", "2sam", "2samuel"]),
    ("1kings", ["1ki", "1kgs", "1kings"])
  ]

  const MappingRow1: seq<(string, seq<string>)> := [
    ("2kings", ["2ki", "2kgs", "2kings"]),
    ("1chronicles", ["1ch", "1chr", "1chronicles"]),
    ("2chronicles", ["2ch", "2chr", "2chronicles"]),
    ("ezra", ["ezr", "ezra"]),
    ("nehemiah", ["ne", "neh", "nehemiah"]),
    ("esther", ["es", "est", "esther"]),
    ("job", ["job"]),
    ("psalms", ["ps", "psa", "psalms"]),
    ("proverbs", ["pr", "pro", "proverbs"]),
    ("ecclesiastes", ["ec", "ecc", "ecclesiastes"]),
    ("songofsolomon", ["ss", "song", "songofsolomon"])
  ]

  const MappingRow2: seq<(string, seq<string>)> := [
    ("isaiah", ["is", "isa", "isaiah"]),
    ("jeremiah", ["je", "jer", "jeremiah"]),
    ("lamentations", ["la", "lam", "lamentations"]),
    ("ezekiel", ["eze", "ezek", "ezekiel"]),
    ("daniel", ["da", "dan", "daniel"]),
    ("hosea", ["ho", "hos", "hosea"]),
    ("joel", ["joe", "joel"]),
    ("amos", ["am", "amos"]),
    ("obadiah", ["ob", "oba", "obadiah"]),
    ("jonah", ["jon", "jonah"]),
    ("micah", ["mic", "micah"])
  ]

  const MappingRow3: seq<(string, seq<string>)> := [
    ("nahum", ["na", "nah", "nahum"]),
    ("habakkuk", ["hab", "habakkuk"]),
    ("zephaniah", ["zep", "zephaniah"]),
    ("haggai", ["hag", "haggai"]),
    ("zechariah", ["zec", "zech", "zechariah"]),
    ("malachi", ["mal", "malachi"]),
    ("matthew", ["mt", "mat", "matthew"]),
    ("mark", ["mr", "mrk", "mark"]),
    ("luke", ["lu", "luk", "luke"]),
    ("john", ["jn", "joh", "john"]),
    ("acts", ["ac", "act", "acts"])
  ]

  const MappingRow4: seq<(string, seq<string>)> := [
    ("romans", ["ro", "rom", "romans"]),
    ("1corinthians", ["1co", "1cor", "1corinthians"]),
    ("2corinthians", ["2co", "2cor", "2corinthians"]),
    ("galatians", ["ga", "gal", "galatians"]),
    ("ephesians", ["ep", "eph", "ephesians"]),
    ("philippians", ["ph", "php", "philippians"]),
    ("colossians", ["col", "colossians"]),
    ("1thessalonians", ["1th", "1thes", "1thessalonians"]),
    ("2thessalonians", ["2th", "2thes", "2thessalonians"]),
    ("1timothy", ["1ti", "1tim", "1timothy"]),
    ("2timothy", ["2ti", "2tim", "2timothy"])
  ]

  const MappingRow5: seq<(string, seq<string>)> := [
    ("titus", ["tit", "titus"]),
    ("philemon", ["phm", "phlm", "philemon"]),
    ("hebrews", ["he", "heb", "hebrews"]),
    ("james", ["jas", "james"]),
    ("1peter", ["1pe", "1pet", "1peter"]),
    ("2peter", ["2pe", "2pet", "2peter"]),
    ("1john", ["1jn", "1john"]),
    ("2john", ["2jn", "2john"]),
    ("3john", ["3jn", "3john"]),
    ("jude", ["jud", "jude"]),
    ("revelation", ["re", "rev", "revelation"])
  ]

  const BookMappings: seq<BookMapping> :=
    MappingRow0 + MappingRow1 + MappingRow2 + MappingRow3 + MappingRow4 + MappingRow5

  /** Records every alias of `book`, lower-cased, as pointing to `book`,
      one alias after the other. */
  function AddAliases(index: map<string, string>, book: string, aliases: seq<string>): map<string, string>
    decreases |aliases|
  {
    if aliases == [] then index else AddAliases(index[ToLower(aliases[0]) := book], book, aliases[1..])
  }

  /** The reverse index, filled book by book in table order. */
  function ReverseIndex(mappings: seq<BookMapping>): map<string, string> {
    if mappings == [] then map[]
    else
      var last := mappings[|mappings| - 1];
      AddAliases(ReverseIndex(mappings[..|mappings| - 1]), last.0, last.1)
  }

  /** `ABBREV_TO_BOOK`. */
  const AbbrevToBook: map<string, string> := ReverseIndex(BookMappings)

  /** The index filled by two nested loops, as the module initialises it. */
  method BuildAbbrevIndex(mappings: seq<BookMapping>) returns (index: map<string, string>)
    ensures index == ReverseIndex(mappings)
  {
    index := map[];
    var b := 0;
    while b < |mappings|
      invariant 0 <= b <= |mappings|
      invariant index == ReverseIndex(mappings[..b])
    {
      var book, aliases := mappings[b].0, mappings[b].1;
      assert mappings[..b + 1][..b] == mappings[..b];
      var a := 0;
      while a < |aliases|
        invariant 0 <= a <= |aliases|
        invariant AddAliases(index, book, aliases[a..]) == ReverseIndex(mappings[..b + 1])
      {
        assert aliases[a..][1..] == aliases[a + 1..];
        index := index[ToLower(aliases[a]) := book];
        a := a + 1;
      }
      b := b + 1;
    }
    assert mappings[..b] == mappings;
  }

  /** The lower-cased aliases of one book. */
  function Lowered(aliases: seq<string>): set<string> {
    set p | 0 <= p < |aliases| :: ToLower(aliases[p])
  }

  lemma {:induction false} AddAliasesEffect(index: map<string, string>, book: string, aliases: seq<string>)
    ensures AddAliases(index, book, aliases).Keys == index.Keys + Lowered(aliases)
    ensures forall x :: x in Lowered(aliases) ==> AddAliases(index, book, aliases)[x] == book
    ensures forall x :: x in index && x !in Lowered(aliases) ==> AddAliases(index, book, aliases)[x] == index[x]
    decreases |aliases|
  {
    if aliases != [] {
      var next := index[ToLower(aliases[0]) := book];
      AddAliasesEffect(next, book, aliases[1..]);
      assert Lowered(aliases) == {ToLower(aliases[0])} + Lowered(aliases[1..]) by {
        forall x | x in Lowered(aliases)
          ensures x in {ToLower(aliases[0])} + Lowered(aliases[1..])
        {
          var p :| 0 <= p < |aliases| && ToLower(aliases[p]) == x;
          if p > 0 {
            assert aliases[1..][p - 1] == aliases[p];
          }
        }
        forall x | x in Lowered(aliases[1..])
          ensures x in Lowered(aliases)
        {
          var p :| 0 <= p < |aliases[1..]| && ToLower(aliases[1..][p]) == x;
          assert aliases[p + 1] == aliases[1..][p];
        }
      }
    } else {
      assert Lowered(aliases) == {};
    }
  }

  /** No alias is listed twice, whether under one key or under two. */
  predicate UniqueAliases(m: seq<BookMapping>) {
    forall i, j, p, q ::
      0 <= i < |m| && 0 <= j < |m| && 0 <= p < |m[i].1| && 0 <= q < |m[j].1| && m[i].1[p] == m[j].1[q]
      ==> i == j && p == q
  }

  /** Aliases are written with lower-case ASCII letters and digits only. */
  predicate IsAliasChar(c: char) { 'a' <= c <= 'z' || '0' <= c <= '9' }

  predicate CleanAliases(m: seq<BookMapping>) {
    forall i, p, k :: 0 <= i < |m| && 0 <= p < |m[i].1| && 0 <= k < |m[i].1[p]| ==> IsAliasChar(m[i].1[p][k])
  }

  /** A name made of alias characters is its own normal form. */
  lemma CleanIsNormal(a: string)
    requires forall k :: 0 <= k < |a| ==> IsAliasChar(a[k])
    ensures ToLower(a) == a && RemoveWhitespace(ToLower(a)) == a
  {
    RemoveWhitespaceKeepsClean(a);
  }

  lemma CleanIsLowercase(m: seq<BookMapping>)
    requires CleanAliases(m)
    ensures LowercaseAliases(m)
  {
    forall i, p | 0 <= i < |m| && 0 <= p < |m[i].1|
      ensures ToLower(m[i].1[p]) == m[i].1[p]
    {
      CleanIsNormal(m[i].1[p]);
    }
  }

  /** Every alias is already in lower case. */
  predicate LowercaseAliases(m: seq<BookMapping>) {
    forall i, p :: 0 <= i < |m| && 0 <= p < |m[i].1| ==> ToLower(m[i].1[p]) == m[i].1[p]
  }

  /** Every key is one of its own aliases. */
  predicate KeysListThemselves(m: seq<BookMapping>) {
    forall i :: 0 <= i < |m| ==> m[i].0 in m[i].1
  }

  /** `x` is listed as an alias somewhere in the table. */
  predicate IsAlias(m: seq<BookMapping>, x: string) {
    exists i, p :: 0 <= i < |m| && 0 <= p < |m[i].1| && m[i].1[p] == x
  }

  /** With unique, lower-case aliases, the reverse index sends every alias
      to the key that lists it, and holds nothing else. */
  lemma {:induction false} ReverseIndexMeaning(m: seq<BookMapping>)
    requires UniqueAliases(m) && LowercaseAliases(m)
    ensures forall i, p :: 0 <= i < |m| && 0 <= p < |m[i].1| ==>
      m[i].1[p] in ReverseIndex(m) && ReverseIndex(m)[m[i].1[p]] == m[i].0
    ensures forall x :: x in ReverseIndex(m) <==> IsAlias(m, x)
  {
    if m != [] {
      var n := |m| - 1;
      var front, last := m[..n], m[n];
      assert UniqueAliases(front) && LowercaseAliases(front) by {
        assert forall i :: 0 <= i < n ==> front[i] == m[i];
      }
      ReverseIndexMeaning(front);
      var prev := ReverseIndex(front);
      AddAliasesEffect(prev, last.0, last.1);
      var idx := ReverseIndex(m);
      assert idx == AddAliases(prev, last.0, last.1);
      assert Lowered(last.1) == set q | 0 <= q < |m[n].1| :: m[n].1[q] by {
        forall x | x in Lowered(last.1)
          ensures x in set q | 0 <= q < |m[n].1| :: m[n].1[q]
        {
          var q :| 0 <= q < |last.1| && ToLower(last.1[q]) == x;
          assert ToLower(m[n].1[q]) == m[n].1[q];
        }
        forall x | x in set q | 0 <= q < |m[n].1| :: m[n].1[q]
          ensures x in Lowered(last.1)
        {
          var q :| 0 <= q < |m[n].1| && m[n].1[q] == x;
          assert ToLower(m[n].1[q]) == x;
        }
      }
      forall i, p | 0 <= i < |m| && 0 <= p < |m[i].1|
        ensures m[i].1[p] in idx && idx[m[i].1[p]] == m[i].0
      {
        if i < n {
          assert front[i] == m[i];
          assert m[i].1[p] !in Lowered(last.1);
        } else {
          assert m[i].1[p] in Lowered(last.1);
        }
      }
      forall x
        ensures x in idx <==> IsAlias(m, x)
      {
        if x in prev {
          assert IsAlias(front, x);
          var i, p :| 0 <= i < n && 0 <= p < |front[i].1| && front[i].1[p] == x;
          assert m[i] == front[i];
        } else if x in Lowered(last.1) {
          var q :| 0 <= q < |m[n].1| && m[n].1[q] == x;
        }
        if IsAlias(m, x) {
          var i, p :| 0 <= i < |m| && 0 <= p < |m[i].1| && m[i].1[p] == x;
          if i < n {
            assert front[i] == m[i];
          }
        }
      }
    } else {
      assert forall x :: !IsAlias(m, x);
    }
  }

  /** With unique aliases, a key that lists itself appears once. */
  lemma KeysDistinct(m: seq<BookMapping>, i: nat, j: nat)
    requires UniqueAliases(m) && KeysListThemselves(m)
    requires i < |m| && j < |m| && m[i].0 == m[j].0
    ensures i == j
  {
    var p :| 0 <= p < |m[i].1| && m[i].1[p] == m[i].0;
    var q :| 0 <= q < |m[j].1| && m[j].1[q] == m[j].0;
  }

  lemma AliasesOfKey(m: seq<BookMapping>, i: nat)
    requires UniqueAliases(m) && KeysListThemselves(m) && i < |m|
    ensures Property(m, m[i].0) == Some(m[i].1)
  {
    var r := Property(m, m[i].0);
    var k :| 0 <= k < |m| && m[k] == (m[i].0, r.value);
    KeysDistinct(m, i, k);
  }

  // Facts about the concrete table, proved a few rows at a time.

  /** Aliases of different books in `a` and `b` never coincide. */
  predicate AliasesApart(a: seq<BookMapping>, b: seq<BookMapping>) {
    forall i, j, p, q :: 0 <= i < |a| && 0 <= j < |b| && 0 <= p < |a[i].1| && 0 <= q < |b[j].1|
      ==> a[i].1[p] != b[j].1[q]
  }

  /** The entries of one row are well formed: unique aliases, all in lower
      case, and each key among its own aliases. */
  predicate RowWellFormed(r: seq<BookMapping>) {
    UniqueAliases(r) && CleanAliases(r) && KeysListThemselves(r)
  }

  lemma WellFormedFromParts(r: seq<BookMapping>)
    requires forall i, j, p, q :: 0 <= i < j < |r| && 0 <= p < |r[i].1| && 0 <= q < |r[j].1| ==> r[i].1[p] != r[j].1[q]
    requires forall i, p, q :: 0 <= i < |r| && 0 <= p < q < |r[i].1| ==> r[i].1[p] != r[i].1[q]
    requires forall i, p, k :: 0 <= i < |r| && 0 <= p < |r[i].1| && 0 <= k < |r[i].1[p]| ==> IsAliasChar(r[i].1[p][k])
    requires forall i :: 0 <= i < |r| ==> r[i].0 in r[i].1
    ensures RowWellFormed(r)
  {
  }

  lemma ApartFromHalves(a: seq<BookMapping>, b: seq<BookMapping>)
    requires |a| > 6
    requires forall i, j, p, q :: 0 <= i < 6 && 0 <= j < |b| && 0 <= p < |a[i].1| && 0 <= q < |b[j].1| ==> a[i].1[p] != b[j].1[q]
    requires forall i, j, p, q :: 6 <= i < |a| && 0 <= j < |b| && 0 <= p < |a[i].1| && 0 <= q < |b[j].1| ==> a[i].1[p] != b[j].1[q]
    ensures AliasesApart(a, b)
  {
  }

  lemma WellFormedConcat(a: seq<BookMapping>, b: seq<BookMapping>)
    requires RowWellFormed(a) && RowWellFormed(b) && AliasesApart(a, b)
    ensures RowWellFormed(a + b)
  {
    var ab := a + b;
    forall i | 0 <= i < |ab|
      ensures ab[i] == if i < |a| then a[i] else b[i - |a|]
    {
    }
    forall i, j, p, q | 0 <= i < |ab| && 0 <= j < |ab| && 0 <= p < |ab[i].1| && 0 <= q < |ab[j].1| && ab[i].1[p] == ab[j].1[q]
      ensures i == j && p == q
    {
      if i >= |a| && j >= |a| {
        assert b[i - |a|].1[p] == b[j - |a|].1[q];
      }
    }
  }

  lemma ApartConcat(a: seq<BookMapping>, b: seq<BookMapping>, c: seq<BookMapping>)
    requires AliasesApart(a, c) && AliasesApart(b, c)
    ensures AliasesApart(a + b, c)
  {
    forall i | 0 <= i < |a + b|
      ensures (a + b)[i] == if i < |a| then a[i] else b[i - |a|]
    {
    }
  }

  lemma Row0AcrossBooks()
    ensures forall i, j, p, q :: 0 <= i < j < |MappingRow0| && 0 <= p < |MappingRow0[i].1| && 0 <= q < |MappingRow0[j].1| ==> MappingRow0[i].1[p] != MappingRow0[j].1[q]
  {
  }

  lemma Row0WithinBooks()
    ensures forall i, p, q :: 0 <= i < |MappingRow0| && 0 <= p < q < |MappingRow0[i].1| ==> MappingRow0[i].1[p] != MappingRow0[i].1[q]
    ensures forall i, p, k :: 0 <= i < |MappingRow0| && 0 <= p < |MappingRow0[i].1| && 0 <= k < |MappingRow0[i].1[p]| ==> IsAliasChar(MappingRow0[i].1[p][k])
    ensures forall i :: 0 <= i < |MappingRow0| ==> MappingRow0[i].0 in MappingRow0[i].1
  {
  }

  lemma Row0WellFormed()
    ensures RowWellFormed(MappingRow0)
  {
    Row0AcrossBooks();
    Row0WithinBooks();
    WellFormedFromParts(MappingRow0);
  }

  lemma Row1AcrossBooks()
    ensures forall i, j, p, q :: 0 <= i < j < |MappingRow1| && 0 <= p < |MappingRow1[i].1| && 0 <= q < |MappingRow1[j].1| ==> MappingRow1[i].1[p] != MappingRow1[j].1[q]
  {
  }

  lemma Row1WithinBooks()
    ensures forall i, p, q :: 0 <= i < |MappingRow1| && 0 <= p < q < |MappingRow1[i].1| ==> MappingRow1[i].1[p] != MappingRow1[i].1[q]
    ensures forall i, p, k :: 0 <= i < |MappingRow1| && 0 <= p < |MappingRow1[i].1| && 0 <= k < |MappingRow1[i].1[p]| ==> IsAliasChar(MappingRow1[i].1[p][k])
    ensures forall i :: 0 <= i < |MappingRow1| ==> MappingRow1[i].0 in MappingRow1[i].1
  {
  }

  lemma Row1WellFormed()
    ensures RowWellFormed(MappingRow1)
  {
    Row1AcrossBooks();
    Row1WithinBooks();
    WellFormedFromParts(MappingRow1);
  }

  lemma Row2AcrossBooks()
    ensures forall i, j, p, q :: 0 <= i < j < |MappingRow2| && 0 <= p < |MappingRow2[i].1| && 0 <= q < |MappingRow2[j].1| ==> MappingRow2[i].1[p] != MappingRow2[j].1[q]
  {
  }

  lemma Row2WithinBooks()
    ensures forall i, p, q :: 0 <= i < |MappingRow2| && 0 <= p < q < |MappingRow2[i].1| ==> MappingRow2[i].1[p] != MappingRow2[i].1[q]
    ensures forall i, p, k :: 0 <= i < |MappingRow2| && 0 <= p < |MappingRow2[i].1| && 0 <= k < |MappingRow2[i].1[p]| ==> IsAliasChar(MappingRow2[i].1[p][k])
    ensures forall i :: 0 <= i < |MappingRow2| ==> MappingRow2[i].0 in MappingRow2[i].1
  {
  }

  lemma Row2WellFormed()
    ensures RowWellFormed(MappingRow2)
  {
    Row2AcrossBooks();
    Row2WithinBooks();
    WellFormedFromParts(MappingRow2);
  }

  lemma Row3AcrossBooks()
    ensures forall i, j, p, q :: 0 <= i < j < |MappingRow3| && 0 <= p < |MappingRow3[i].1| && 0 <= q < |MappingRow3[j].1| ==> MappingRow3[i].1[p] != MappingRow3[j].1[q]
  {
  }

  lemma Row3WithinBooks()
    ensures forall i, p, q :: 0 <= i < |MappingRow3| && 0 <= p < q < |MappingRow3[i].1| ==> MappingRow3[i].1[p] != MappingRow3[i].1[q]
    ensures forall i, p, k :: 0 <= i < |MappingRow3| && 0 <= p < |MappingRow3[i].1| && 0 <= k < |MappingRow3[i].1[p]| ==> IsAliasChar(MappingRow3[i].1[p][k])
    ensures forall i :: 0 <= i < |MappingRow3| ==> MappingRow3[i].0 in MappingRow3[i].1
  {
  }

  lemma Row3WellFormed()
    ensures RowWellFormed(MappingRow3)
  {
    Row3AcrossBooks();
    Row3WithinBooks();
    WellFormedFromParts(MappingRow3);
  }

  lemma Row4AcrossBooks()
    ensures forall i, j, p, q :: 0 <= i < j < |MappingRow4| && 0 <= p < |MappingRow4[i].1| && 0 <= q < |MappingRow4[j].1| ==> MappingRow4[i].1[p] != MappingRow4[j].1[q]
  {
  }

  lemma Row4WithinBooks()
    ensures forall i, p, q :: 0 <= i < |MappingRow4| && 0 <= p < q < |MappingRow4[i].1| ==> MappingRow4[i].1[p] != MappingRow4[i].1[q]
    ensures forall i, p, k :: 0 <= i < |MappingRow4| && 0 <= p < |MappingRow4[i].1| && 0 <= k < |MappingRow4[i].1[p]| ==> IsAliasChar(MappingRow4[i].1[p][k])
    ensures forall i :: 0 <= i < |MappingRow4| ==> MappingRow4[i].0 in MappingRow4[i].1
  {
  }

  lemma Row4WellFormed()
    ensures RowWellFormed(MappingRow4)
  {
    Row4AcrossBooks();
    Row4WithinBooks();
    WellFormedFromParts(MappingRow4);
  }

  lemma Row5AcrossBooks()
    ensures forall i, j, p, q :: 0 <= i < j < |MappingRow5| && 0 <= p < |MappingRow5[i].1| && 0 <= q < |MappingRow5[j].1| ==> MappingRow5[i].1[p] != MappingRow5[j].1[q]
  {
  }

  lemma Row5WithinBooks()
    ensures forall i, p, q :: 0 <= i < |MappingRow5| && 0 <= p < q < |MappingRow5[i].1| ==> MappingRow5[i].1[p] != MappingRow5[i].1[q]
    ensures forall i, p, k :: 0 <= i < |MappingRow5| && 0 <= p < |MappingRow5[i].1| && 0 <= k < |MappingRow5[i].1[p]| ==> IsAliasChar(MappingRow5[i].1[p][k])
    ensures forall i :: 0 <= i < |MappingRow5| ==> MappingRow5[i].0 in MappingRow5[i].1
  {
  }

  lemma Row5WellFormed()
    ensures RowWellFormed(MappingRow5)
  {
    Row5AcrossBooks();
    Row5WithinBooks();
    WellFormedFromParts(MappingRow5);
  }

  lemma Rows01FrontApart()
    ensures forall i, j, p, q :: 0 <= i < 6 && 0 <= j < |MappingRow1| && 0 <= p < |MappingRow0[i].1| && 0 <= q < |MappingRow1[j].1| ==> MappingRow0[i].1[p] != MappingRow1[j].1[q]
  {
  }

  lemma Rows01BackApart()
    ensures forall i, j, p, q :: 6 <= i < |MappingRow0| && 0 <= j < |MappingRow1| && 0 <= p < |MappingRow0[i].1| && 0 <= q < |MappingRow1[j].1| ==> MappingRow0[i].1[p] != MappingRow1[j].1[q]
  {
  }

  lemma Rows01Apart()
    ensures AliasesApart(MappingRow0, MappingRow1)
  {
    Rows01FrontApart();
    Rows01BackApart();
    ApartFromHalves(MappingRow0, MappingRow1);
  }

  lemma Rows02FrontApart()
    ensures forall i, j, p, q :: 0 <= i < 6 && 0 <= j < |MappingRow2| && 0 <= p < |MappingRow0[i].1| && 0 <= q < |MappingRow2[j].1| ==> MappingRow0[i].1[p] != MappingRow2[j].1[q]
  {
  }

  lemma Rows02BackApart()
    ensures forall i, j, p, q :: 6 <= i < |MappingRow0| && 0 <= j < |MappingRow2| && 0 <= p < |MappingRow0[i].1| && 0 <= q < |MappingRow2[j].1| ==> MappingRow0[i].1[p] != MappingRow2[j].1[q]
  {
  }

  lemma Rows02Apart()
    ensures AliasesApart(MappingRow0, MappingRow2)
  {
    Rows02FrontApart();
    Rows02BackApart();
    ApartFromHalves(MappingRow0, MappingRow2);
  }

  lemma Rows03FrontApart()
    ensures forall i, j, p, q :: 0 <= i < 6 && 0 <= j < |MappingRow3| && 0 <= p < |MappingRow0[i].1| && 0 <= q < |MappingRow3[j].1| ==> MappingRow0[i].1[p] != MappingRow3[j].1[q]
  {
  }

  lemma Rows03BackApart()
    ensures forall i, j, p, q :: 6 <= i < |MappingRow0| && 0 <= j < |MappingRow3| && 0 <= p < |MappingRow0[i].1| && 0 <= q < |MappingRow3[j].1| ==> MappingRow0[i].1[p] != MappingRow3[j].1[q]
  {
  }

  lemma Rows03Apart()
    ensures AliasesApart(MappingRow0, MappingRow3)
  {
    Rows03FrontApart();
    Rows03BackApart();
    ApartFromHalves(MappingRow0, MappingRow3);
  }

  lemma Rows04FrontApart()
    ensures forall i, j, p, q :: 0 <= i < 6 && 0 <= j < |MappingRow4| && 0 <= p < |MappingRow0[i].1| && 0 <= q < |MappingRow4[j].1| ==> MappingRow0[i].1[p] != MappingRow4[j].1[q]
  {
  }

  lemma Rows04BackApart()
    ensures forall i, j, p, q :: 6 <= i < |MappingRow0| && 0 <= j < |MappingRow4| && 0 <= p < |MappingRow0[i].1| && 0 <= q < |MappingRow4[j].1| ==> MappingRow0[i].1[p] != MappingRow4[j].1[q]
  {
  }

  lemma Rows04Apart()
    ensures AliasesApart(MappingRow0, MappingRow4)
  {
    Rows04FrontApart();
    Rows04BackApart();
    ApartFromHalves(MappingRow0, MappingRow4);
  }

  lemma Rows05FrontApart()
    ensures forall i, j, p, q :: 0 <= i < 6 && 0 <= j < |MappingRow5| && 0 <= p < |MappingRow0[i].1| && 0 <= q < |MappingRow5[j].1| ==> MappingRow0[i].1[p] != MappingRow5[j].1[q]
  {
  }

  lemma Rows05BackApart()
    ensures forall i, j, p, q :: 6 <= i < |MappingRow0| && 0 <= j < |MappingRow5| && 0 <= p < |MappingRow0[i].1| && 0 <= q < |MappingRow5[j].1| ==> MappingRow0[i].1[p] != MappingRow5[j].1[q]
  {
  }

  lemma Rows05Apart()
    ensures AliasesApart(MappingRow0, MappingRow5)
  {
    Rows05FrontApart();
    Rows05BackApart();
    ApartFromHalves(MappingRow0, MappingRow5);
  }

  lemma Rows12FrontApart()
    ensures forall i, j, p, q :: 0 <= i < 6 && 0 <= j < |MappingRow2| && 0 <= p < |MappingRow1[i].1| && 0 <= q < |MappingRow2[j].1| ==> MappingRow1[i].1[p] != MappingRow2[j].1[q]
  {
  }

  lemma Rows12BackApart()
    ensures forall i, j, p, q :: 6 <= i < |MappingRow1| && 0 <= j < |MappingRow2| && 0 <= p < |MappingRow1[i].1| && 0 <= q < |MappingRow2[j].1| ==> MappingRow1[i].1[p] != MappingRow2[j].1[q]
  {
  }

  lemma Rows12Apart()
    ensures AliasesApart(MappingRow1, MappingRow2)
  {
    Rows12FrontApart();
    Rows12BackApart();
    ApartFromHalves(MappingRow1, MappingRow2);
  }

  lemma Rows13FrontApart()
    ensures forall i, j, p, q :: 0 <= i < 6 && 0 <= j < |MappingRow3| && 0 <= p < |MappingRow1[i].1| && 0 <= q < |MappingRow3[j].1| ==> MappingRow1[i].1[p] != MappingRow3[j].1[q]
  {
  }

  lemma Rows13BackApart()
    ensures forall i, j, p, q :: 6 <= i < |MappingRow1| && 0 <= j < |MappingRow3| && 0 <= p < |MappingRow1[i].1| && 0 <= q < |MappingRow3[j].1| ==> MappingRow1[i].1[p] != MappingRow3[j].1[q]
  {
  }

  lemma Rows13Apart()
    ensures AliasesApart(MappingRow1, MappingRow3)
  {
    Rows13FrontApart();
    Rows13BackApart();
    ApartFromHalves(MappingRow1, MappingRow3);
  }

  lemma Rows14FrontApart()
    ensures forall i, j, p, q :: 0 <= i < 6 && 0 <= j < |MappingRow4| && 0 <= p < |MappingRow1[i].1| && 0 <= q < |MappingRow4[j].1| ==> MappingRow1[i].1[p] != MappingRow4[j].1[q]
  {
  }

  lemma Rows14BackApart()
    ensures forall i, j, p, q :: 6 <= i < |MappingRow1| && 0 <= j < |MappingRow4| && 0 <= p < |MappingRow1[i].1| && 0 <= q < |MappingRow4[j].1| ==> MappingRow1[i].1[p] != MappingRow4[j].1[q]
  {
  }

  lemma Rows14Apart()
    ensures AliasesApart(MappingRow1, MappingRow4)
  {
    Rows14FrontApart();
    Rows14BackApart();
    ApartFromHalves(MappingRow1, MappingRow4);
  }

  lemma Rows15FrontApart()
    ensures forall i, j, p, q :: 0 <= i < 6 && 0 <= j < |MappingRow5| && 0 <= p < |MappingRow1[i].1| && 0 <= q < |MappingRow5[j].1| ==> MappingRow1[i].1[p] != MappingRow5[j].1[q]
  {
  }

  lemma Rows15BackApart()
    ensures forall i, j, p, q :: 6 <= i < |MappingRow1| && 0 <= j < |MappingRow5| && 0 <= p < |MappingRow1[i].1| && 0 <= q < |MappingRow5[j].1| ==> MappingRow1[i].1[p] != MappingRow5[j].1[q]
  {
  }

  lemma Rows15Apart()
    ensures AliasesApart(MappingRow1, MappingRow5)
  {
    Rows15FrontApart();
    Rows15BackApart();
    ApartFromHalves(MappingRow1, MappingRow5);
  }

  lemma Rows23FrontApart()
    ensures forall i, j, p, q :: 0 <= i < 6 && 0 <= j < |MappingRow3| && 0 <= p < |MappingRow2[i].1| && 0 <= q < |MappingRow3[j].1| ==> MappingRow2[i].1[p] != MappingRow3[j].1[q]
  {
  }

  lemma Rows23BackApart()
    ensures forall i, j, p, q :: 6 <= i < |MappingRow2| && 0 <= j < |MappingRow3| && 0 <= p < |MappingRow2[i].1| && 0 <= q < |MappingRow3[j].1| ==> MappingRow2[i].1[p] != MappingRow3[j].1[q]
  {
  }

  lemma Rows23Apart()
    ensures AliasesApart(MappingRow2, MappingRow3)
  {
    Rows23FrontApart();
    Rows23BackApart();
    ApartFromHalves(MappingRow2, MappingRow3);
  }

  lemma Rows24FrontApart()
    ensures forall i, j, p, q :: 0 <= i < 6 && 0 <= j < |MappingRow4| && 0 <= p < |MappingRow2[i].1| && 0 <= q < |MappingRow4[j].1| ==> MappingRow2[i].1[p] != MappingRow4[j].1[q]
  {
  }

  lemma Rows24BackApart()
    ensures forall i, j, p, q :: 6 <= i < |MappingRow2| && 0 <= j < |MappingRow4| && 0 <= p < |MappingRow2[i].1| && 0 <= q < |MappingRow4[j].1| ==> MappingRow2[i].1[p] != MappingRow4[j].1[q]
  {
  }

  lemma Rows24Apart()
    ensures AliasesApart(MappingRow2, MappingRow4)
  {
    Rows24FrontApart();
    Rows24BackApart();
    ApartFromHalves(MappingRow2, MappingRow4);
  }

  lemma Rows25FrontApart()
    ensures forall i, j, p, q :: 0 <= i < 6 && 0 <= j < |MappingRow5| && 0 <= p < |MappingRow2[i].1| && 0 <= q < |MappingRow5[j].1| ==> MappingRow2[i].1[p] != MappingRow5[j].1[q]
  {
  }

  lemma Rows25BackApart()
    ensures forall i, j, p, q :: 6 <= i < |MappingRow2| && 0 <= j < |MappingRow5| && 0 <= p < |MappingRow2[i].1| && 0 <= q < |MappingRow5[j].1| ==> MappingRow2[i].1[p] != MappingRow5[j].1[q]
  {
  }

  lemma Rows25Apart()
    ensures AliasesApart(MappingRow2, MappingRow5)
  {
    Rows25FrontApart();
    Rows25BackApart();
    ApartFromHalves(MappingRow2, MappingRow5);
  }

  lemma Rows34FrontApart()
    ensures forall i, j, p, q :: 0 <= i < 6 && 0 <= j < |MappingRow4| && 0 <= p < |MappingRow3[i].1| && 0 <= q < |MappingRow4[j].1| ==> MappingRow3[i].1[p] != MappingRow4[j].1[q]
  {
  }

  lemma Rows34BackApart()
    ensures forall i, j, p, q :: 6 <= i < |MappingRow3| && 0 <= j < |MappingRow4| && 0 <= p < |MappingRow3[i].1| && 0 <= q < |MappingRow4[j].1| ==> MappingRow3[i].1[p] != MappingRow4[j].1[q]
  {
  }

  lemma Rows34Apart()
    ensures AliasesApart(MappingRow3, MappingRow4)
  {
    Rows34FrontApart();
    Rows34BackApart();
    ApartFromHalves(MappingRow3, MappingRow4);
  }

  lemma Rows35FrontApart()
    ensures forall i, j, p, q :: 0 <= i < 6 && 0 <= j < |MappingRow5| && 0 <= p < |MappingRow3[i].1| && 0 <= q < |MappingRow5[j].1| ==> MappingRow3[i].1[p] != MappingRow5[j].1[q]
  {
  }

  lemma Rows35BackApart()
    ensures forall i, j, p, q :: 6 <= i < |MappingRow3| && 0 <= j < |MappingRow5| && 0 <= p < |MappingRow3[i].1| && 0 <= q < |MappingRow5[j].1| ==> MappingRow3[i].1[p] != MappingRow5[j].1[q]
  {
  }

  lemma Rows35Apart()
    ensures AliasesApart(MappingRow3, MappingRow5)
  {
    Rows35FrontApart();
    Rows35BackApart();
    ApartFromHalves(MappingRow3, MappingRow5);
  }

  lemma Rows45FrontApart()
    ensures forall i, j, p, q :: 0 <= i < 6 && 0 <= j < |MappingRow5| && 0 <= p < |MappingRow4[i].1| && 0 <= q < |MappingRow5[j].1| ==> MappingRow4[i].1[p] != MappingRow5[j].1[q]
  {
  }

  lemma Rows45BackApart()
    ensures forall i, j, p, q :: 6 <= i < |MappingRow4| && 0 <= j < |MappingRow5| && 0 <= p < |MappingRow4[i].1| && 0 <= q < |MappingRow5[j].1| ==> MappingRow4[i].1[p] != MappingRow5[j].1[q]
  {
  }

  lemma Rows45Apart()
    ensures AliasesApart(MappingRow4, MappingRow5)
  {
    Rows45FrontApart();
    Rows45BackApart();
    ApartFromHalves(MappingRow4, MappingRow5);
  }

  /** The table as written is well formed: every alias appears under
      exactly one key and once there, every alias is in lower case, and
      every key lists itself; it has 66 entries. */
  lemma BookMappingsWellFormed()
    ensures |BookMappings| == 66
    ensures RowWellFormed(BookMappings)
  {
    Row0WellFormed();
    Row1WellFormed();
    Row2WellFormed();
    Row3WellFormed();
    Row4WellFormed();
    Row5WellFormed();
    Rows01Apart();
    WellFormedConcat(MappingRow0, MappingRow1);
    Rows02Apart();
    Rows12Apart();
    ApartConcat(MappingRow0, MappingRow1, MappingRow2);
    WellFormedConcat(MappingRow0 + MappingRow1, MappingRow2);
    Rows03Apart();
    Rows13Apart();
    Rows23Apart();
    ApartConcat(MappingRow0, MappingRow1, MappingRow3);
    ApartConcat(MappingRow0 + MappingRow1, MappingRow2, MappingRow3);
    WellFormedConcat(MappingRow0 + MappingRow1 + MappingRow2, MappingRow3);
    Rows04Apart();
    Rows14Apart();
    Rows24Apart();
    Rows34Apart();
    ApartConcat(MappingRow0, MappingRow1, MappingRow4);
    ApartConcat(MappingRow0 + MappingRow1, MappingRow2, MappingRow4);
    ApartConcat(MappingRow0 + MappingRow1 + MappingRow2, MappingRow3, MappingRow4);
    WellFormedConcat(MappingRow0 + MappingRow1 + MappingRow2 + MappingRow3, MappingRow4);
    Rows05Apart();
    Rows15Apart();
    Rows25Apart();
    Rows35Apart();
    Rows45Apart();
    ApartConcat(MappingRow0, MappingRow1, MappingRow5);
    ApartConcat(MappingRow0 + MappingRow1, MappingRow2, MappingRow5);
    ApartConcat(MappingRow0 + MappingRow1 + MappingRow2, MappingRow3, MappingRow5);
    ApartConcat(MappingRow0 + MappingRow1 + MappingRow2 + MappingRow3, MappingRow4, MappingRow5);
    WellFormedConcat(MappingRow0 + MappingRow1 + MappingRow2 + MappingRow3 + MappingRow4, MappingRow5);
  }

  /** The reverse index sends every alias to the key listing it, holds
      nothing but aliases, and `BOOK_MAPPINGS[key]` gives back that key's
      aliases. */
  lemma AbbrevToBookMeaning()
    ensures forall i, p :: 0 <= i < |BookMappings| && 0 <= p < |BookMappings[i].1| ==>
      BookMappings[i].1[p] in AbbrevToBook && AbbrevToBook[BookMappings[i].1[p]] == BookMappings[i].0
    ensures forall x :: x in AbbrevToBook <==> IsAlias(BookMappings, x)
    ensures forall i :: 0 <= i < |BookMappings| ==> Property(BookMappings, BookMappings[i].0) == Some(BookMappings[i].1)
  {
    BookMappingsWellFormed();
    CleanIsLowercase(BookMappings);
    ReverseIndexMeaning(BookMappings);
    forall i | 0 <= i < |BookMappings|
      ensures Property(BookMappings, BookMappings[i].0) == Some(BookMappings[i].1)
    {
      AliasesOfKey(BookMappings, i);
    }
  }

  /** One alias's entry: the index sends it to its key, and the key's
      aliases are those of its row. */
  lemma AliasEntry(i: nat, p: nat)
    requires i < |BookMappings| && p < |BookMappings[i].1|
    ensures BookMappings[i].1[p] in AbbrevToBook && AbbrevToBook[BookMappings[i].1[p]] == BookMappings[i].0
    ensures Property(BookMappings, BookMappings[i].0) == Some(BookMappings[i].1)
  {
    AbbrevToBookMeaning();
  }

  /** Only names made of alias characters are in the index. */
  lemma IndexedNamesAreClean(x: string)
    requires x in AbbrevToBook
    ensures forall k :: 0 <= k < |x| ==> IsAliasChar(x[k])
  {
    AbbrevToBookMeaning();
    BookMappingsWellFormed();
    var i, p :| 0 <= i < |BookMappings| && 0 <= p < |BookMappings[i].1| && BookMappings[i].1[p] == x;
  }
}
