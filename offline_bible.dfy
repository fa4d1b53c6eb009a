/** The offline Bible service: book lookup by a free-form name, conversion
    of a stored chapter into the reader's chapter record, a load-once memo of
    the per-translation datasets, and the offline allow-list. */
module OfflineBible {
  import opened Wrappers
  import opened JsText
  import opened BibleTypes
  import opened BookAliases

  /** A book of a stored dataset: its abbreviation and its chapters, each a
      list of verse texts. */
  datatype OfflineBibleBook = OfflineBibleBook(abbrev: string, chapters: seq<seq<string>>)

  /** A chapter as the offline service returns it: the reader's chapter
      record plus the two fields only this service adds (every verse's
      `book_id`, which is the book's abbreviation, and a translation note). */
  datatype OfflineChapter = OfflineChapter(chapter: BibleChapter, bookId: string, translationNote: string)

  // ---------------------------------------------------------------------
  // Book lookup
  // ---------------------------------------------------------------------

  /** A name as lookup compares it: lower-cased, with all white space deleted. */
  function Normalize(bookName: string): string {
    RemoveWhitespace(ToLower(bookName))
  }

  /** `data.find(b => b.abbrev === name)`, as an index: the first book
      with that abbreviation. */
  function FindAbbrev(data: seq<OfflineBibleBook>, name: string): (r: Option<nat>)
    ensures r.Some? ==>
      r.value < |data| && data[r.value].abbrev == name && forall k :: 0 <= k < r.value ==> data[k].abbrev != name
    ensures r.None? ==> forall k :: 0 <= k < |data| ==> data[k].abbrev != name
  {
    if data == [] then None
    else if data[0].abbrev == name then Some(0)
    else
      match FindAbbrev(data[1..], name)
      case Some(k) => Some(k + 1)
      case None => None
  }

  /** `data.find(b => aliases.includes(b.abbrev))`, as an index: the first
      book whose abbreviation is one of `aliases`. */
  function FindAbbrevIn(data: seq<OfflineBibleBook>, aliases: seq<string>): (r: Option<nat>)
    ensures r.Some? ==>
      r.value < |data| && data[r.value].abbrev in aliases && forall k :: 0 <= k < r.value ==> data[k].abbrev !in aliases
    ensures r.None? ==> forall k :: 0 <= k < |data| ==> data[k].abbrev !in aliases
  {
    if data == [] then None
    else if data[0].abbrev in aliases then Some(0)
    else
      match FindAbbrevIn(data[1..], aliases)
      case Some(k) => Some(k + 1)
      case None => None
  }

  function BookAt(data: seq<OfflineBibleBook>, found: Option<nat>): Option<OfflineBibleBook>
    requires found.Some? ==> found.value < |data|
  {
    match found
    case Some(k) => Some(data[k])
    case None => None
  }

  /** The first book whose abbreviation is one of the aliases of the book
      `name` is listed under. */
  function FindByAlias(data: seq<OfflineBibleBook>, name: string): Option<OfflineBibleBook>
    requires name in AbbrevToBook
  {
    match Property(BookMappings, AbbrevToBook[name])
    case Some(aliases) => BookAt(data, FindAbbrevIn(data, aliases))
    case None => None
  }

  /** `findBookByName`, with the alias table consulted for its own entries
      only: a book whose abbreviation is the normalised name wins; otherwise
      the first book whose abbreviation is an alias of the canonical book the
      name stands for; otherwise nothing. */
  function FindBookByName(data: seq<OfflineBibleBook>, bookName: string): (r: Option<OfflineBibleBook>)
    ensures r.Some? ==> r.value in data
  {
    var name := Normalize(bookName);
    var direct := FindAbbrev(data, name);
    if direct.Some? then Some(data[direct.value])
    else if name in AbbrevToBook then FindByAlias(data, name)
    else None
  }

  /** Spacing does not matter to lookup: white space inserted anywhere
      leaves the normalised name unchanged. */
  lemma NormalizeIgnoresSpacing(a: string, w: string, b: string)
    requires forall k :: 0 <= k < |w| ==> IsWhitespace(w[k])
    ensures Normalize(a + w + b) == Normalize(a + b)
  {
    var la, lw, lb := ToLower(a), ToLower(w), ToLower(b);
    ToLowerConcat(a + w, b);
    ToLowerConcat(a, w);
    ToLowerConcat(a, b);
    assert forall k :: 0 <= k < |lw| ==> IsWhitespace(lw[k]) by {
      assert forall k :: 0 <= k < |w| ==> lw[k] == LowerChar(w[k]);
    }
    WhitespaceRunRemoved(la, lw, lb);
  }

  /** A run of white space disappears wherever it stands. */
  lemma WhitespaceRunRemoved(x: string, w: string, y: string)
    requires forall k :: 0 <= k < |w| ==> IsWhitespace(w[k])
    ensures RemoveWhitespace(x + w + y) == RemoveWhitespace(x + y)
  {
    AllWhitespaceRemoved(w);
    calc {
      RemoveWhitespace(x + w + y);
      { RemoveWhitespaceConcat(x + w, y); }
      RemoveWhitespace(x + w) + RemoveWhitespace(y);
      { RemoveWhitespaceConcat(x, w); }
      RemoveWhitespace(x) + RemoveWhitespace(w) + RemoveWhitespace(y);
      RemoveWhitespace(x) + RemoveWhitespace(y);
      { RemoveWhitespaceConcat(x, y); }
      RemoveWhitespace(x + y);
    }
  }

  lemma {:induction false} AllWhitespaceRemoved(w: string)
    requires forall k :: 0 <= k < |w| ==> IsWhitespace(w[k])
    ensures RemoveWhitespace(w) == []
  {
    if w != [] {
      AllWhitespaceRemoved(w[1..]);
    }
  }

  /** Case does not matter to lookup: an upper-cased name normalises to the
      same name as the original. */
  lemma NormalizeIgnoresCase(s: string)
    ensures Normalize(ToUpper(s)) == Normalize(s)
  {
    assert ToLower(ToUpper(s)) == ToLower(s);
  }

  /** A book whose abbreviation is the normalised name is found first,
      before the alias table is consulted. */
  lemma DirectMatchWins(data: seq<OfflineBibleBook>, bookName: string, k: nat)
    requires k < |data| && data[k].abbrev == Normalize(bookName)
    requires forall j :: 0 <= j < k ==> data[j].abbrev != Normalize(bookName)
    ensures FindBookByName(data, bookName) == Some(data[k])
  {
  }

  /** Without a direct match, a name that is an alias of canonical book `i`
      is looked up through the alias table. */
  lemma AliasFallback(data: seq<OfflineBibleBook>, bookName: string, i: nat, p: nat)
    requires forall j :: 0 <= j < |data| ==> data[j].abbrev != Normalize(bookName)
    requires i < |BookMappings| && p < |BookMappings[i].1| && BookMappings[i].1[p] == Normalize(bookName)
    ensures Normalize(bookName) in AbbrevToBook
    ensures FindBookByName(data, bookName) == FindByAlias(data, Normalize(bookName))
  {
    AliasEntry(i, p);
  }

  /** Looking an alias of canonical book `i` up through the table finds the
      first book whose abbreviation is any of book `i`'s aliases, and nothing
      when there is none. */
  lemma FindByAliasOfBook(data: seq<OfflineBibleBook>, i: nat, p: nat)
    requires i < |BookMappings| && p < |BookMappings[i].1|
    ensures BookMappings[i].1[p] in AbbrevToBook
    ensures FindByAlias(data, BookMappings[i].1[p]) == BookAt(data, FindAbbrevIn(data, BookMappings[i].1))
  {
    AliasEntry(i, p);
  }

  /** A name that is neither a book's abbreviation nor an alias finds nothing. */
  lemma UnknownNameFindsNothing(data: seq<OfflineBibleBook>, bookName: string)
    requires forall j :: 0 <= j < |data| ==> data[j].abbrev != Normalize(bookName)
    requires !IsAlias(BookMappings, Normalize(bookName))
    ensures FindBookByName(data, bookName) == None
  {
    AbbrevToBookMeaning();
  }

  /** Every alias of a canonical book finds the dataset book stored under
      any of that book's aliases. */
  lemma EveryAliasFindsItsBook(data: seq<OfflineBibleBook>, i: nat, p: nat, k: nat)
    requires i < |BookMappings| && p < |BookMappings[i].1| && k < |data|
    requires data[k].abbrev in BookMappings[i].1
    ensures FindBookByName(data, BookMappings[i].1[p]).Some?
  {
    var name := BookMappings[i].1[p];
    BookMappingsWellFormed();
    CleanIsNormal(name);
    if FindAbbrev(data, name).None? {
      AliasFallback(data, name, i, p);
      FindByAliasOfBook(data, i, p);
    }
  }

  // ---------------------------------------------------------------------
  // Lookup as written: names inherited from Object.prototype
  // ---------------------------------------------------------------------

  /** The lower-case names a plain JavaScript object answers to without
      holding them itself: `ABBREV_TO_BOOK[name]` yields an inherited,
      truthy value for these, and `BOOK_MAPPINGS[that value]` is undefined. */
  const InheritedNames: set<string> := {"constructor", "__proto__"}

  /** What V8 reports when `.includes` is called on `undefined`. */
  const UndefinedIncludes := "Cannot read properties of undefined (reading 'includes')"

  /** `findBookByName` exactly as written, plain-object lookups included: a
      normalised name that the object inherits passes the `if (mappedBook)`
      test, `abbrevs` is undefined, and the `find` callback throws on the
      first book it is given (with no books it is never called, and the
      result is null). */
  function FindBookByNameAsWritten(data: seq<OfflineBibleBook>, bookName: string): (r: Result<Option<OfflineBibleBook>, Thrown>)
    ensures r.Err? <==> FindAbbrev(data, Normalize(bookName)).None? && Normalize(bookName) !in AbbrevToBook
                        && Normalize(bookName) in InheritedNames && data != []
  {
    var name := Normalize(bookName);
    var direct := FindAbbrev(data, name);
    if direct.Some? then Ok(Some(data[direct.value]))
    else if name in AbbrevToBook then Ok(FindByAlias(data, name))
    else if name in InheritedNames && data != [] then Err(Error(UndefinedIncludes))
    else Ok(None)
  }

  /** Away from the inherited names, the code as written and the corrected
      lookup agree. */
  lemma AsWrittenAgreesOtherwise(data: seq<OfflineBibleBook>, bookName: string)
    requires Normalize(bookName) !in InheritedNames || data == []
    ensures FindBookByNameAsWritten(data, bookName) == Ok(FindBookByName(data, bookName))
  {
  }

  /** "__proto__" is neither an alias nor (in this dataset) an abbreviation,
      yet the lookup as written throws instead of answering null. */
  lemma ProtoNameThrows()
    ensures FindBookByNameAsWritten([OfflineBibleBook("gn", [])], "__proto__") == Err(Error(UndefinedIncludes))
    ensures FindBookByName([OfflineBibleBook("gn", [])], "__proto__") == None
  {
    ProtoIsNormal();
    ProtoNotIndexed();
  }

  lemma ProtoNotIndexed()
    ensures "__proto__" !in AbbrevToBook
  {
    assert !IsAliasChar("__proto__"[0]);
    if "__proto__" in AbbrevToBook {
      IndexedNamesAreClean("__proto__");
    }
  }

  lemma ProtoIsNormal()
    ensures Normalize("__proto__") == "__proto__"
  {
    assert ToLower("__proto__") == "__proto__";
    RemoveWhitespaceKeepsClean("__proto__");
  }

  // ---------------------------------------------------------------------
  // Chapters
  // ---------------------------------------------------------------------

  /** `convertToChapterFormat`: the stored chapter at `chapterIndex` as the
      reader's chapter record, or the error for a chapter that is not there. */
  function ConvertToChapterFormat(book: OfflineBibleBook, chapterIndex: int, bookName: string,
                                  chapterNumber: int, translation: string): (r: Result<OfflineChapter, Thrown>)
    ensures r.Err? <==> !(0 <= chapterIndex < |book.chapters|)
    ensures r.Err? ==> r.error == Error("Chapter " + IntToString(chapterNumber) + " not found in " + bookName)
  {
    if !(0 <= chapterIndex < |book.chapters|) then
      Err(Error("Chapter " + IntToString(chapterNumber) + " not found in " + bookName))
    else
      var verses := book.chapters[chapterIndex];
      Ok(OfflineChapter(
        BibleChapter(
          bookName + " " + IntToString(chapterNumber),
          seq(|verses|, k requires 0 <= k < |verses| => BibleVerse(bookName, chapterNumber, k + 1, verses[k])),
          Join(verses, " "),
          ToUpper(translation),
          translation),
        book.abbrev,
        ToUpper(translation) + " - Offline Version"))
  }

  /** The texts of a list of verses, in order. */
  function VerseTexts(verses: seq<BibleVerse>): (r: seq<string>)
    ensures |r| == |verses|
  {
    seq(|verses|, k requires 0 <= k < |verses| => verses[k].text)
  }

  /** A converted chapter numbers its verses 1, 2, ... in order, keeps every
      stored text unchanged and in place, joins them with single spaces into
      the chapter text, names the book and chapter in its reference and
      upper-cases the translation for display. */
  lemma ConvertedChapter(book: OfflineBibleBook, chapterIndex: int, bookName: string, chapterNumber: int, translation: string)
    requires 0 <= chapterIndex < |book.chapters|
    ensures var r := ConvertToChapterFormat(book, chapterIndex, bookName, chapterNumber, translation);
      r.Ok? &&
      var c := r.value.chapter;
      VerseTexts(c.verses) == book.chapters[chapterIndex]
      && (forall k :: 0 <= k < |c.verses| ==> c.verses[k].verse == k + 1)
      && (forall k :: 0 <= k < |c.verses| ==> c.verses[k].bookName == bookName && c.verses[k].chapter == chapterNumber)
      && c.text == Join(VerseTexts(c.verses), " ")
      && c.reference == bookName + " " + IntToString(chapterNumber)
      && c.translationName == ToUpper(translation) && c.translationId == translation
      && r.value.bookId == book.abbrev
  {
    var r := ConvertToChapterFormat(book, chapterIndex, bookName, chapterNumber, translation);
    assert VerseTexts(r.value.chapter.verses) == book.chapters[chapterIndex];
  }

  /** The error for a book the lookup did not find. */
  function BookNotFound(book: string, translation: string): string {
    "Book \"" + book + "\" not found in offline " + ToUpper(translation) + " Bible"
  }

  /** The error for a chapter number outside the book's range. */
  function ChapterNotFound(book: string, chapter: int, count: nat): string {
    "Chapter " + IntToString(chapter) + " not found in " + book + ". Available chapters: 1-" + IntToString(count)
  }

  /** What `fetchOfflineChapter` does once the dataset is loaded: find the
      book, check the 1-based chapter number against its chapter count, and
      convert. */
  function ChapterFromData(data: seq<OfflineBibleBook>, book: string, chapter: int, translation: string): (r: Result<OfflineChapter, Thrown>)
    ensures FindBookByName(data, book).None? ==> r == Err(Error(BookNotFound(book, translation)))
    ensures FindBookByName(data, book).Some? && !(1 <= chapter <= |FindBookByName(data, book).value.chapters|) ==>
      r == Err(Error(ChapterNotFound(book, chapter, |FindBookByName(data, book).value.chapters|)))
  {
    match FindBookByName(data, book)
    case None => Err(Error(BookNotFound(book, translation)))
    case Some(found) =>
      var chapterIndex := chapter - 1;
      if chapterIndex < 0 || chapterIndex >= |found.chapters| then
        Err(Error(ChapterNotFound(book, chapter, |found.chapters|)))
      else
        ConvertToChapterFormat(found, chapterIndex, book, chapter, translation)
  }

  /** A chapter is delivered exactly when the book is found and the number
      lies in 1..N, and it is then the book's chapter `chapter`, stored at
      index `chapter - 1`; the conversion's own error can never surface. */
  lemma ChapterFromDataMeaning(data: seq<OfflineBibleBook>, book: string, chapter: int, translation: string)
    ensures var found := FindBookByName(data, book);
      var r := ChapterFromData(data, book, chapter, translation);
      (r.Ok? <==> found.Some? && 1 <= chapter <= |found.value.chapters|)
      && (r.Ok? ==> VerseTexts(r.value.chapter.verses) == found.value.chapters[chapter - 1]
                    && r.value.bookId == found.value.abbrev
                    && r.value.chapter.reference == book + " " + IntToString(chapter))
  {
    var found := FindBookByName(data, book);
    if found.Some? && 1 <= chapter <= |found.value.chapters| {
      ConvertedChapter(found.value, chapter - 1, book, chapter, translation);
    }
  }

  // ---------------------------------------------------------------------
  // Datasets and their memo
  // ---------------------------------------------------------------------

  /** The file a translation's dataset is fetched from: `kjv.json` for
      exactly "kjv", `web.json` for anything else. */
  function DatasetFile(translation: string): string {
    if translation == "kjv" then "kjv.json" else "web.json"
  }

  function DatasetPath(translation: string): string {
    "/data/bible/" + DatasetFile(translation)
  }

  /** What fetching a dataset file produced: the request failed outright,
      or a response arrived with its `ok` flag and, when read, a parsed body
      or the parser's error. */
  datatype DatasetReply =
    | Unreachable(failure: Thrown)
    | Received(ok: bool, body: Result<seq<OfflineBibleBook>, Thrown>)

  /** The outcome of one load that was not answered from the memo. */
  function LoadOutcome(translation: string, reply: DatasetReply): (r: Result<seq<OfflineBibleBook>, Thrown>)
    ensures reply.Received? && !reply.ok ==> r == Err(Error("Failed to load " + translation + " Bible data"))
    ensures r.Ok? ==> reply.Received? && reply.ok && reply.body == r
  {
    match reply
    case Unreachable(e) => Err(e)
    case Received(ok, body) =>
      if !ok then Err(Error("Failed to load " + translation + " Bible data")) else body
  }

  /** One call of `loadBibleData` on memo `cache`: its result, the path it
      fetched (none when the memo answered), and the memo afterwards. */
  datatype LoadStep = LoadStep(result: Result<seq<OfflineBibleBook>, Thrown>, fetched: Option<string>,
                               cache: map<string, seq<OfflineBibleBook>>)

  function Load(cache: map<string, seq<OfflineBibleBook>>, translation: string, reply: DatasetReply): LoadStep {
    if translation in cache then LoadStep(Ok(cache[translation]), None, cache)
    else
      var r := LoadOutcome(translation, reply);
      LoadStep(r, Some(DatasetPath(translation)), if r.Ok? then cache[translation := r.value] else cache)
  }

  /** A memoised translation is answered from the memo, without a fetch,
      whatever the network would have said. */
  lemma LoadFromMemo(cache: map<string, seq<OfflineBibleBook>>, translation: string, reply: DatasetReply)
    requires translation in cache
    ensures Load(cache, translation, reply) == LoadStep(Ok(cache[translation]), None, cache)
  {
  }

  /** A load that is not answered from the memo fetches the translation's
      file; it stores its result only when it succeeds, so a failed load
      leaves the memo as it was, and no other translation's entry changes. */
  lemma LoadFetches(cache: map<string, seq<OfflineBibleBook>>, translation: string, reply: DatasetReply)
    requires translation !in cache
    ensures var step := Load(cache, translation, reply);
      step.fetched == Some(DatasetPath(translation))
      && step.result == LoadOutcome(translation, reply)
      && (step.result.Err? ==> step.cache == cache)
      && (step.result.Ok? ==> step.cache == cache[translation := step.result.value])
      && (forall t :: t != translation ==> (t in step.cache <==> t in cache))
  {
  }

  /** Loading twice fetches at most once: after a successful load the
      second call returns the same books without a request. */
  lemma LoadTwice(cache: map<string, seq<OfflineBibleBook>>, translation: string, first: DatasetReply, second: DatasetReply)
    requires Load(cache, translation, first).result.Ok?
    ensures var one := Load(cache, translation, first);
      var two := Load(one.cache, translation, second);
      two.fetched == None && two.result == one.result && two.cache == one.cache
  {
  }

  /** The summary `getOfflineBibleBooks` gives of one book. */
  datatype BookSummary = BookSummary(abbrev: string, name: string, chapters: nat)

  function Summaries(data: seq<OfflineBibleBook>): (r: seq<BookSummary>)
    ensures |r| == |data|
  {
    seq(|data|, k requires 0 <= k < |data| => BookSummary(data[k].abbrev, ToUpper(data[k].abbrev), |data[k].chapters|))
  }

  /** One summary per stored book, in order, with the book's abbreviation,
      its upper-cased form as the name, and its chapter count. */
  lemma SummariesMeaning(data: seq<OfflineBibleBook>)
    ensures forall k :: 0 <= k < |data| ==>
      Summaries(data)[k].abbrev == data[k].abbrev && Summaries(data)[k].chapters == |data[k].chapters|
      && Summaries(data)[k].name == ToUpper(data[k].abbrev)
  {
  }

  /** The service's memo of loaded datasets (`bibleDataCache`) and the
      operations that go through it. */
  class OfflineBibleStore {
    var cache: map<string, seq<OfflineBibleBook>>

    constructor()
      ensures cache == map[]
    {
      cache := map[];
    }

    /** `loadBibleData`, with `reply` standing for what the fetch of the
        dataset file returns if it is made. */
    method LoadBibleData(translation: string, reply: DatasetReply)
      returns (r: Result<seq<OfflineBibleBook>, Thrown>, fetched: Option<string>)
      modifies this
      ensures LoadStep(r, fetched, cache) == Load(old(cache), translation, reply)
    {
      if translation in cache {
        return Ok(cache[translation]), None;
      }
      fetched := Some(DatasetPath(translation));
      r := LoadOutcome(translation, reply);
      if r.Ok? {
        cache := cache[translation := r.value];
      }
    }

    /** `fetchOfflineChapter`: a failed load is passed on unchanged;
        otherwise the chapter as `ChapterFromData` gives it. */
    method FetchOfflineChapter(book: string, chapter: int, translation: string, reply: DatasetReply)
      returns (r: Result<OfflineChapter, Thrown>, fetched: Option<string>)
      modifies this
      ensures var step := Load(old(cache), translation, reply);
        cache == step.cache && fetched == step.fetched
        && r == (match step.result
                 case Err(e) => Err(e)
                 case Ok(data) => ChapterFromData(data, book, chapter, translation))
    {
      var loaded;
      loaded, fetched := LoadBibleData(translation, reply);
      match loaded
      case Err(e) => r := Err(e);
      case Ok(data) => r := ChapterFromData(data, book, chapter, translation);
    }

    /** `getOfflineBibleBooks`: the summaries of the loaded dataset, or none
        when loading fails. */
    method GetOfflineBibleBooks(translation: string, reply: DatasetReply)
      returns (books: seq<BookSummary>, fetched: Option<string>)
      modifies this
      ensures var step := Load(old(cache), translation, reply);
        cache == step.cache && fetched == step.fetched
        && books == (if step.result.Ok? then Summaries(step.result.value) else [])
    {
      var loaded;
      loaded, fetched := LoadBibleData(translation, reply);
      if loaded.Ok? {
        books := Summaries(loaded.value);
      } else {
        books := [];
      }
    }
  }

  // ---------------------------------------------------------------------
  // Offline availability
  // ---------------------------------------------------------------------

  /** `getAvailableOfflineTranslations`: two distinct names, KJV first. */
  function AvailableOfflineTranslations(): (r: seq<string>)
    ensures |r| == 2 && r[0] != r[1]
    ensures r[0] == "kjv" && r[1] == "web"
  {
    ["kjv", "web"]
  }

  /** `isTranslationAvailableOffline`: the lower-cased name is listed. */
  function IsTranslationAvailableOffline(translation: string): bool {
    ToLower(translation) in AvailableOfflineTranslations()
  }

  /** Availability ignores case, holds exactly for the two listed names in
      any case, and an available translation's lower-cased name selects its
      own file. */
  lemma AvailabilityMeaning(translation: string)
    ensures IsTranslationAvailableOffline(translation) <==> ToLower(translation) == "kjv" || ToLower(translation) == "web"
    ensures IsTranslationAvailableOffline(ToUpper(translation)) == IsTranslationAvailableOffline(translation)
    ensures IsTranslationAvailableOffline(translation) ==> DatasetFile(ToLower(translation)) == ToLower(translation) + ".json"
  {
    assert ToLower(ToUpper(translation)) == ToLower(translation);
  }

  /** The list holds exactly the names the availability check accepts as
      they are written (in lower case), and each listed name loads its own
      dataset file. */
  lemma AvailableListMeaning()
    ensures forall t :: t in AvailableOfflineTranslations() <==> IsTranslationAvailableOffline(t) && ToLower(t) == t
    ensures forall i :: 0 <= i < |AvailableOfflineTranslations()| ==>
      DatasetPath(AvailableOfflineTranslations()[i]) == "/data/bible/" + AvailableOfflineTranslations()[i] + ".json"
  {
    var r := AvailableOfflineTranslations();
    assert ToLower("kjv") == "kjv" && ToLower("web") == "web";
    forall t | IsTranslationAvailableOffline(t) && ToLower(t) == t
      ensures t in r
    {
    }
  }

  /** The file choice is case-sensitive while availability is not: "KJV" is
      available offline but loads the WEB dataset. */
  lemma UpperCaseKjvLoadsWeb()
    ensures IsTranslationAvailableOffline("KJV")
    ensures DatasetPath("KJV") == "/data/bible/web.json"
  {
    assert ToLower("KJV") == "kjv";
  }
}
