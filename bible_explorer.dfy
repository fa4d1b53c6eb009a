/** The Bible explorer screen: how a verse is shown, which selections it
    accepts, and how each user action changes the screen's state. Fetching
    a chapter and asking the assistant are not modelled here: what they
    returned is an input to the handler that awaited them. */
module BibleExplorer {
  import opened Wrappers
  import opened JsText
  import opened BibleTypes
  import opened BibleBooks
  import opened Prompts

  /** The length of the digit run at the front of `s`. */
  function DigitRun(s: string): (n: nat)
    ensures n <= |s|
    ensures forall k :: 0 <= k < n ==> IsDigit(s[k])
    ensures n < |s| ==> !IsDigit(s[n])
  {
    if s != [] && IsDigit(s[0]) then 1 + DigitRun(s[1..]) else 0
  }

  /** The length of the footnote marker `[` digits `]` at the front of `s`,
      or 0 when `s` does not start with one. */
  function MarkerAt(s: string): (n: nat)
    ensures n <= |s|
    ensures n > 0 ==> n >= 3 && s[0] == '['
  {
    if s != [] && s[0] == '[' then
      var d := DigitRun(s[1..]);
      if d >= 1 && d + 1 < |s| && s[d + 1] == ']' then d + 2 else 0
    else 0
  }

  /** The global replace of `/\[\d+\]/g` by nothing: scanning from the left,
      every marker found is dropped and the scan goes on after it. */
  function StripMarkers(s: string): (r: string)
    ensures |r| <= |s|
    decreases |s|
  {
    if s == [] then []
    else if MarkerAt(s) > 0 then StripMarkers(s[MarkerAt(s)..])
    else [s[0]] + StripMarkers(s[1..])
  }

  /** `verseText`: the verse with its footnote markers removed, trimmed. */
  function VerseText(verse: BibleVerse): string {
    Trim(StripMarkers(verse.text))
  }

  predicate NoBracket(s: string) {
    forall k :: 0 <= k < |s| ==> s[k] != '['
  }

  /** Text without `[` passes the replace unchanged, so its verse text is
      only trimmed. */
  lemma {:induction false} StripWithoutBracket(s: string)
    requires NoBracket(s)
    ensures StripMarkers(s) == s
    decreases |s|
  {
    if s != [] {
      StripWithoutBracket(s[1..]);
      assert [s[0]] + s[1..] == s;
    }
  }

  lemma VerseWithoutBracket(verse: BibleVerse)
    requires NoBracket(verse.text)
    ensures VerseText(verse) == Trim(verse.text)
  {
    StripWithoutBracket(verse.text);
  }

  /** The digit run of digits followed by a non-digit is exactly those
      digits. */
  lemma {:induction false} DigitRunOf(digits: string, rest: string)
    requires AllDigits(digits)
    requires rest != [] && !IsDigit(rest[0])
    ensures DigitRun(digits + rest) == |digits|
    decreases |digits|
  {
    if digits != [] {
      DigitRunOf(digits[1..], rest);
      assert (digits + rest)[1..] == digits[1..] + rest;
    }
  }

  /** A marker at the front is dropped as a whole. */
  lemma StripLeadingMarker(digits: string, rest: string)
    requires digits != [] && AllDigits(digits)
    ensures StripMarkers("[" + digits + "]" + rest) == StripMarkers(rest)
  {
    var s := "[" + digits + "]" + rest;
    assert s[1..] == digits + ("]" + rest);
    DigitRunOf(digits, "]" + rest);
    assert s[|digits| + 1] == ']';
    assert MarkerAt(s) == |digits| + 2;
    assert s[|digits| + 2..] == rest;
  }

  /** No marker starts at any of the first `n` positions of `s`; a `[`
      that opens no marker may stand there. */
  predicate NoMarkerBefore(s: string, n: nat)
    requires n <= |s|
  {
    forall k :: 0 <= k < n ==> MarkerAt(s[k..]) == 0
  }

  /** Text in which no marker starts is kept as it is before whatever
      follows it. */
  lemma {:induction false} StripKeepsPlainPrefix(plain: string, tail: string)
    requires NoMarkerBefore(plain + tail, |plain|)
    ensures StripMarkers(plain + tail) == plain + StripMarkers(tail)
    decreases |plain|
  {
    var s := plain + tail;
    if plain == [] {
      assert s == tail;
    } else {
      var t := plain[1..] + tail;
      assert MarkerAt(s) == 0 by {
        assert s[0..] == s;
      }
      assert s[1..] == t;
      forall k | 0 <= k < |plain| - 1
        ensures MarkerAt(t[k..]) == 0
      {
        assert t[k..] == s[k + 1..];
      }
      StripKeepsPlainPrefix(plain[1..], tail);
      assert StripMarkers(s) == [s[0]] + StripMarkers(t);
      HeadThenRest(plain, StripMarkers(tail));
    }
  }

  lemma HeadThenRest(a: string, b: string)
    requires a != []
    ensures [a[0]] + (a[1..] + b) == a + b
  {
    assert [a[0]] + a[1..] == a;
  }

  /** Plain text before a marker is kept and the marker is dropped:
      `"In the beginning[1] God"` shows as `"In the beginning God"`. */
  lemma StripAfterPlainText(plain: string, digits: string, rest: string)
    requires NoMarkerBefore(plain + "[" + digits + "]" + rest, |plain|)
    requires digits != [] && AllDigits(digits)
    ensures StripMarkers(plain + "[" + digits + "]" + rest) == plain + StripMarkers(rest)
  {
    assert plain + "[" + digits + "]" + rest == plain + ("[" + digits + "]" + rest);
    StripKeepsPlainPrefix(plain, "[" + digits + "]" + rest);
    StripLeadingMarker(digits, rest);
  }

  /** Text without `[` holds no marker start, whatever follows it. */
  lemma BracketFreeHasNoMarker(plain: string, tail: string)
    requires NoBracket(plain)
    ensures NoMarkerBefore(plain + tail, |plain|)
  {
    forall k | 0 <= k < |plain| ensures MarkerAt((plain + tail)[k..]) == 0 {
      assert (plain + tail)[k..][0] == plain[k];
    }
  }

  /** The replace is a single pass: a marker that only forms once an inner
      one is gone stays. */
  lemma SinglePass()
    ensures StripMarkers("[[1]2]") == "[2]"
  {
    var s := "[[1]2]";
    assert MarkerAt(s) == 0 by {
      assert s[1..][0] == '[';
    }
    assert s[1..] == "[" + "1" + "]" + "2]";
    StripLeadingMarker("1", "2]");
    StripWithoutBracket("2]");
  }

  /** `handleTextSelection`: the trimmed selection, when there is one and
      it is longer than five UTF-16 code units. */
  function AcceptSelection(raw: Option<string>): (r: Option<string>)
    ensures r.Some? <==> raw.Some? && Utf16Length(Trim(raw.value)) > 5
    ensures r.Some? ==> r.value == Trim(raw.value)
  {
    if raw.None? then None
    else
      var text := Trim(raw.value);
      if text != "" && Utf16Length(text) > 5 then Some(text) else None
  }

  datatype SortOrder = Chrono | Alpha

  datatype AnalysisKind = SummaryKind | CommentaryKind

  /** The chapter analysis shown under the text. */
  datatype ChapterAnalysis = ChapterAnalysis(kind: AnalysisKind, text: string, perspective: Option<Perspective>)

  /** The commentary on the selected excerpt. */
  datatype SelectionAnalysis = SelectionAnalysis(text: string, perspective: Perspective)

  /** The screen's state, one field per state hook (the loading flags of the
      two analyses included). */
  datatype ExplorerView = ExplorerView(
    sortOrder: SortOrder,
    selectedBook: Option<BibleBook>,
    selectedChapter: Option<int>,
    translation: Translation,
    chapterData: Option<BibleChapter>,
    isLoading: bool,
    error: Option<string>,
    chapterAnalysis: Option<ChapterAnalysis>,
    isChapterAnalysisLoading: bool,
    selectedText: Option<string>,
    selectionAnalysis: Option<SelectionAnalysis>,
    isSelectionAnalysisLoading: bool,
    chatInstance: Option<ScriptureChat>)

  const InitialView := ExplorerView(Chrono, None, None, Web, None, false, None, None, false, None, None, false, None)

  /** The book list shown: canonical order, or the sorted copy. */
  function Books(v: ExplorerView, le: (string, string) -> bool): seq<BibleBook>
    requires IsTotalPreorder(le)
  {
    if v.sortOrder == Chrono then ChronologicalBooks else AlphabeticalBooks(le)
  }

  function ToggleSort(v: ExplorerView): ExplorerView {
    v.(sortOrder := if v.sortOrder == Chrono then Alpha else Chrono)
  }

  /** Toggling twice restores the order, and toggling changes nothing but
      the order. */
  lemma ToggleSortTwice(v: ExplorerView)
    ensures ToggleSort(ToggleSort(v)) == v
    ensures ToggleSort(v).sortOrder != v.sortOrder && ToggleSort(v).(sortOrder := v.sortOrder) == v
  {
  }

  /** The message a failure is shown with: a prefix and the error's
      message, or a fixed text for anything that is not an `Error`. */
  function Shown(prefix: string, cause: Thrown, otherwise: string): string {
    match cause
    case Error(m) => prefix + m
    case NonError => otherwise
  }

  /** `handleSelectBook`. */
  function SelectBook(v: ExplorerView, book: BibleBook): ExplorerView {
    v.(selectedBook := Some(book), selectedChapter := None, chapterData := None, chapterAnalysis := None,
       chatInstance := None, selectedText := None, selectionAnalysis := None)
  }

  /** Selecting a book leaves nothing of the previous chapter behind. */
  lemma SelectBookLeavesNothingStale(v: ExplorerView, book: BibleBook)
    ensures var w := SelectBook(v, book);
      w.selectedBook == Some(book) && w.selectedChapter.None? && w.chapterData.None?
      && w.chapterAnalysis.None? && w.chatInstance.None? && w.selectedText.None? && w.selectionAnalysis.None?
      && w.sortOrder == v.sortOrder && w.translation == v.translation && w.error == v.error
  {
  }

  /** The request `handleSelectChapter` makes: the selected book's name, the
      chapter and the translation, or none without a selected book. */
  function ChapterRequest(v: ExplorerView, chapter: int, version: Translation): Option<(string, int, string)> {
    if v.selectedBook.None? then None else Some((v.selectedBook.value.name, chapter, version.Id()))
  }

  /** `handleSelectChapter(chapter, version)`, given what `fetchChapter`
      returned or threw. */
  function SelectChapter(v: ExplorerView, chapter: int, version: Translation, fetched: Result<BibleChapter, Thrown>): ExplorerView {
    if v.selectedBook.None? then v
    else
      var cleared := v.(error := None, chapterData := None, chapterAnalysis := None, chatInstance := None,
                        selectedText := None, selectionAnalysis := None, selectedChapter := Some(chapter));
      match fetched
      case Ok(data) => cleared.(chapterData := Some(data), isLoading := false)
      case Err(e) => cleared.(error := Some(Shown("", e, "An unknown error occurred.")), isLoading := false)
  }

  /** Without a book nothing happens. With one, the chapter is selected,
      everything derived from the old chapter is cleared, exactly one of the
      data and the error is set, and loading has ended. */
  lemma SelectChapterMeaning(v: ExplorerView, chapter: int, version: Translation, fetched: Result<BibleChapter, Thrown>)
    ensures v.selectedBook.None? ==> SelectChapter(v, chapter, version, fetched) == v
    ensures v.selectedBook.Some? ==>
      var w := SelectChapter(v, chapter, version, fetched);
      w.selectedChapter == Some(chapter) && !w.isLoading
      && w.chapterAnalysis.None? && w.chatInstance.None? && w.selectedText.None? && w.selectionAnalysis.None?
      && (w.chapterData.Some? <==> fetched.Ok?) && (w.error.Some? <==> fetched.Err?)
      && (fetched.Ok? ==> w.chapterData == Some(fetched.value))
      && (fetched.Err? && fetched.error.Error? ==> w.error == Some(fetched.error.message))
      && w.selectedBook == v.selectedBook && w.translation == v.translation && w.sortOrder == v.sortOrder
  {
    if fetched.Err? && fetched.error.Error? {
      assert "" + fetched.error.message == fetched.error.message;
    }
  }

  /** Whether changing the translation refetches: a book and a chapter
      other than 0 must be selected. */
  predicate Refetches(v: ExplorerView) {
    v.selectedBook.Some? && v.selectedChapter.Some? && v.selectedChapter.value != 0
  }

  /** `handleTranslationChange(newTranslation)`. */
  function ChangeTranslation(v: ExplorerView, t: Translation, fetched: Result<BibleChapter, Thrown>): ExplorerView {
    var w := v.(translation := t);
    if Refetches(v) then SelectChapter(w, v.selectedChapter.value, t, fetched) else w
  }

  /** The translation is always taken over; the chapter is reloaded in it
      exactly when one is on screen, and otherwise nothing else changes. */
  lemma ChangeTranslationMeaning(v: ExplorerView, t: Translation, fetched: Result<BibleChapter, Thrown>)
    ensures ChangeTranslation(v, t, fetched).translation == t
    ensures !Refetches(v) ==> ChangeTranslation(v, t, fetched) == v.(translation := t)
    ensures Refetches(v) ==>
      ChapterRequest(v.(translation := t), v.selectedChapter.value, t) == Some((v.selectedBook.value.name, v.selectedChapter.value, t.Id()))
      && ChangeTranslation(v, t, fetched).selectedChapter == v.selectedChapter
  {
  }

  /** The chapter analysis after a summary or commentary request, given
      what the assistant returned or threw. */
  function Analyse(v: ExplorerView, kind: AnalysisKind, perspective: Option<Perspective>,
                   prefix: string, outcome: Result<string, Thrown>): ExplorerView
    requires v.chapterData.Some?
  {
    var d := v.chapterData.value;
    var cleared := v.(chapterAnalysis := None, chatInstance := None);
    match outcome
    case Ok(text) =>
      cleared.(chapterAnalysis := Some(ChapterAnalysis(kind, text, perspective)),
               chatInstance := Some(CreateScriptureChat(d.reference, d.text)),
               isChapterAnalysisLoading := false)
    case Err(e) =>
      cleared.(error := Some(Shown(prefix, e, "Unknown error")), isChapterAnalysisLoading := false)
  }

  /** `handleSummarize`. */
  function Summarize(v: ExplorerView, outcome: Result<string, Thrown>): ExplorerView {
    if v.chapterData.None? then v
    else Analyse(v, SummaryKind, None, "Failed to get summary: ", outcome)
  }

  /** `handleChapterCommentary(perspective)`. */
  function CommentOnChapter(v: ExplorerView, p: Perspective, outcome: Result<string, Thrown>): ExplorerView {
    if v.chapterData.None? then v
    else Analyse(v, CommentaryKind, Some(p), "Failed to get commentary: ", outcome)
  }

  /** The summary and the commentary do nothing without a chapter. A
      success shows the analysis (a commentary with its perspective) and
      opens a chat bound to the chapter on screen; a failure shows an error
      and no chat. Loading has ended either way. */
  lemma AnalysisMeaning(v: ExplorerView, p: Perspective, outcome: Result<string, Thrown>, message: string)
    ensures v.chapterData.None? ==> Summarize(v, outcome) == v && CommentOnChapter(v, p, outcome) == v
    ensures v.chapterData.Some? && outcome.Ok? ==>
      var d, s, c := v.chapterData.value, Summarize(v, outcome), CommentOnChapter(v, p, outcome);
      s.chapterAnalysis == Some(ChapterAnalysis(SummaryKind, outcome.value, None))
      && c.chapterAnalysis == Some(ChapterAnalysis(CommentaryKind, outcome.value, Some(p)))
      && s.chatInstance.Some? && s.chatInstance.value.SendMessage(message) == ChatTurn(d.reference, d.text, message)
      && c.chatInstance == s.chatInstance
      && !s.isChapterAnalysisLoading && !c.isChapterAnalysisLoading
    ensures v.chapterData.Some? && outcome.Err? ==>
      var s, c := Summarize(v, outcome), CommentOnChapter(v, p, outcome);
      s.chapterAnalysis.None? && s.chatInstance.None? && s.error.Some?
      && c.chapterAnalysis.None? && c.chatInstance.None? && c.error.Some?
      && !s.isChapterAnalysisLoading && !c.isChapterAnalysisLoading
  {
  }

  /** `handleSelectionCommentary(perspective)`: nothing without a non-empty
      selection and a chapter. */
  function CommentOnSelection(v: ExplorerView, p: Perspective, outcome: Result<string, Thrown>): ExplorerView {
    if v.selectedText.None? || v.selectedText.value == "" || v.chapterData.None? then v
    else
      var cleared := v.(selectionAnalysis := None);
      match outcome
      case Ok(text) => cleared.(selectionAnalysis := Some(SelectionAnalysis(text, p)), isSelectionAnalysisLoading := false)
      case Err(e) =>
        cleared.(error := Some(Shown("Failed to get commentary for selection: ", e, "Unknown error")),
                 isSelectionAnalysisLoading := false)
  }

  /** `handleTextSelection`: an accepted selection replaces the old one and
      clears its commentary; any other selection changes nothing. */
  function TextSelection(v: ExplorerView, raw: Option<string>): ExplorerView {
    match AcceptSelection(raw)
    case None => v
    case Some(text) => v.(selectedText := Some(text), selectionAnalysis := None)
  }

  /** The request each analysis handler makes, or none when it does
      nothing. */
  function SummaryRequest(v: ExplorerView): Option<Intent> {
    if v.chapterData.None? then None else Some(Summary(v.chapterData.value.text, v.chapterData.value.reference))
  }

  function CommentaryRequest(v: ExplorerView, p: Perspective): Option<Intent> {
    if v.chapterData.None? then None
    else Some(Prompts.ChapterCommentary(v.chapterData.value.text, v.chapterData.value.reference, p))
  }

  function SelectionRequest(v: ExplorerView, p: Perspective): Option<Intent> {
    if v.selectedText.None? || v.selectedText.value == "" || v.chapterData.None? then None
    else Some(Prompts.SelectionCommentary(v.selectedText.value, v.chapterData.value.reference, p))
  }

  /** A selection commentary is asked for with the selected text as shown
      and the chapter's reference; a success records the perspective, and
      the chapter analysis and chat are never touched. */
  lemma SelectionCommentaryMeaning(v: ExplorerView, p: Perspective, outcome: Result<string, Thrown>)
    ensures SelectionRequest(v, p).None? ==> CommentOnSelection(v, p, outcome) == v
    ensures SelectionRequest(v, p).Some? ==>
      var w := CommentOnSelection(v, p, outcome);
      SelectionRequest(v, p).value.selection == v.selectedText.value
      && (outcome.Ok? ==> w.selectionAnalysis == Some(SelectionAnalysis(outcome.value, p)))
      && (outcome.Err? ==> w.selectionAnalysis.None? && w.error.Some?)
      && !w.isSelectionAnalysisLoading
      && w.chapterAnalysis == v.chapterAnalysis && w.chatInstance == v.chatInstance
      && w.selectedText == v.selectedText
  {
  }

  /** A selection is taken exactly when its trimmed form is longer than
      five code units; taking it clears the old selection's commentary. */
  lemma TextSelectionMeaning(v: ExplorerView, raw: Option<string>)
    ensures raw.Some? && Utf16Length(Trim(raw.value)) > 5 ==>
      TextSelection(v, raw) == v.(selectedText := Some(Trim(raw.value)), selectionAnalysis := None)
    ensures !(raw.Some? && Utf16Length(Trim(raw.value)) > 5) ==> TextSelection(v, raw) == v
  {
  }

  /** The explorer component: its state hooks as fields and its handlers
      as methods that set them in the order the handlers do. */
  class Explorer {
    var sortOrder: SortOrder
    var selectedBook: Option<BibleBook>
    var selectedChapter: Option<int>
    var translation: Translation
    var chapterData: Option<BibleChapter>
    var isLoading: bool
    var error: Option<string>
    var chapterAnalysis: Option<ChapterAnalysis>
    var isChapterAnalysisLoading: bool
    var selectedText: Option<string>
    var selectionAnalysis: Option<SelectionAnalysis>
    var isSelectionAnalysisLoading: bool
    var chatInstance: Option<ScriptureChat>

    function View(): ExplorerView
      reads this
    {
      ExplorerView(sortOrder, selectedBook, selectedChapter, translation, chapterData, isLoading, error,
                   chapterAnalysis, isChapterAnalysisLoading, selectedText, selectionAnalysis,
                   isSelectionAnalysisLoading, chatInstance)
    }

    constructor()
      ensures View() == InitialView
    {
      sortOrder := Chrono;
      selectedBook := None;
      selectedChapter := None;
      translation := Web;
      chapterData := None;
      isLoading := false;
      error := None;
      chapterAnalysis := None;
      isChapterAnalysisLoading := false;
      selectedText := None;
      selectionAnalysis := None;
      isSelectionAnalysisLoading := false;
      chatInstance := None;
    }

    method ToggleSortOrder()
      modifies this
      ensures View() == ToggleSort(old(View()))
    {
      sortOrder := if sortOrder == Chrono then Alpha else Chrono;
    }

    method HandleSelectBook(book: BibleBook)
      modifies this
      ensures View() == SelectBook(old(View()), book)
    {
      selectedBook := Some(book);
      selectedChapter := None;
      chapterData := None;
      chapterAnalysis := None;
      chatInstance := None;
      selectedText := None;
      selectionAnalysis := None;
    }

    /** Returns the request it makes (`None` when it makes none). */
    method HandleSelectChapter(chapter: int, version: Translation, fetched: Result<BibleChapter, Thrown>)
      returns (requested: Option<(string, int, string)>)
      modifies this
      ensures requested == ChapterRequest(old(View()), chapter, version)
      ensures View() == SelectChapter(old(View()), chapter, version, fetched)
    {
      if selectedBook.None? {
        return None;
      }
      isLoading := true;
      error := None;
      chapterData := None;
      chapterAnalysis := None;
      chatInstance := None;
      selectedText := None;
      selectionAnalysis := None;
      selectedChapter := Some(chapter);
      requested := Some((selectedBook.value.name, chapter, version.Id()));
      match fetched {
        case Ok(data) =>
          chapterData := Some(data);
        case Err(e) =>
          error := Some(Shown("", e, "An unknown error occurred."));
      }
      isLoading := false;
    }

    method HandleTranslationChange(t: Translation, fetched: Result<BibleChapter, Thrown>)
      returns (requested: Option<(string, int, string)>)
      modifies this
      ensures requested == if Refetches(old(View())) then ChapterRequest(old(View()), old(selectedChapter).value, t) else None
      ensures View() == ChangeTranslation(old(View()), t, fetched)
    {
      translation := t;
      requested := None;
      if selectedBook.Some? && selectedChapter.Some? && selectedChapter.value != 0 {
        requested := HandleSelectChapter(selectedChapter.value, t, fetched);
      }
    }

    /** The analysis handlers return the request they make. */
    method HandleSummarize(outcome: Result<string, Thrown>) returns (requested: Option<Intent>)
      modifies this
      ensures requested == SummaryRequest(old(View()))
      ensures View() == Summarize(old(View()), outcome)
    {
      if chapterData.None? {
        return None;
      }
      var data := chapterData.value;
      isChapterAnalysisLoading := true;
      chapterAnalysis := None;
      chatInstance := None;
      requested := Some(Summary(data.text, data.reference));
      match outcome {
        case Ok(summary) =>
          chapterAnalysis := Some(ChapterAnalysis(SummaryKind, summary, None));
          chatInstance := Some(CreateScriptureChat(data.reference, data.text));
        case Err(e) =>
          error := Some(Shown("Failed to get summary: ", e, "Unknown error"));
      }
      isChapterAnalysisLoading := false;
    }

    method HandleChapterCommentary(p: Perspective, outcome: Result<string, Thrown>) returns (requested: Option<Intent>)
      modifies this
      ensures requested == CommentaryRequest(old(View()), p)
      ensures View() == CommentOnChapter(old(View()), p, outcome)
    {
      if chapterData.None? {
        return None;
      }
      var data := chapterData.value;
      isChapterAnalysisLoading := true;
      chapterAnalysis := None;
      chatInstance := None;
      requested := Some(Prompts.ChapterCommentary(data.text, data.reference, p));
      match outcome {
        case Ok(commentary) =>
          chapterAnalysis := Some(ChapterAnalysis(CommentaryKind, commentary, Some(p)));
          chatInstance := Some(CreateScriptureChat(data.reference, data.text));
        case Err(e) =>
          error := Some(Shown("Failed to get commentary: ", e, "Unknown error"));
      }
      isChapterAnalysisLoading := false;
    }

    method HandleTextSelection(raw: Option<string>)
      modifies this
      ensures View() == TextSelection(old(View()), raw)
    {
      var text := if raw.Some? then Some(Trim(raw.value)) else None;
      if text.Some? && text.value != "" && Utf16Length(text.value) > 5 {
        selectedText := text;
        selectionAnalysis := None;
      }
    }

    method HandleSelectionCommentary(p: Perspective, outcome: Result<string, Thrown>) returns (requested: Option<Intent>)
      modifies this
      ensures requested == SelectionRequest(old(View()), p)
      ensures View() == CommentOnSelection(old(View()), p, outcome)
    {
      if selectedText.None? || selectedText.value == "" || chapterData.None? {
        return None;
      }
      isSelectionAnalysisLoading := true;
      selectionAnalysis := None;
      requested := Some(Prompts.SelectionCommentary(selectedText.value, chapterData.value.reference, p));
      match outcome {
        case Ok(commentary) =>
          selectionAnalysis := Some(SelectionAnalysis(commentary, p));
        case Err(e) =>
          error := Some(Shown("Failed to get commentary for selection: ", e, "Unknown error"));
      }
      isSelectionAnalysisLoading := false;
    }
  }
}
