/** The persistent memory of the reader and of the study page: two records
    kept under two fixed keys of the browser's key-value storage, each with
    a bounded chat history. */
module Memory {
  import opened Wrappers

  const BibleMemoryKey := "f3-bible-study-memory"
  const StudyMemoryKey := "f3-study-memory"

  /** How many chat messages a record keeps. */
  const HistoryLimit: nat := 50

  /** A field that may be missing, explicitly null, or set. */
  datatype Slot<+T> = Unset | Null | Set(value: T)

  datatype Role = UserRole | AssistantRole

  datatype ChatEntry = ChatEntry(role: Role, content: string, timestamp: string)

  datatype AnalysisKind = SummaryAnalysis | CommentaryAnalysis

  datatype ChapterAnalysis = ChapterAnalysis(
    kind: AnalysisKind, text: string, perspective: Option<string>,
    bookName: string, chapter: int, translation: string)

  datatype SelectionAnalysis = SelectionAnalysis(
    text: string, perspective: string, selectedText: string, bookName: string, chapter: int)

  datatype StudyResponse = StudyResponse(response: string, sources: Option<seq<string>>, timestamp: string)

  /** What the reader remembers between sessions. */
  datatype BibleMemoryState = BibleMemoryState(
    lastBook: Option<string>,
    lastChapter: Option<int>,
    lastTranslation: Option<string>,
    chapterAnalysis: Slot<ChapterAnalysis>,
    selectionAnalysis: Slot<SelectionAnalysis>,
    chatHistory: Option<seq<ChatEntry>>)

  /** What the study page remembers between sessions. */
  datatype StudyMemoryState = StudyMemoryState(
    lastQuery: Option<string>,
    lastResponse: Slot<StudyResponse>,
    chatHistory: Option<seq<ChatEntry>>)

  const EmptyBibleState := BibleMemoryState(None, None, None, Unset, Unset, None)
  const EmptyStudyState := StudyMemoryState(None, Unset, None)

  /** A stored value: a record as one of the two save operations wrote it,
      or text that does not parse. */
  datatype Blob = BibleBlob(bible: BibleMemoryState) | StudyBlob(study: StudyMemoryState) | Unparsable

  /** The Bible record a storage holds: the parsed value under its key, or
      the empty record when the key is missing or its value does not parse.
      A study record found there is read for the one field both shapes share. */
  function BibleView(items: map<string, Blob>): BibleMemoryState {
    if BibleMemoryKey !in items then EmptyBibleState
    else
      match items[BibleMemoryKey]
      case BibleBlob(b) => b
      case StudyBlob(s) => EmptyBibleState.(chatHistory := s.chatHistory)
      case Unparsable => EmptyBibleState
  }

  /** The study record a storage holds, read in the same way. */
  function StudyView(items: map<string, Blob>): StudyMemoryState {
    if StudyMemoryKey !in items then EmptyStudyState
    else
      match items[StudyMemoryKey]
      case StudyBlob(s) => s
      case BibleBlob(b) => EmptyStudyState.(chatHistory := b.chatHistory)
      case Unparsable => EmptyStudyState
  }

  /** The newest `HistoryLimit` messages of a history, in order. */
  function KeepNewest(history: seq<ChatEntry>): (r: seq<ChatEntry>)
    ensures |r| == if |history| > HistoryLimit then HistoryLimit else |history|
    ensures r == history[|history| - |r|..]
  {
    if |history| > HistoryLimit then history[|history| - HistoryLimit..] else history
  }

  /** Appending one message and trimming keeps the history bounded, ends it
      with the new message, and keeps the newest of the old ones before it in
      their order. */
  lemma AppendBounded(history: seq<ChatEntry>, entry: ChatEntry)
    ensures var r := KeepNewest(history + [entry]);
      |r| == (if |history| + 1 > HistoryLimit then HistoryLimit else |history| + 1)
      && r[|r| - 1] == entry
      && r[..|r| - 1] == history[|history| + 1 - |r|..]
  {
    var r := KeepNewest(history + [entry]);
    assert r == (history + [entry])[|history| + 1 - |r|..];
    assert r[..|r| - 1] == history[|history| + 1 - |r|..];
  }

  /** A history that is within the bound when a message is added loses
      nothing. */
  lemma AppendBelowLimit(history: seq<ChatEntry>, entry: ChatEntry)
    requires |history| < HistoryLimit
    ensures KeepNewest(history + [entry]) == history + [entry]
  {
  }

  /** A record's history after one message is added: its history, or none
      when it has none yet, with the message appended and trimmed. */
  function Appended(history: Option<seq<ChatEntry>>, entry: ChatEntry): seq<ChatEntry> {
    KeepNewest(history.GetOr([]) + [entry])
  }

  /** Adding a message changes nothing but the history. */
  lemma AddingKeepsOtherFields(state: BibleMemoryState, study: StudyMemoryState, entry: ChatEntry)
    ensures var b := state.(chatHistory := Some(Appended(state.chatHistory, entry)));
      b.lastBook == state.lastBook && b.lastChapter == state.lastChapter
      && b.lastTranslation == state.lastTranslation && b.chapterAnalysis == state.chapterAnalysis
      && b.selectionAnalysis == state.selectionAnalysis
    ensures var s := study.(chatHistory := Some(Appended(study.chatHistory, entry)));
      s.lastQuery == study.lastQuery && s.lastResponse == study.lastResponse
  {
  }

  /** A saved record is what the next load returns, and saving one record
      leaves the other as it was. */
  lemma LoadAfterSave(items: map<string, Blob>, bible: BibleMemoryState, study: StudyMemoryState)
    ensures BibleView(items[BibleMemoryKey := BibleBlob(bible)]) == bible
    ensures StudyView(items[BibleMemoryKey := BibleBlob(bible)]) == StudyView(items)
    ensures StudyView(items[StudyMemoryKey := StudyBlob(study)]) == study
    ensures BibleView(items[StudyMemoryKey := StudyBlob(study)]) == BibleView(items)
  {
  }

  /** A cleared record loads as the empty record, and clearing one record
      leaves the other as it was. */
  lemma LoadAfterClear(items: map<string, Blob>)
    ensures BibleView(items - {BibleMemoryKey}) == EmptyBibleState
    ensures StudyView(items - {BibleMemoryKey}) == StudyView(items)
    ensures StudyView(items - {StudyMemoryKey}) == EmptyStudyState
    ensures BibleView(items - {StudyMemoryKey}) == BibleView(items)
  {
  }

  /** `MemoryService` over the browser storage `items`. Every storage call can
      fail (storage disabled, quota exceeded); each operation takes a flag
      saying whether it did, and a failure is swallowed: it changes nothing
      and is not reported. */
  class MemoryService {
    var items: map<string, Blob>

    constructor(initial: map<string, Blob>)
      ensures items == initial
    {
      items := initial;
    }

    method SaveBibleState(state: BibleMemoryState, fails: bool)
      modifies this
      ensures items == if fails then old(items) else old(items)[BibleMemoryKey := BibleBlob(state)]
    {
      if !fails {
        items := items[BibleMemoryKey := BibleBlob(state)];
      }
    }

    method LoadBibleState(fails: bool) returns (state: BibleMemoryState)
      ensures fails ==> state == EmptyBibleState
      ensures !fails ==> state == BibleView(items)
    {
      if fails {
        return EmptyBibleState;
      }
      state := BibleView(items);
    }

    method ClearBibleState(fails: bool)
      modifies this
      ensures items == if fails then old(items) else old(items) - {BibleMemoryKey}
    {
      if !fails {
        items := items - {BibleMemoryKey};
      }
    }

    method SaveStudyState(state: StudyMemoryState, fails: bool)
      modifies this
      ensures items == if fails then old(items) else old(items)[StudyMemoryKey := StudyBlob(state)]
    {
      if !fails {
        items := items[StudyMemoryKey := StudyBlob(state)];
      }
    }

    method LoadStudyState(fails: bool) returns (state: StudyMemoryState)
      ensures fails ==> state == EmptyStudyState
      ensures !fails ==> state == StudyView(items)
    {
      if fails {
        return EmptyStudyState;
      }
      state := StudyView(items);
    }

    method ClearStudyState(fails: bool)
      modifies this
      ensures items == if fails then old(items) else old(items) - {StudyMemoryKey}
    {
      if !fails {
        items := items - {StudyMemoryKey};
      }
    }

    /** `addBibleChatMessage`: load the record (the empty one if loading
        fails), append the message stamped `now`, keep the newest fifty, and
        save the record with every other field as loaded. */
    method AddBibleChatMessage(role: Role, content: string, now: string, loadFails: bool, saveFails: bool)
      modifies this
      ensures var current := if loadFails then EmptyBibleState else BibleView(old(items));
        var entry := ChatEntry(role, content, now);
        items == if saveFails then old(items)
                 else old(items)[BibleMemoryKey := BibleBlob(current.(chatHistory := Some(Appended(current.chatHistory, entry))))]
    {
      var current := LoadBibleState(loadFails);
      var history := current.chatHistory.GetOr([]);
      history := history + [ChatEntry(role, content, now)];
      if |history| > HistoryLimit {
        history := history[|history| - HistoryLimit..];
      }
      SaveBibleState(current.(chatHistory := Some(history)), saveFails);
    }

    /** `addStudyChatMessage`: the same on the study record. */
    method AddStudyChatMessage(role: Role, content: string, now: string, loadFails: bool, saveFails: bool)
      modifies this
      ensures var current := if loadFails then EmptyStudyState else StudyView(old(items));
        var entry := ChatEntry(role, content, now);
        items == if saveFails then old(items)
                 else old(items)[StudyMemoryKey := StudyBlob(current.(chatHistory := Some(Appended(current.chatHistory, entry))))]
    {
      var current := LoadStudyState(loadFails);
      var history := current.chatHistory.GetOr([]);
      history := history + [ChatEntry(role, content, now)];
      if |history| > HistoryLimit {
        history := history[|history| - HistoryLimit..];
      }
      SaveStudyState(current.(chatHistory := Some(history)), saveFails);
    }
  }

  /** Adding a Bible chat message, then loading, gives the old history with
      the message appended and trimmed; the study record is untouched. */
  lemma AddBibleMessageThenLoad(items: map<string, Blob>, entry: ChatEntry)
    ensures var current := BibleView(items);
      var after := items[BibleMemoryKey := BibleBlob(current.(chatHistory := Some(Appended(current.chatHistory, entry))))];
      BibleView(after).chatHistory == Some(KeepNewest(current.chatHistory.GetOr([]) + [entry]))
      && StudyView(after) == StudyView(items)
  {
    var current := BibleView(items);
    LoadAfterSave(items, current.(chatHistory := Some(Appended(current.chatHistory, entry))), EmptyStudyState);
  }

  /** Adding a study chat message, then loading, gives the old history with
      the message appended and trimmed; the Bible record is untouched. */
  lemma AddStudyMessageThenLoad(items: map<string, Blob>, entry: ChatEntry)
    ensures var current := StudyView(items);
      var after := items[StudyMemoryKey := StudyBlob(current.(chatHistory := Some(Appended(current.chatHistory, entry))))];
      StudyView(after).chatHistory == Some(KeepNewest(current.chatHistory.GetOr([]) + [entry]))
      && BibleView(after) == BibleView(items)
  {
    var current := StudyView(items);
    LoadAfterSave(items, EmptyBibleState, current.(chatHistory := Some(Appended(current.chatHistory, entry))));
  }
}
