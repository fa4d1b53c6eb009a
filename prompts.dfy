/** The prompt templates and fixed texts both study-assistant clients
    share, and the five things a caller can ask them for. */
module Prompts {
  import opened Wrappers
  import opened BibleTypes

  /** A request to the study assistant, with what its prompt is built from. */
  datatype Intent =
    | Insight(query: string)
    | Summary(chapterText: string, reference: string)
    | ChapterCommentary(chapterText: string, reference: string, perspective: Perspective)
    | SelectionCommentary(selection: string, reference: string, perspective: Perspective)
    | ChatTurn(reference: string, chapterText: string, message: string)

  /** The chat object `createScriptureChat` returns: it remembers the
      chapter it was made for and nothing else, so every message becomes a
      request of its own. */
  datatype ScriptureChat = ScriptureChat(reference: string, chapterText: string) {
    function SendMessage(message: string): (i: Intent)
      ensures i.ChatTurn? && i.message == message
      ensures i.reference == reference && i.chapterText == chapterText
    {
      ChatTurn(reference, chapterText, message)
    }
  }

  function CreateScriptureChat(reference: string, chapterText: string): (chat: ScriptureChat)
    ensures chat.reference == reference && chat.chapterText == chapterText
  {
    ScriptureChat(reference, chapterText)
  }

  /** The requests a chat sends for the messages given to it one after
      another. */
  function Conversation(chat: ScriptureChat, messages: seq<string>): seq<Intent> {
    seq(|messages|, i requires 0 <= i < |messages| => chat.SendMessage(messages[i]))
  }

  /** A chat keeps no transcript: a message's request does not depend on
      the messages sent before it, and is the one it would be as the first. */
  lemma ChatHasNoMemory(reference: string, chapterText: string, earlier: seq<string>, message: string)
    ensures var chat := CreateScriptureChat(reference, chapterText);
      var turns := Conversation(chat, earlier + [message]);
      |turns| == |earlier| + 1
      && turns[|earlier|] == Conversation(chat, [message])[0]
      && turns[|earlier|] == ChatTurn(reference, chapterText, message)
  {
  }

  const InsightOpening := "Considering the perspectives of prominent Christian theologians and voices from the 19th, 20th, and 21st centuries (such as C.S. Lewis, Karl Barth, Dietrich Bonhoeffer, Tim Keller, John Stott, etc.), please provide a comprehensive and well-reasoned response to the following topic. \n\nWhen possible, cite specific sources or references to support your points. Topic: "

  const InsightClosing := "\n\nPlease format your response in a clear, structured manner with theological insights and practical applications."

  /** The theological-insight prompt: the topic in double quotes between a
      fixed opening and closing. */
  function InsightPrompt(query: string): string {
    InsightOpening + "\"" + query + "\"" + InsightClosing
  }

  const SummaryOpening := "Please provide a concise summary of the following biblical passage: "

  const SummaryMiddle := ". Do not add any conversational fluff before or after the summary. Just provide the summary.\n\n"

  function SummaryPrompt(chapterText: string, reference: string): string {
    SummaryOpening + reference + SummaryMiddle + chapterText
  }

  const CatholicPrompt := "Drawing from Catholic tradition, saints, and Church Fathers, provide a theological commentary on the passage. Focus on sacramental, covenantal, and Christological themes."

  const EnduringWordPrompt := "In the style of a clear, verse-by-verse evangelical commentary like David Guzik's Enduring Word, explain the meaning and application of the passage."

  const HistoricalPrompt := "Provide a theological commentary on the passage from the perspective of a key historical theologian (like Augustine, Aquinas, Luther, Calvin, or Wesley). Name the theologian and explain their likely interpretation based on their known theological commitments."

  /** `perspectivePrompts`: the instruction each commentary tradition
      begins with. */
  function PerspectivePrompt(p: Perspective): string {
    match p
    case Catholic => CatholicPrompt
    case EnduringWord => EnduringWordPrompt
    case Historical => HistoricalPrompt
  }

  function ChapterCommentaryPrompt(chapterText: string, reference: string, p: Perspective): string {
    PerspectivePrompt(p) + "\n\nHere is the full chapter of " + reference + " for context:\n\n" + chapterText
  }

  function SelectionCommentaryPrompt(selection: string, reference: string, p: Perspective): string {
    PerspectivePrompt(p) + "\n\nHere is the selected text from " + reference + ":\n\n\"" + selection + "\""
  }

  /** What is placed between `before` and `after` can be read back. */
  lemma Between(before: string, x: string, after: string)
    ensures var s := before + x + after;
      |s| == |before| + |x| + |after| && s[|before|..|before| + |x|] == x
      && s[..|before|] == before && s[|before| + |x|..] == after
  {
    var s := before + x + after;
    assert s[|before|..|before| + |x|] == x;
    assert s[|before| + |x|..] == after;
  }

  /** Appending never changes a prefix. */
  lemma PrefixKept(a: string, b: string, k: nat)
    requires k <= |a|
    ensures (a + b)[..k] == a[..k]
  {
  }

  /** A text's first characters survive any three appends. */
  lemma HeadOfFive(head: string, intro: string, b: string, c: string, d: string, k: nat)
    requires k <= |head + intro|
    ensures |head + intro + b + c + d| >= k && (head + intro + b + c + d)[..k] == (head + intro)[..k]
  {
    PrefixKept(head + intro, b, k);
    PrefixKept(head + intro + b, c, k);
    PrefixKept(head + intro + b + c, d, k);
  }

  /** A text's first characters survive any four appends. */
  lemma HeadOfSix(head: string, intro: string, b: string, c: string, d: string, e: string, k: nat)
    requires k <= |head + intro|
    ensures |head + intro + b + c + d + e| >= k && (head + intro + b + c + d + e)[..k] == (head + intro)[..k]
  {
    HeadOfFive(head, intro, b, c, d, k);
    PrefixKept(head + intro + b + c + d, e, k);
  }

  /** The instruction followed by the first two characters of what comes
      after it. */
  lemma HeadThenTwo(head: string, intro: string)
    requires |intro| >= 2
    ensures (head + intro)[..|head| + 2] == head + intro[..2]
  {
    assert (head + intro)[..|head| + 2] == head + intro[..2];
  }

  /** Either commentary prompt begins with its tradition's instruction
      followed by a blank line. */
  lemma CommentaryStartsWithPerspective(text: string, reference: string, p: Perspective)
    ensures var c := ChapterCommentaryPrompt(text, reference, p);
      |c| >= |PerspectivePrompt(p)| + 2 && c[..|PerspectivePrompt(p)| + 2] == PerspectivePrompt(p) + "\n\n"
    ensures var s := SelectionCommentaryPrompt(text, reference, p);
      |s| >= |PerspectivePrompt(p)| + 2 && s[..|PerspectivePrompt(p)| + 2] == PerspectivePrompt(p) + "\n\n"
  {
    var head := PerspectivePrompt(p);
    var n := |head| + 2;
    var chapterIntro, selectionIntro := "\n\nHere is the full chapter of ", "\n\nHere is the selected text from ";
    assert chapterIntro[..2] == "\n\n" && selectionIntro[..2] == "\n\n";
    HeadOfFive(head, chapterIntro, reference, " for context:\n\n", text, n);
    HeadThenTwo(head, chapterIntro);
    HeadOfSix(head, selectionIntro, reference, ":\n\n\"", text, "\"", n);
    HeadThenTwo(head, selectionIntro);
  }

  /** The selection commentary prompt ends with the excerpt, unchanged,
      wrapped in double quotes. */
  lemma SelectionIsQuoted(selection: string, reference: string, p: Perspective)
    ensures var s := SelectionCommentaryPrompt(selection, reference, p);
      |s| >= |selection| + 2
      && s[|s| - |selection| - 2] == '"' && s[|s| - 1] == '"'
      && s[|s| - |selection| - 1..|s| - 1] == selection
  {
    var head := PerspectivePrompt(p) + "\n\nHere is the selected text from " + reference + ":\n\n";
    Between(head + "\"", selection, "\"");
  }

  /** The topic of an insight prompt can be read back from it: it stands
      in double quotes right after the fixed opening. */
  lemma InsightTopicRecoverable(query: string)
    ensures var r, n := InsightPrompt(query), |InsightOpening|;
      |r| == n + |query| + 2 + |InsightClosing|
      && r[n] == '"' && r[n + 1..n + 1 + |query|] == query && r[n + 1 + |query|] == '"'
  {
    Between(InsightOpening + "\"", query, "\"" + InsightClosing);
  }

  /** A summary prompt names the passage and ends with the chapter text. */
  lemma SummaryCarriesPassage(chapterText: string, reference: string)
    ensures var r := SummaryPrompt(chapterText, reference);
      r[|SummaryOpening|..|SummaryOpening| + |reference|] == reference
      && r[|r| - |chapterText|..] == chapterText
  {
    Between(SummaryOpening, reference, SummaryMiddle + chapterText);
    Between(SummaryOpening + reference + SummaryMiddle, chapterText, "");
  }

  /** The two sources every theological answer is shown with. */
  const FixedSources: seq<Source> := [
    Source("https://www.esv.org/", "ESV Bible Online"),
    Source("https://www.biblegateway.com/", "Bible Gateway")
  ]

  /** System messages that the completion requests open with. */
  const TheologianSystem := "You are a knowledgeable Christian theologian and Bible scholar. Provide thoughtful, well-researched responses about biblical and theological topics, drawing from various Christian traditions and scholarly sources."

  const ScholarSystem := "You are a Bible scholar. Provide clear, concise summaries of biblical passages."

  const CommentatorSystem := "You are a skilled biblical commentator with deep knowledge of various Christian theological traditions."
}
