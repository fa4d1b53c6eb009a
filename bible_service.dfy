/** The remote chapter source (`fetchChapter`): one request to the public
    Bible API per call, with no cache in front of it, and failures reported
    under one fixed prefix. The `fetch` itself is not modelled: what it
    produced is an input. */
module BibleService {
  import opened Wrappers
  import opened JsText
  import UriComponent
  import opened BibleTypes

  const ApiBaseUrl := "https://bible-api.com"

  /** The URL a chapter is requested from. The book and the translation are
      percent-encoded, so neither can contain the `+` or `?` that delimit
      them. */
  function ChapterUrl(book: string, chapter: int, translation: string): string {
    ApiBaseUrl + "/" + UriComponent.Encode(book) + "+" + IntToString(chapter)
    + "?translation=" + UriComponent.Encode(translation)
  }

  /** The first position of `c` in `s`. */
  function FirstIndex(s: string, c: char): (r: Option<nat>)
    ensures r.Some? ==> r.value < |s| && s[r.value] == c && forall k :: 0 <= k < r.value ==> s[k] != c
    ensures r.None? ==> forall k :: 0 <= k < |s| ==> s[k] != c
  {
    if s == [] then None
    else if s[0] == c then Some(0)
    else
      match FirstIndex(s[1..], c)
      case None => None
      case Some(i) => Some(i + 1)
  }

  /** A character not found in `a` is first found right after it. */
  lemma FirstIndexAfter(a: string, c: char, b: string)
    requires forall k :: 0 <= k < |a| ==> a[k] != c
    ensures FirstIndex(a + [c] + b, c) == Some(|a|)
  {
    var s := a + [c] + b;
    assert s[|a|] == c;
    forall k | 0 <= k < |a|
      ensures s[k] != c
    {
      assert s[k] == a[k];
    }
  }

  const TranslationParam := "translation="

  /** A reader for chapter URLs: the book, the chapter and the translation
      they were built from, or `None` for any other string. */
  function ParseChapterUrl(url: string): Option<(string, int, string)> {
    var head := ApiBaseUrl + "/";
    if |url| < |head| || url[..|head|] != head then None
    else ParsePath(url[|head|..])
  }

  /** What follows the base URL: the encoded book up to the first `+`. */
  function ParsePath(rest: string): Option<(string, int, string)> {
    match FirstIndex(rest, '+')
    case None => None
    case Some(i) =>
      var book, query := UriComponent.Decode(rest[..i]), ParseQuery(rest[i + 1..]);
      if book.Some? && query.Some? then Some((book.value, query.value.0, query.value.1)) else None
  }

  /** What follows the `+`: the chapter up to the first `?`, then the
      translation parameter. */
  function ParseQuery(tail: string): Option<(int, string)> {
    match FirstIndex(tail, '?')
    case None => None
    case Some(j) =>
      var query := tail[j + 1..];
      if |query| < |TranslationParam| || query[..|TranslationParam|] != TranslationParam then None
      else
        var chapter, translation := ParseInt(tail[..j]), UriComponent.Decode(query[|TranslationParam|..]);
        if chapter.Some? && translation.Some? then Some((chapter.value, translation.value)) else None
  }

  lemma EncodedHasNo(s: string, c: char)
    requires c == '+' || c == '?'
    ensures forall k :: 0 <= k < |UriComponent.Encode(s)| ==> UriComponent.Encode(s)[k] != c
  {
  }

  lemma ParseQueryParts(n: string, et: string)
    requires forall k :: 0 <= k < |n| ==> n[k] != '?'
    ensures ParseQuery(n + "?" + (TranslationParam + et)) ==
      var chapter, translation := ParseInt(n), UriComponent.Decode(et);
      if chapter.Some? && translation.Some? then Some((chapter.value, translation.value)) else None
  {
    var query := TranslationParam + et;
    var tail := n + "?" + query;
    FirstIndexAfter(n, '?', query);
    assert tail[..|n|] == n && tail[|n| + 1..] == query;
    assert query[..|TranslationParam|] == TranslationParam && query[|TranslationParam|..] == et;
  }

  lemma ParsePathParts(eb: string, tail: string)
    requires forall k :: 0 <= k < |eb| ==> eb[k] != '+'
    ensures ParsePath(eb + "+" + tail) ==
      var book, query := UriComponent.Decode(eb), ParseQuery(tail);
      if book.Some? && query.Some? then Some((book.value, query.value.0, query.value.1)) else None
  {
    var rest := eb + "+" + tail;
    FirstIndexAfter(eb, '+', tail);
    assert rest[..|eb|] == eb && rest[|eb| + 1..] == tail;
  }

  lemma ParseUrlParts(rest: string)
    ensures ParseChapterUrl(ApiBaseUrl + "/" + rest) == ParsePath(rest)
  {
    var head := ApiBaseUrl + "/";
    assert (head + rest)[..|head|] == head && (head + rest)[|head|..] == rest;
  }

  /** The URL names exactly the book, chapter and translation asked for:
      they can be read back from it, so two different requests never share
      a URL. */
  lemma ChapterUrlRoundTrip(book: string, chapter: int, translation: string)
    ensures ParseChapterUrl(ChapterUrl(book, chapter, translation)) == Some((book, chapter, translation))
  {
    var eb := UriComponent.Encode(book);
    var tail := IntToString(chapter) + "?" + (TranslationParam + UriComponent.Encode(translation));
    ChapterUrlShape(book, chapter, translation);
    EncodedHasNo(book, '+');
    ParseUrlParts(eb + "+" + tail);
    ParsePathParts(eb, tail);
    UriComponent.DecodeEncode(book);
    QueryRoundTrip(chapter, translation);
  }

  /** The chapter URL regrouped as the reader takes it apart. */
  lemma ChapterUrlShape(book: string, chapter: int, translation: string)
    ensures ChapterUrl(book, chapter, translation) == ApiBaseUrl + "/"
      + (UriComponent.Encode(book) + "+" + (IntToString(chapter) + "?" + (TranslationParam + UriComponent.Encode(translation))))
  {
    assert "?" + TranslationParam == "?translation=";
    Regroup(ApiBaseUrl + "/", UriComponent.Encode(book), "+", IntToString(chapter), "?", TranslationParam,
            UriComponent.Encode(translation));
  }

  lemma Regroup(a: string, x: string, p: string, n: string, q1: string, q2: string, t: string)
    ensures a + x + p + n + (q1 + q2) + t == a + (x + p + (n + q1 + (q2 + t)))
  {
  }

  /** The chapter and the translation can be read back from the part of the
      URL after the `+`. */
  lemma QueryRoundTrip(chapter: int, translation: string)
    ensures ParseQuery(IntToString(chapter) + "?" + (TranslationParam + UriComponent.Encode(translation)))
      == Some((chapter, translation))
  {
    IntToStringChars(chapter);
    ParseQueryParts(IntToString(chapter), UriComponent.Encode(translation));
    UriComponent.DecodeEncode(translation);
    IntToStringRoundTrip(chapter);
  }

  /** `response.json()` as far as the client reads it: a chapter, or an
      object whose `error` field is kept (`None` when absent). */
  datatype ParsedBody = ChapterBody(chapter: BibleChapter) | ErrorBody(error: Option<string>)

  /** What `fetch` produced: a failure before any response, or a response
      with its `ok` flag, its status and its body, parsed or the parser's
      error. */
  datatype ChapterReply =
    | Unreachable(failure: Thrown)
    | Received(ok: bool, status: int, body: Result<ParsedBody, Thrown>)

  const LoadPrefix := "Could not load chapter. "
  const FetchPrefix := "Failed to fetch chapter: "
  const UnknownFailure := "An unknown error occurred while fetching Bible data."

  /** The message of a refused request: the body's `error` when the body
      parses and has a non-empty one, the status otherwise. */
  function RefusalMessage(status: int, body: Result<ParsedBody, Thrown>): string {
    var reported := if body.Ok? && body.value.ErrorBody? then body.value.error else None;
    OrElse(reported, "HTTP error! status: " + IntToString(status))
  }

  /** How the catch block rethrows. */
  function Rethrown(cause: Thrown): Thrown {
    match cause
    case Error(m) => Error(LoadPrefix + m)
    case NonError => Error(UnknownFailure)
  }

  lemma RethrownMeaning(cause: Thrown)
    ensures Rethrown(cause).Error?
    ensures Rethrown(cause).message != UnknownFailure ==>
      |Rethrown(cause).message| >= |LoadPrefix| && Rethrown(cause).message[..|LoadPrefix|] == LoadPrefix
  {
    if cause.Error? {
      assert (LoadPrefix + cause.message)[..|LoadPrefix|] == LoadPrefix;
    }
  }

  /** `fetchChapter(book, chapter, translation)`: the URL it requests and
      what it returns or throws, given what the request produced. */
  function FetchChapter(book: string, chapter: int, translation: string, reply: ChapterReply):
    (r: (string, Result<ParsedBody, Thrown>))
    ensures r.0 == ChapterUrl(book, chapter, translation)
  {
    var url := ChapterUrl(book, chapter, translation);
    match reply
    case Unreachable(e) => (url, Err(Rethrown(e)))
    case Received(ok, status, body) =>
      if !ok then (url, Err(Rethrown(Error(FetchPrefix + RefusalMessage(status, body)))))
      else
        match body
        case Err(e) => (url, Err(Rethrown(e)))
        case Ok(data) => (url, Ok(data))
  }

  /** A success returns the parsed body unchanged; every failure is one
      `Error`, whose message is the underlying message after exactly one
      fixed prefix, or the fixed unknown-error text. */
  lemma FetchChapterMeaning(book: string, chapter: int, translation: string, reply: ChapterReply)
    ensures var r := FetchChapter(book, chapter, translation, reply).1;
      (r.Ok? <==> reply.Received? && reply.ok && reply.body.Ok?)
      && (r.Ok? ==> r.value == reply.body.value)
      && (reply.Received? && !reply.ok ==>
            r == Err(Error(LoadPrefix + FetchPrefix + RefusalMessage(reply.status, reply.body))))
      && (reply.Unreachable? && reply.failure.Error? ==> r == Err(Error(LoadPrefix + reply.failure.message)))
      && (reply.Received? && reply.ok && reply.body.Err? && reply.body.error.Error? ==>
            r == Err(Error(LoadPrefix + reply.body.error.message)))
      && (r.Err? && r.error.message != UnknownFailure ==>
            |r.error.message| >= |LoadPrefix| && r.error.message[..|LoadPrefix|] == LoadPrefix)
      && (r.Err? ==> r.error.Error?)
  {
    match reply
    case Unreachable(e) =>
      RethrownMeaning(e);
    case Received(ok, status, body) =>
      if !ok {
        RethrownMeaning(Error(FetchPrefix + RefusalMessage(status, body)));
        assert LoadPrefix + (FetchPrefix + RefusalMessage(status, body)) == LoadPrefix + FetchPrefix + RefusalMessage(status, body);
      } else if body.Err? {
        RethrownMeaning(body.error);
      }
  }

  /** A refused request reports the API's own error when it gave one, and
      its status otherwise. */
  lemma RefusalMeaning(status: int, body: Result<ParsedBody, Thrown>)
    ensures body.Ok? && body.value.ErrorBody? && body.value.error.Some? && body.value.error.value != "" ==>
      RefusalMessage(status, body) == body.value.error.value
    ensures !(body.Ok? && body.value.ErrorBody? && body.value.error.Some? && body.value.error.value != "") ==>
      RefusalMessage(status, body) == "HTTP error! status: " + IntToString(status)
  {
  }
}
