/** The shared record types of the application (its `types.ts`). */
module BibleTypes {

  datatype Testament = OT | NT

  /** A book of the canon as the book list shows it. */
  datatype BibleBook = BibleBook(name: string, testament: Testament)

  datatype BibleVerse = BibleVerse(bookName: string, chapter: int, verse: int, text: string)

  /** A chapter as the reader displays it, whichever source delivered it. */
  datatype BibleChapter = BibleChapter(
    reference: string,
    verses: seq<BibleVerse>,
    text: string,
    translationName: string,
    translationId: string)

  /** The traditions a commentary can be written from. */
  datatype Perspective = Catholic | EnduringWord | Historical

  datatype Author = User | Ai

  /** One line of the on-screen chat transcript. */
  datatype ChatMessage = ChatMessage(author: Author, text: string)

  /** A cited web source attached to a theological answer. */
  datatype Source = Source(uri: string, title: string)

  /** An answer together with the sources shown under it. */
  datatype GeminiResponse = GeminiResponse(text: string, sources: seq<Source>)

  /** The translations the reader offers. */
  datatype Translation = Web | Kjv | Bbe | Asv {
    /** The identifier the translation goes by in requests. */
    function Id(): string {
      match this
      case Web => "web"
      case Kjv => "kjv"
      case Bbe => "bbe"
      case Asv => "asv"
    }
  }
}
