/** The two fail-open script conversion wrappers of the app (app.py:69-99).
    The Latin/Cyrillic mapping itself belongs to the UzTransliterator library
    and is a parameter here: `tr(text, source, target)` is `Some(result)` when
    the library returns and `None` when it raises. */
module Transliteration {
  import opened Wrappers

  /** The two Uzbek orthographies. */
  datatype Script = Latin | Cyrillic

  /** The transliteration library, as a partial function. */
  type Transliterator = (string, Script, Script) -> Option<string>

  /** The tag both wrappers return beside the text ("converted" / "failed"). */
  datatype Status = Converted | Failed

  /** The `(text, status)` pair both wrappers return. */
  datatype Conversion = Conversion(text: string, status: Status)

  /** The try/except shape shared by both wrappers: on success the
      transliteration tagged Converted, on any failure the input unchanged
      tagged Failed. */
  function Convert(tr: Transliterator, text: string, source: Script, target: Script): (r: Conversion)
    ensures r.status == Converted <==> tr(text, source, target).Some?
    ensures r.status == Converted ==> tr(text, source, target) == Some(r.text)
    ensures r.status == Failed ==> r.text == text
  {
    match tr(text, source, target)
    case Some(converted) => Conversion(converted, Converted)
    case None => Conversion(text, Failed)
  }

  /** A question is always converted Latin to Cyrillic, never the other way. */
  function PreprocessQuestion(tr: Transliterator, question: string): (r: Conversion)
    ensures r.status == Converted <==> tr(question, Latin, Cyrillic).Some?
    ensures r.status == Converted ==> tr(question, Latin, Cyrillic) == Some(r.text)
    ensures r.status == Failed ==> r.text == question
  {
    Convert(tr, question, Latin, Cyrillic)
  }

  /** An answer is always converted Cyrillic to Latin, never the other way. */
  function PostprocessResponse(tr: Transliterator, response: string): (r: Conversion)
    ensures r.status == Converted <==> tr(response, Cyrillic, Latin).Some?
    ensures r.status == Converted ==> tr(response, Cyrillic, Latin) == Some(r.text)
    ensures r.status == Failed ==> r.text == response
  {
    Convert(tr, response, Cyrillic, Latin)
  }

  /** The question wrapper consults the library in the Latin-to-Cyrillic
      direction only: two libraries that agree there give the same result. */
  lemma QuestionDirectionIsFixed(tr1: Transliterator, tr2: Transliterator, question: string)
    requires tr1(question, Latin, Cyrillic) == tr2(question, Latin, Cyrillic)
    ensures PreprocessQuestion(tr1, question) == PreprocessQuestion(tr2, question)
  {
  }

  /** The answer wrapper consults the library in the Cyrillic-to-Latin
      direction only. */
  lemma ResponseDirectionIsFixed(tr1: Transliterator, tr2: Transliterator, response: string)
    requires tr1(response, Cyrillic, Latin) == tr2(response, Cyrillic, Latin)
    ensures PostprocessResponse(tr1, response) == PostprocessResponse(tr2, response)
  {
  }
}
