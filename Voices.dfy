/**
 * Voice resolution for text-to-speech (`speakText`): the application's
 * two-letter language code is mapped to a locale tag, and a voice is chosen
 * from the engine's voice list by exact tag first and by language prefix
 * second.
 */
module Voices {
  import opened Wrappers
  import opened Text

  /** A voice descriptor as the speech engine lists it. */
  datatype Voice = Voice(name: string, lang: string)

  /** The utterance handed to the speech engine (its `rate` is not modelled). */
  datatype Utterance = Utterance(text: string, lang: string, voice: Option<Voice>)

  /** `TTS_CODES`: application language code to locale tag. */
  const TtsCodes: map<string, string> :=
    map["en" := "en-US", "it" := "it-IT", "de" := "de-DE", "es" := "es-ES", "ru" := "ru-RU"]

  const DefaultLocale: string := "en-US"

  /** `TTS_CODES[lang] || 'en-US'`. */
  function Locale(code: string): (locale: string)
    ensures locale == DefaultLocale || locale in TtsCodes.Values
  {
    if code in TtsCodes then TtsCodes[code] else DefaultLocale
  }

  /** The table, entry by entry, and the default for every other code. */
  lemma LocaleTable(code: string)
    ensures code == "en" ==> Locale(code) == "en-US"
    ensures code == "it" ==> Locale(code) == "it-IT"
    ensures code == "de" ==> Locale(code) == "de-DE"
    ensures code == "es" ==> Locale(code) == "es-ES"
    ensures code == "ru" ==> Locale(code) == "ru-RU"
    ensures code !in {"en", "it", "de", "es", "ru"} ==> Locale(code) == "en-US"
  {
  }

  /**
   * The subtag the prefix fallback searches for is the application code
   * itself for a supported code, and "en" for any other.
   */
  lemma LocaleSubtag(code: string)
    ensures BeforeDash(Locale(code)) == if code in TtsCodes then code else "en"
  {
  }

  predicate ExactMatch(v: Voice, locale: string) {
    v.lang == locale
  }

  predicate PrefixMatch(v: Voice, locale: string) {
    StartsWith(v.lang, BeforeDash(locale))
  }

  /** `voices.find(p)`, as the index of the first voice satisfying `p`. */
  function FirstWhere(voices: seq<Voice>, p: Voice -> bool): (r: Option<nat>)
    ensures r.Some? ==> r.value < |voices| && p(voices[r.value])
    ensures r.Some? ==> forall j :: 0 <= j < r.value ==> !p(voices[j])
    ensures r.None? <==> forall j :: 0 <= j < |voices| ==> !p(voices[j])
  {
    if voices == [] then None
    else if p(voices[0]) then Some(0)
    else match FirstWhere(voices[1..], p)
      case None => None
      case Some(k) => Some(k + 1)
  }

  /**
   * The voice `speakText` binds for `locale`: the first voice whose tag is
   * `locale`; when there is none, the first voice whose tag starts with the
   * locale's subtag before '-'; when there is none either, no voice.
   */
  function ChooseVoice(locale: string, voices: seq<Voice>): (r: Option<nat>)
    ensures r.Some? ==> r.value < |voices|
    ensures (exists i :: 0 <= i < |voices| && ExactMatch(voices[i], locale)) ==>
              r.Some? && ExactMatch(voices[r.value], locale)
              && forall j :: 0 <= j < r.value ==> !ExactMatch(voices[j], locale)
    ensures (forall i :: 0 <= i < |voices| ==> !ExactMatch(voices[i], locale)) ==>
              (r.Some? <==> exists i :: 0 <= i < |voices| && PrefixMatch(voices[i], locale))
              && (r.Some? ==> PrefixMatch(voices[r.value], locale)
                              && forall j :: 0 <= j < r.value ==> !PrefixMatch(voices[j], locale))
  {
    var exact := FirstWhere(voices, v => ExactMatch(v, locale));
    if exact.Some? then exact
    else FirstWhere(voices, v => PrefixMatch(v, locale))
  }

  /**
   * The utterance `speakText(text, code)` issues when the engine lists
   * `voices`: it carries the text, the locale, and the chosen voice.
   */
  function SpeakText(text: string, code: string, voices: seq<Voice>): (u: Utterance)
    ensures u.text == text && u.lang == Locale(code)
    ensures u.voice.Some? ==> u.voice.value in voices
    ensures u.voice.Some? ==> ExactMatch(u.voice.value, u.lang) || PrefixMatch(u.voice.value, u.lang)
    ensures u.voice.None? <==> forall i :: 0 <= i < |voices| ==> !PrefixMatch(voices[i], u.lang)
  {
    var locale := Locale(code);
    var choice := ChooseVoice(locale, voices);
    ExactImpliesPrefix(locale, voices);
    Utterance(text, locale, if choice.Some? then Some(voices[choice.value]) else None)
  }

  /** A voice whose tag is the locale also starts with the locale's subtag. */
  lemma ExactImpliesPrefix(locale: string, voices: seq<Voice>)
    ensures forall i :: 0 <= i < |voices| && ExactMatch(voices[i], locale) ==> PrefixMatch(voices[i], locale)
  {
  }

  /** The worked cases: exact tag, prefix fallback, and an empty voice list. */
  lemma ResolveExamples()
    ensures SpeakText("ciao", "it", [Voice("A", "it-IT"), Voice("B", "en-US")]).voice == Some(Voice("A", "it-IT"))
    ensures SpeakText("ciao", "it", [Voice("C", "it-CH")]).voice == Some(Voice("C", "it-CH"))
    ensures SpeakText("ciao", "it", []).voice == None
  {
  }
}
