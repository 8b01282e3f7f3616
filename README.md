# A verified model of the phrase browser's decision logic

The application is a single-page phrase browser. It loads three JSON
documents: per-language scripts, an activity guide and a phrase library. It
renders them as collapsible accordions of cards and filters those cards live
from a search box. Cards can speak their text through the browser's speech
engine, and the user can keep a list of notes.

This project models the decision logic under that page script's DOM plumbing
and proves what it promises:

- **Voice resolution** (`Voices`): the language-code-to-locale table, and the
  choice of voice. The first voice matching the locale exactly wins. Failing
  that, the first voice whose tag starts with the locale's subtag wins.
  Failing that, there is no voice.
- **Rendering** (`Render`): pure builders from typed documents to trees of
  `Accordion`, `Section` and `Card`. Each card carries its actions:
  `Speak(text, lang)`, `Copy(text)` and `Delete(index)`.
- **Search** (`Search`): the mounted container is a `Pane`. It holds the
  accordions with their open flags and the card elements in document order.
  Each card element knows its enclosing accordion and has a shown flag. The
  input handler's loop is the method `FilterPane`, proved equal to the
  specification function `Filter`. Lemmas about `Filter` state what the
  handler guarantees.
- **Notes** (`Notes`): a `NotesStore` class holds the stored list and has
  `Add`, `RemoveAt` and the form's `Submit`. `RenderNotes` builds the note
  cards.
- **Application state** (`Controller`): an `App` class holding the current
  language, current view, search text, voice list and mounted containers.
  Each handler is a method.

Lower-casing is ASCII-only (`Text.Lower`). `trim` strips JavaScript's full
set of WhiteSpace and LineTerminator code points (`Text.IsJsSpace`).

Behaviours of the code that the model keeps:

- Note cards speak in `"en"`, not in the current language (app.js:354).
- Activity cards are created with class `card` only (app.js:131). The
  search selector asks for `.phrase-card, .activity-card` (app.js:310), so
  activity cards are never filtered (`Search.ActivityCardsNeverFiltered`,
  `Search.ActivityPaneUnfiltered`).
- A missing `categories` in the activity document silently gives an empty
  view (app.js:114), not an error.
- Empty ids and descriptions count as absent, as `if (x)` treats them
  (`Render.Truthy`).
- Object items missing a field render the text `undefined`
  (`Render.Field`).
- A `routines` item without `steps` throws a TypeError. The accordions
  appended before the failing category stay, and nothing after it is
  rendered (`Render.ActivityAccordions`).
- `renderScripts` uses the language current when the document arrives, not
  the one it was requested for (`Controller.App.ScriptsLoaded`).

## Model

| member | source | states |
|---|---|---|
| `Text.Trim` | app.js:337 | the result is the infix of the input with only white space around it; it starts and ends with a non-space character; it is empty iff the input is blank |
| `Text.TrimOfTrimmed` | app.js:337 | a string with no white space at either end is its own trim |
| `Text.TrimIdempotent` | app.js:337 | trimming twice is trimming once |
| `Text.Lower` | app.js:308 | same length as the input; each character is lower-cased (ASCII) |
| `Text.LowerIdempotent` | app.js:308 | lower-casing twice is lower-casing once |
| `Text.Contains` | app.js:315 | true iff the needle occurs at some position of the text |
| `Text.ContainsEmpty` | app.js:315 | every text includes the empty string |
| `Text.BeforeDash` | app.js:257 | `split('-')[0]`: a prefix with no '-', followed in the input by '-' or by the end of the input |
| `Voices.Locale` | app.js:243 | the locale is a table value or the default `en-US` |
| `Voices.LocaleTable` | app.js:8-14 | en, it, de, es, ru map to en-US, it-IT, de-DE, es-ES, ru-RU; any other code maps to en-US |
| `Voices.LocaleSubtag` | app.js:256-258 | the fallback subtag is the application code itself for a supported code, and "en" otherwise |
| `Voices.FirstWhere` | app.js:253 | `find`: the index of the first voice satisfying the predicate, or none iff no voice satisfies it |
| `Voices.ChooseVoice` | app.js:252-259 | with an exact tag match, the first exact match is chosen and no fallback happens; otherwise the first prefix match is chosen, and there is none iff no voice starts with the subtag |
| `Voices.SpeakText` | app.js:239-269 | the utterance carries the text and the table locale; its voice is from the list and matches the locale exactly or by prefix; there is no voice iff nothing matches by prefix |
| `Voices.ExactImpliesPrefix` | app.js:253-258 | an exact match is also a prefix match |
| `Voices.ResolveExamples` | app.js:252-266 | 'it' with [it-IT, en-US] picks it-IT; with [it-CH] picks it-CH by prefix; with no voices gives no voice |
| `Render.Truthy` | app.js:205 | a string counts as present iff it is present and non-empty |
| `Render.CreateAccordion` | app.js:202-209 | a new accordion is closed and empty, keeps its header, and has the id only when the id is truthy |
| `Render.Toggle` | app.js:207 | a header click flips only the open flag |
| `Render.ToggleTwice` | app.js:207 | two clicks restore the accordion |
| `Render.CreateCard` | app.js:211-236 | a phrase card with classes card/phrase-card shows the text, speaks it in the given language when audio is asked for, and copies it |
| `Render.PhraseCards` | app.js:102-106 | one card per phrase, in order, each speaking in the given language |
| `Render.ScriptSections` | app.js:96-107 | one section per category, in order, titled by the category, holding its phrase cards |
| `Render.RenderScripts` | app.js:90-110 | one accordion per module, in order, built from the module's title, id and categories |
| `Render.ReadScripts` | app.js:90-110 | reading a tree back gives one module per accordion |
| `Render.ScriptsRoundTrip` | app.js:90-110 | reading back the rendered tree gives the modules, categories and phrases of the document, in order |
| `Render.ScriptCardActions` | app.js:102-106 | card k of section j of accordion i shows phrase k of category j of module i, speaks it in the current language and copies it |
| `Render.Field` | app.js:136-140 | a missing field renders as "undefined" |
| `Render.ItemCard` | app.js:129-142 | a bare string is a warning card whatever the section type; playlist, routines and the default pick track, routine and instruction cards; a routine item without steps throws |
| `Render.WarningWhateverKind` | app.js:133-134 | a string item renders the same under every section type |
| `Render.ItemCards` | app.js:128-144 | the item cards in order; the section throws iff one of its items throws |
| `Render.ActivitySectionNode` | app.js:122-145 | a section keeps its title; with no items it has no cards; it renders iff its items do, and then its cards are its items' cards in order |
| `Render.ActivitySections` | app.js:121-146 | the sections in order; the category throws iff one of its sections throws |
| `Render.ActivityAccordion` | app.js:116-148 | a category accordion is closed, has no id, has the icon/title/bpm header and the truthy description; with no sections it is empty; it renders iff its sections do, and then it holds exactly those sections in order |
| `Render.ActivityAccordions` | app.js:116-148 | the accordions of the categories before the first one that throws, in order |
| `Render.RenderActivities` | app.js:112-149 | no categories give an empty view; otherwise the categories are rendered up to the first that throws |
| `Render.ActivityCardAt` | app.js:116-148 | in the rendered view, section j of accordion i keeps the title of section j of category i, and its card k is the card of item k under that section's type; a section without items has no cards |
| `Render.ActivitiesComplete` | app.js:116-148 | when no category throws, there is one accordion per category |
| `Render.LibraryCard` | app.js:165-192 | a library card shows both texts and speaks and copies the English one, speaking in "en" |
| `Render.LibraryCards` | app.js:164-193 | one card per pair, in order |
| `Render.TopicSections` | app.js:157-194 | one section per topic, in order |
| `Render.RenderLibrary` | app.js:151-198 | one accordion per chapter, in order |
| `Render.LibraryCardsSpeakEnglish` | app.js:176-185 | every library card speaks its English text in "en" |
| `Search.SectionSlots` | app.js:310-314 | the card elements of one accordion's sections, in order, owned by that accordion, all shown |
| `Search.TreeSlots` | app.js:310-314 | the card elements of a tree in document order; each is owned by the accordion whose card range contains it |
| `Search.Mount` | app.js:310-314 | a freshly rendered container shows every card, in document order; loose cards come last and have no owner |
| `Search.FilterPane` | app.js:306-323 | the handler's loop produces exactly the filtered pane |
| `Search.FilterVisibility` | app.js:312-320 | a considered card is shown iff its lower-cased text contains the lower-cased query; other cards are unchanged |
| `Search.FilterOpenState` | app.js:314-317 | an accordion is open afterwards iff it was open before or one of its considered cards matches and the query is longer than one character; nothing else about it changes |
| `Search.EmptyQueryShowsAll` | app.js:315-317 | an empty query shows every considered card and changes no accordion |
| `Search.ShortQueryOpensNothing` | app.js:317 | a query of at most one character opens nothing |
| `Search.FilterKeepsCards` | app.js:312-321 | filtering keeps the cards, their owners, their order and the accordion contents |
| `Search.FilterIdempotent` | app.js:306-323 | running the handler twice with one query equals running it once |
| `Search.MatchesIgnoresCase` | app.js:308-315 | a query and its lower-cased form match the same cards |
| `Search.FilterIgnoresCase` | app.js:306-323 | a query and its lower-cased form filter a container the same way |
| `Search.StickyOpen` | app.js:317 | an accordion opened by one query stays open after any later query |
| `Search.ActivityCardsNeverFiltered` | app.js:131 | no activity card is picked by the search selector |
| `Search.ActivityPaneUnfiltered` | app.js:310 | filtering an activity container changes nothing |
| `Notes.Removed` | app.js:365 | `splice(index, 1)`: earlier notes stay, later notes shift down by one, and an index past the end changes nothing |
| `Notes.RemoveLastAdded` | app.js:345-366 | deleting the note just appended restores the earlier list |
| `Notes.NoteCard` | app.js:354-359 | a note card speaks the note in "en", copies it, and deletes its own index |
| `Notes.RenderNotes` | app.js:351-362 | one card per note, in order, card i deleting note i |
| `Notes.DeleteButton` | app.js:353-366 | card i's delete removes exactly note i, and the later cards move down by one |
| `Notes.NotesStore.constructor` | app.js:342 | the store starts with the saved list |
| `Notes.NotesStore.Add` | app.js:345-350 | append at the end, earlier notes unchanged |
| `Notes.NotesStore.RemoveAt` | app.js:363-368 | the list becomes the spliced list |
| `Notes.NotesStore.Submit` | app.js:335-339 | blank input changes nothing; other input appends its trimmed text and clears the box |
| `Controller.EmptyPane` | app.js:60 | the loading message holds no cards |
| `Controller.NotesPane` | app.js:351-362 | the notes container holds the note cards in order, outside any accordion, all shown |
| `Controller.App.constructor` | app.js:35-55 | the start state: English, the scripts view, empty search, the engine's current voices, the saved notes rendered |
| `Controller.App.Navigate` | app.js:282-304 | the view becomes current, the search box is cleared and its placeholder set, and no card's visibility changes |
| `Controller.App.Search` | app.js:306-323 | the current view's container is replaced by its filtered pane; other containers and a missing container are untouched; the view, language, voices and placeholder stay |
| `Controller.App.ChangeLanguage` | app.js:325-330 | only the language changes, and the scripts container is reset for the re-fetch; view, search text, voices and placeholder stay |
| `Controller.App.ScriptsLoaded` | app.js:58-70 | the scripts container holds the rendered document, speaking in the current language; every other field stays |
| `Controller.App.ActivitiesLoaded` | app.js:72-78 | the activities container holds the rendered activity document; every other field stays |
| `Controller.App.LibraryLoaded` | app.js:80-86 | the library container holds the rendered library; every other field stays |
| `Controller.App.ToggleAccordion` | app.js:207 | a header click flips one accordion's open flag; every other container, accordion and field stays |
| `Controller.App.SubmitNote` | app.js:335-350 | a non-blank note is appended trimmed and the notes container is re-rendered; blank input changes nothing; language, view, search text, voices and placeholder stay |
| `Controller.App.DeleteNote` | app.js:363-368 | the note is spliced out and the notes container is re-rendered; every other field stays |
| `Controller.App.VoicesChanged` | app.js:44-46 | the engine's new list replaces the voices; every other field stays |
| `Controller.App.Speak` | app.js:239-269 | an empty voice list is re-queried first; the utterance is the resolved one for that list; every other field stays |

## Left out

- Fetching and JSON parsing. This covers the `res.ok` check, the loading and error messages (a container showing either holds no cards: `Controller.EmptyPane`) and a missing `modules` or `chapters` key. Documents arrive already typed through `ScriptsLoaded`, `ActivitiesLoaded` and `LibraryLoaded`.
- Scripts documents whose modules lack `categories` or whose categories lack `phrases`. In the code these throw inside `renderScripts` (app.js:96, app.js:102), and the catch at app.js:66-68 replaces the whole scripts container with the error message, a container with no cards. `Render.ScriptModule` and `Render.PhraseGroup` make both fields required, so such documents are outside the model's input type.
- Fetches that complete out of order are not modelled as a race. Each arrival is a separate event.
- The speech engine itself: `cancel`, `speak`, the `rate` of 0.9 and console logging. These are a foreign asynchronous capability. Only the voice choice over a supplied list is modelled.
- Clipboard writes and the two-second toast. These are a foreign call and a timer. `Copy(text)` records only which text a button copies.
- `localStorage` and JSON encoding of the notes. The stored list is the `notes` field of `NotesStore`. `deleteNote` on a missing key (`null.splice`) cannot be reached, because delete buttons exist only for stored notes.
- Markup: HTML strings, emoji glyphs, CSS other than the classes the search selector reads, `<small>` in activity headers, `stopPropagation`, re-parsing by `innerHTML +=`, and the `hidden`/`active` classes on views and navigation buttons. The current view is modelled only as `currentView`.
- `Search.CardText`: the text `innerText` yields is modelled as the card's texts joined by newlines. Button glyphs and layout-dependent line breaks are not included.
- `Text.Lower`: ASCII-only lower-casing, not full Unicode `toLowerCase`. Lengths are counted in code points, not UTF-16 units, so `query.length > 1` differs from the code for a single astral character.
- Activity items that are neither strings nor objects, such as numbers or `null`. Field values that are not strings.
- `Voices.Locale`: `TTS_CODES` lookups of names inherited from `Object.prototype` (such as `constructor`) are not modelled. The language selector only emits the five table codes.
- The page markup in index.html is not part of this model. The notes container is assumed to sit in the view with id `view-notes`, outside any accordion.
