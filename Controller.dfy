/**
 * The application state and its event handlers: navigation, the search box,
 * the language switch, accordion clicks, the notes form and the speak button.
 * Fetching is left to the caller: a handler like `ScriptsLoaded` stands for
 * the moment a fetched document arrives.
 */
module Controller {
  import opened Wrappers
  import opened Voices
  import opened Render
  import opened Search
  import opened Notes

  const ScriptsView: string := "view-scripts"
  const ActivitiesView: string := "view-activities"
  const LibraryView: string := "view-library"
  const NotesView: string := "view-notes"

  /** A container with no cards: an empty one, or one showing a loading or error message. */
  function EmptyPane(): (p: Pane)
    ensures Mounted(p) && p.modules == [] && p.slots == []
  {
    Mount([], [])
  }

  /** The notes container after `renderNotes(notes)`. */
  function NotesPane(notes: seq<string>): (p: Pane)
    ensures Mounted(p) && p.modules == [] && |p.slots| == |notes|
    ensures forall i :: 0 <= i < |notes| ==> p.slots[i] == Slot(NoteCard(notes[i], i), None, true)
  {
    var cards := RenderNotes(notes);
    assert TreeSlots([]) == [];
    var p := Mount([], cards);
    assert |p.slots| == |cards|;
    p
  }

  class App {
    var currentLang: string
    var currentView: string
    /** The search box's text. */
    var query: string
    var placeholder: string
    /** `availableVoices`. */
    var voices: seq<Voice>
    /** The mounted view containers, by element id. */
    var panes: map<string, Pane>
    const store: NotesStore

    ghost predicate Valid()
      reads this
    {
      forall v :: v in panes ==> Mounted(panes[v])
    }

    /** `init()`: English, the scripts view, the voices the engine lists now, the saved notes rendered. */
    constructor (saved: seq<string>, engineVoices: seq<Voice>)
      ensures Valid() && fresh(store) && store.notes == saved
      ensures currentLang == "en" && currentView == ScriptsView && query == ""
      ensures voices == engineVoices
      ensures panes == map[ScriptsView := EmptyPane(), ActivitiesView := EmptyPane(),
                           LibraryView := EmptyPane(), NotesView := NotesPane(saved)]
    {
      currentLang := "en";
      currentView := ScriptsView;
      query := "";
      placeholder := "";
      voices := engineVoices;
      store := new NotesStore(saved);
      panes := map[ScriptsView := EmptyPane(), ActivitiesView := EmptyPane(),
                   LibraryView := EmptyPane(), NotesView := NotesPane(saved)];
    }

    /**
     * A navigation button: the target view becomes current and the search box
     * is cleared, without re-running the filter, so every card keeps its
     * visibility.
     */
    method Navigate(target: string, buttonLabel: string)
      requires Valid()
      modifies this
      ensures Valid()
      ensures currentView == target && query == "" && placeholder == "Search " + buttonLabel + "..."
      ensures panes == old(panes) && currentLang == old(currentLang) && voices == old(voices)
    {
      currentView := target;
      query := "";
      placeholder := "Search " + buttonLabel + "...";
    }

    /** The search box's input event: filter the current view's container. */
    method Search(input: string)
      requires Valid()
      modifies this
      ensures Valid() && query == input
      ensures old(currentView) in old(panes) ==>
                panes == old(panes)[old(currentView) := Filter(old(panes)[old(currentView)], input)]
      ensures old(currentView) !in old(panes) ==> panes == old(panes)
      ensures currentView == old(currentView) && currentLang == old(currentLang) && voices == old(voices)
      ensures placeholder == old(placeholder)
    {
      query := input;
      if currentView in panes {
        var filtered := FilterPane(panes[currentView], input);
        FilterKeepsCards(panes[currentView], input);
        panes := panes[currentView := filtered];
      }
    }

    /** The language switch: record the language; the scripts container shows its loading message. */
    method ChangeLanguage(lang: string)
      requires Valid()
      modifies this
      ensures Valid() && currentLang == lang
      ensures panes == old(panes)[ScriptsView := EmptyPane()]
      ensures currentView == old(currentView) && query == old(query) && voices == old(voices)
      ensures placeholder == old(placeholder)
    {
      currentLang := lang;
      panes := panes[ScriptsView := EmptyPane()];
    }

    /** A scripts document arrives: render it with the language current at that moment. */
    method ScriptsLoaded(modules: seq<ScriptModule>)
      requires Valid()
      modifies this
      ensures Valid() && panes == old(panes)[ScriptsView := Mount(RenderScripts(modules, currentLang), [])]
      ensures currentLang == old(currentLang) && currentView == old(currentView) && query == old(query)
      ensures voices == old(voices) && placeholder == old(placeholder)
    {
      panes := panes[ScriptsView := Mount(RenderScripts(modules, currentLang), [])];
    }

    method ActivitiesLoaded(doc: ActivityDoc)
      requires Valid()
      modifies this
      ensures Valid() && panes == old(panes)[ActivitiesView := Mount(RenderActivities(doc), [])]
      ensures currentLang == old(currentLang) && currentView == old(currentView) && query == old(query)
      ensures voices == old(voices) && placeholder == old(placeholder)
    {
      panes := panes[ActivitiesView := Mount(RenderActivities(doc), [])];
    }

    method LibraryLoaded(chapters: seq<Chapter>)
      requires Valid()
      modifies this
      ensures Valid() && panes == old(panes)[LibraryView := Mount(RenderLibrary(chapters), [])]
      ensures currentLang == old(currentLang) && currentView == old(currentView) && query == old(query)
      ensures voices == old(voices) && placeholder == old(placeholder)
    {
      panes := panes[LibraryView := Mount(RenderLibrary(chapters), [])];
    }

    /** A click on the header of accordion `k` in container `view`: only its open flag flips. */
    method ToggleAccordion(view: string, k: nat)
      requires Valid() && view in panes && k < |panes[view].modules|
      modifies this
      ensures Valid()
      ensures panes == old(panes)[view := old(panes)[view].(modules := old(panes)[view].modules[k := Toggle(old(panes)[view].modules[k])])]
      ensures currentLang == old(currentLang) && currentView == old(currentView) && query == old(query)
      ensures voices == old(voices) && placeholder == old(placeholder)
    {
      var p := panes[view];
      panes := panes[view := p.(modules := p.modules[k := Toggle(p.modules[k])])];
    }

    /** The notes form's submit: save a non-blank note and re-render the notes container. */
    method SubmitNote(input: string) returns (inputAfter: string)
      requires Valid()
      modifies this, store
      ensures Valid()
      ensures Text.IsBlank(input) ==> store.notes == old(store.notes) && panes == old(panes) && inputAfter == input
      ensures !Text.IsBlank(input) ==> store.notes == old(store.notes) + [Text.Trim(input)] && inputAfter == ""
      ensures !Text.IsBlank(input) ==> panes == old(panes)[NotesView := NotesPane(store.notes)]
      ensures currentLang == old(currentLang) && currentView == old(currentView) && query == old(query)
      ensures voices == old(voices) && placeholder == old(placeholder)
    {
      inputAfter := store.Submit(input);
      if !Text.IsBlank(input) {
        panes := panes[NotesView := NotesPane(store.notes)];
      }
    }

    /** A note card's delete button: remove that note and re-render the notes container. */
    method DeleteNote(index: nat)
      requires Valid()
      modifies this, store
      ensures Valid() && store.notes == Removed(old(store.notes), index)
      ensures panes == old(panes)[NotesView := NotesPane(store.notes)]
      ensures currentLang == old(currentLang) && currentView == old(currentView) && query == old(query)
      ensures voices == old(voices) && placeholder == old(placeholder)
    {
      store.RemoveAt(index);
      panes := panes[NotesView := NotesPane(store.notes)];
    }

    /** `onvoiceschanged`: the engine's new voice list replaces the stored one. */
    method VoicesChanged(engineVoices: seq<Voice>)
      requires Valid()
      modifies this
      ensures Valid() && voices == engineVoices && panes == old(panes)
      ensures currentLang == old(currentLang) && currentView == old(currentView) && query == old(query)
      ensures placeholder == old(placeholder)
    {
      voices := engineVoices;
    }

    /**
     * A speak button: `speakText(text, lang)`. An empty voice list is first
     * replaced by what the engine lists now; the utterance uses the result.
     */
    method Speak(text: string, lang: string, engineVoices: seq<Voice>) returns (u: Utterance)
      requires Valid()
      modifies this
      ensures Valid()
      ensures voices == if |old(voices)| == 0 then engineVoices else old(voices)
      ensures u == SpeakText(text, lang, voices)
      ensures panes == old(panes)
      ensures currentLang == old(currentLang) && currentView == old(currentView) && query == old(query)
      ensures placeholder == old(placeholder)
    {
      if |voices| == 0 {
        voices := engineVoices;
      }
      u := SpeakText(text, lang, voices);
    }
  }

  /** A client of the handlers: blank input is ignored, and a note added then deleted leaves no notes. */
  method NotesScenario() {
    var app := new App([], []);
    var box := app.SubmitNote("  ");
    assert Text.IsBlank("  ");
    assert app.store.notes == [] && box == "  ";
    assert !Text.IsBlank("hello") by { assert !Text.IsJsSpace("hello"[0]); }
    box := app.SubmitNote("hello");
    assert box == "" && |app.store.notes| == 1;
    app.DeleteNote(0);
    assert app.store.notes == [];
    assert app.panes[NotesView].slots == [];
  }
}
