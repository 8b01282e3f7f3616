/**
 * The render builders (`renderScripts`, `renderActivities`, `renderLibrary`,
 * `createAccordion`, `createCard`) as pure constructors from typed documents
 * to trees of accordions, sections and cards. Visibility and open state are
 * flags; markup, CSS and emoji decoration are not part of the tree.
 */
module Render {
  import opened Wrappers

  // ---------------------------------------------------------------- view tree

  /** What a card's buttons do when clicked. */
  datatype Action = Speak(text: string, lang: string) | Copy(text: string) | Delete(index: nat)

  /** The CSS classes a card element carries, as far as the search selector cares. */
  datatype Css = CardCss | PhraseCss | LibraryCss | ActivityCss

  /** The visible content of a card, one constructor per kind of card the builders make. */
  datatype Body =
    | Phrase(text: string)
    | PairText(en: string, ar: string)
    | Warning(text: string)
    | Track(title: string, artist: string, usage: string)
    | Routine(title: string, steps: seq<string>)
    | Instruction(name: string, description: string, cue: string)

  datatype Card = Card(classes: set<Css>, body: Body, actions: seq<Action>)

  /** A section title (an `h4.category-title`) and the cards after it. */
  datatype Section = Section(title: string, cards: seq<Card>)

  /** A `module-container`: optional element id, header text, optional description, open flag, body. */
  datatype Accordion = Accordion(id: Option<string>, header: string, description: Option<string>,
                                 open: bool, sections: seq<Section>)

  /** A JavaScript string used in an `if (x)` test: the empty string counts as absent. */
  function Truthy(s: Option<string>): (r: Option<string>)
    ensures r.Some? <==> s.Some? && s.value != ""
    ensures r.Some? ==> r == s
  {
    if s.Some? && s.value != "" then s else None
  }

  /** `createAccordion(title, id)`: closed, empty, with the id only when it is truthy. */
  function CreateAccordion(header: string, id: Option<string>): (a: Accordion)
    ensures !a.open && a.sections == [] && a.description == None
    ensures a.header == header && a.id == Truthy(id)
  {
    Accordion(Truthy(id), header, None, false, [])
  }

  /** Clicking an accordion header: `classList.toggle('open')`. */
  function Toggle(a: Accordion): (b: Accordion)
    ensures b.open != a.open
    ensures b.id == a.id && b.header == a.header && b.description == a.description
    ensures b.sections == a.sections
  {
    a.(open := !a.open)
  }

  lemma ToggleTwice(a: Accordion)
    ensures Toggle(Toggle(a)) == a
  {
  }

  /** `createCard(text, withAudio, langCode)`: a phrase card with speak (if asked) and copy buttons. */
  function CreateCard(text: string, withAudio: bool, lang: string): (c: Card)
    ensures c.classes == {CardCss, PhraseCss} && c.body == Phrase(text)
    ensures withAudio ==> c.actions == [Speak(text, lang), Copy(text)]
    ensures !withAudio ==> c.actions == [Copy(text)]
  {
    Card({CardCss, PhraseCss}, Phrase(text), (if withAudio then [Speak(text, lang)] else []) + [Copy(text)])
  }

  // ---------------------------------------------------------------- scripts

  datatype PhraseGroup = PhraseGroup(title: string, phrases: seq<string>)
  datatype ScriptModule = ScriptModule(id: Option<string>, title: string, categories: seq<PhraseGroup>)

  /** The phrase cards of one category, in order, speaking in `lang`. */
  function PhraseCards(phrases: seq<string>, lang: string): (r: seq<Card>)
    ensures |r| == |phrases|
    ensures forall k :: 0 <= k < |r| ==> r[k] == CreateCard(phrases[k], true, lang)
  {
    if phrases == [] then [] else [CreateCard(phrases[0], true, lang)] + PhraseCards(phrases[1..], lang)
  }

  function ScriptSections(groups: seq<PhraseGroup>, lang: string): (r: seq<Section>)
    ensures |r| == |groups|
    ensures forall j :: 0 <= j < |r| ==> r[j] == Section(groups[j].title, PhraseCards(groups[j].phrases, lang))
  {
    if groups == [] then []
    else [Section(groups[0].title, PhraseCards(groups[0].phrases, lang))] + ScriptSections(groups[1..], lang)
  }

  function ScriptAccordion(m: ScriptModule, lang: string): Accordion {
    CreateAccordion(m.title, m.id).(sections := ScriptSections(m.categories, lang))
  }

  /**
   * `renderScripts(modules)` with `currentLang == lang`: one closed accordion per
   * module in order, whose sections are its categories in order, whose cards are
   * the category's phrases in order, each speaking the phrase in `lang` and copying it.
   */
  function RenderScripts(modules: seq<ScriptModule>, lang: string): (r: seq<Accordion>)
    ensures |r| == |modules|
    ensures forall i :: 0 <= i < |r| ==> r[i] == ScriptAccordion(modules[i], lang)
  {
    if modules == [] then [] else [ScriptAccordion(modules[0], lang)] + RenderScripts(modules[1..], lang)
  }

  /** The phrase a card shows, read back from the tree. */
  function CardPhrase(c: Card): string {
    match c.body
    case Phrase(t) => t
    case PairText(en, _) => en
    case Warning(t) => t
    case Track(t, _, _) => t
    case Routine(t, _) => t
    case Instruction(n, _, _) => n
  }

  function ReadPhrases(cards: seq<Card>): (r: seq<string>)
    ensures |r| == |cards|
  {
    if cards == [] then [] else [CardPhrase(cards[0])] + ReadPhrases(cards[1..])
  }

  function ReadGroups(sections: seq<Section>): (r: seq<PhraseGroup>)
    ensures |r| == |sections|
  {
    if sections == [] then []
    else [PhraseGroup(sections[0].title, ReadPhrases(sections[0].cards))] + ReadGroups(sections[1..])
  }

  /** Reads a script document back from a rendered tree. */
  function ReadScripts(tree: seq<Accordion>): (r: seq<ScriptModule>)
    ensures |r| == |tree|
  {
    if tree == [] then []
    else [ScriptModule(tree[0].id, tree[0].header, ReadGroups(tree[0].sections))] + ReadScripts(tree[1..])
  }

  /** No module id is the empty string (which `if(id)` would drop). */
  predicate TruthyIds(modules: seq<ScriptModule>) {
    forall i :: 0 <= i < |modules| ==> modules[i].id != Some("")
  }

  lemma {:induction false} PhrasesRoundTrip(phrases: seq<string>, lang: string)
    ensures ReadPhrases(PhraseCards(phrases, lang)) == phrases
  {
    if phrases != [] {
      PhrasesRoundTrip(phrases[1..], lang);
    }
  }

  lemma {:induction false} GroupsRoundTrip(groups: seq<PhraseGroup>, lang: string)
    ensures ReadGroups(ScriptSections(groups, lang)) == groups
  {
    if groups != [] {
      PhrasesRoundTrip(groups[0].phrases, lang);
      GroupsRoundTrip(groups[1..], lang);
    }
  }

  /**
   * Rendering a script document loses nothing and reorders nothing: the
   * modules, categories and phrases read back from the tree are the document's.
   */
  lemma {:induction false} ScriptsRoundTrip(modules: seq<ScriptModule>, lang: string)
    requires TruthyIds(modules)
    ensures ReadScripts(RenderScripts(modules, lang)) == modules
  {
    if modules != [] {
      GroupsRoundTrip(modules[0].categories, lang);
      ScriptsRoundTrip(modules[1..], lang);
    }
  }

  /** Every card of a rendered script document speaks its own phrase in `lang` and copies it. */
  lemma ScriptCardActions(modules: seq<ScriptModule>, lang: string, i: nat, j: nat, k: nat)
    requires i < |modules| && j < |modules[i].categories| && k < |modules[i].categories[j].phrases|
    ensures var tree := RenderScripts(modules, lang);
            var phrase := modules[i].categories[j].phrases[k];
            j < |tree[i].sections| && k < |tree[i].sections[j].cards|
            && tree[i].sections[j].title == modules[i].categories[j].title
            && tree[i].sections[j].cards[k].body == Phrase(phrase)
            && tree[i].sections[j].cards[k].actions == [Speak(phrase, lang), Copy(phrase)]
  {
  }

  // ---------------------------------------------------------------- activities

  /**
   * An activity item: a bare string, or a JSON object whose string fields are
   * in `fields` and whose `steps` array, when present, is `steps`.
   */
  datatype Item = TextItem(text: string) | RecordItem(fields: map<string, string>, steps: Option<seq<string>>)

  datatype ActivitySection = ActivitySection(title: string, kind: Option<string>, items: Option<seq<Item>>)

  datatype ActivityCategory = ActivityCategory(icon: Option<string>, title: string, bpmRange: Option<string>,
                                               description: Option<string>, sections: Option<seq<ActivitySection>>)

  datatype ActivityDoc = ActivityDoc(categories: Option<seq<ActivityCategory>>)

  /** `${item.key}`: a missing field renders as the text "undefined". */
  function Field(fields: map<string, string>, key: string): (r: string)
    ensures key in fields ==> r == fields[key]
    ensures key !in fields ==> r == "undefined"
  {
    if key in fields then fields[key] else "undefined"
  }

  /**
   * The card for one activity item in a section of type `kind`. A bare string
   * is a warning card whatever the type; otherwise `playlist` and `routines`
   * select a track or a routine card and any other type an instruction card.
   * None stands for the TypeError `item.steps.map` throws when a routine has
   * no steps.
   */
  function ItemCard(item: Item, kind: Option<string>): (r: Option<Card>)
    ensures r.Some? ==> r.value.classes == {CardCss} && r.value.actions == []
    ensures item.TextItem? ==> r == Some(Card({CardCss}, Warning(item.text), []))
    ensures r.None? <==> item.RecordItem? && kind == Some("routines") && item.steps.None?
    ensures item.RecordItem? && kind == Some("playlist") ==>
              r.value.body == Track(Field(item.fields, "title"), Field(item.fields, "artist"), Field(item.fields, "usage"))
    ensures item.RecordItem? && kind == Some("routines") && item.steps.Some? ==>
              r.value.body == Routine(Field(item.fields, "title"), item.steps.value)
    ensures item.RecordItem? && kind != Some("playlist") && kind != Some("routines") ==>
              r.value.body == Instruction(Field(item.fields, "name"), Field(item.fields, "description"), Field(item.fields, "cue"))
  {
    match item
    case TextItem(t) => Some(Card({CardCss}, Warning(t), []))
    case RecordItem(f, steps) =>
      if kind == Some("playlist") then
        Some(Card({CardCss}, Track(Field(f, "title"), Field(f, "artist"), Field(f, "usage")), []))
      else if kind == Some("routines") then
        if steps.Some? then Some(Card({CardCss}, Routine(Field(f, "title"), steps.value), [])) else None
      else
        Some(Card({CardCss}, Instruction(Field(f, "name"), Field(f, "description"), Field(f, "cue")), []))
  }

  /** A bare-string item renders the same in sections of any type. */
  lemma WarningWhateverKind(t: string, k1: Option<string>, k2: Option<string>)
    ensures ItemCard(TextItem(t), k1) == ItemCard(TextItem(t), k2)
  {
  }

  /** The cards of a section's items, in order; None if any item throws. */
  function ItemCards(items: seq<Item>, kind: Option<string>): (r: Option<seq<Card>>)
    ensures r.Some? <==> forall k :: 0 <= k < |items| ==> ItemCard(items[k], kind).Some?
    ensures r.Some? ==> |r.value| == |items|
                        && forall k :: 0 <= k < |items| ==> Some(r.value[k]) == ItemCard(items[k], kind)
  {
    if items == [] then Some([])
    else
      match (ItemCard(items[0], kind), ItemCards(items[1..], kind))
      case (Some(c), Some(cs)) => Some([c] + cs)
      case _ => None
  }

  /** One section: its title, then its items' cards (none when `items` is absent). */
  function ActivitySectionNode(s: ActivitySection): (r: Option<Section>)
    ensures s.items.None? ==> r == Some(Section(s.title, []))
    ensures s.items.Some? ==> (r.Some? <==> ItemCards(s.items.value, s.kind).Some?)
    ensures s.items.Some? && r.Some? ==> r.value.cards == ItemCards(s.items.value, s.kind).value
    ensures r.Some? ==> r.value.title == s.title
  {
    match s.items
    case None => Some(Section(s.title, []))
    case Some(items) =>
      match ItemCards(items, s.kind)
      case None => None
      case Some(cards) => Some(Section(s.title, cards))
  }

  function ActivitySections(sections: seq<ActivitySection>): (r: Option<seq<Section>>)
    ensures r.Some? <==> forall j :: 0 <= j < |sections| ==> ActivitySectionNode(sections[j]).Some?
    ensures r.Some? ==> |r.value| == |sections|
                        && forall j :: 0 <= j < |sections| ==> Some(r.value[j]) == ActivitySectionNode(sections[j])
  {
    if sections == [] then Some([])
    else
      match (ActivitySectionNode(sections[0]), ActivitySections(sections[1..]))
      case (Some(s), Some(ss)) => Some([s] + ss)
      case _ => None
  }

  /** The header text `${icon || ''} ${title} (${bpm_range || ''})`, without its markup. */
  function ActivityHeader(c: ActivityCategory): string {
    c.icon.GetOr("") + " " + c.title + " (" + c.bpmRange.GetOr("") + ")"
  }

  /** One activity category's accordion; None if one of its items throws. */
  function ActivityAccordion(c: ActivityCategory): (r: Option<Accordion>)
    ensures r.Some? ==> !r.value.open && r.value.id == None && r.value.header == ActivityHeader(c)
    ensures r.Some? ==> r.value.description == Truthy(c.description)
    ensures c.sections.None? ==> r.Some? && r.value.sections == []
    ensures c.sections.Some? ==> (r.Some? <==> ActivitySections(c.sections.value).Some?)
    ensures c.sections.Some? && r.Some? ==> r.value.sections == ActivitySections(c.sections.value).value
  {
    var a := CreateAccordion(ActivityHeader(c), None).(description := Truthy(c.description));
    match c.sections
    case None => Some(a)
    case Some(ss) =>
      match ActivitySections(ss)
      case None => None
      case Some(nodes) => Some(a.(sections := nodes))
  }

  /**
   * The accordions appended before the first category that throws: those of
   * the longest prefix of `cats` whose categories all render.
   */
  function ActivityAccordions(cats: seq<ActivityCategory>): (r: seq<Accordion>)
    ensures |r| <= |cats|
    ensures forall i :: 0 <= i < |r| ==> ActivityAccordion(cats[i]) == Some(r[i])
    ensures |r| < |cats| ==> ActivityAccordion(cats[|r|]).None?
  {
    if cats == [] then []
    else
      match ActivityAccordion(cats[0])
      case None => []
      case Some(a) => [a] + ActivityAccordions(cats[1..])
  }

  /** `renderActivities(data)`: nothing when `categories` is absent. */
  function RenderActivities(doc: ActivityDoc): (r: seq<Accordion>)
    ensures doc.categories.None? ==> r == []
    ensures doc.categories.Some? ==> r == ActivityAccordions(doc.categories.value)
  {
    match doc.categories
    case None => []
    case Some(cats) => ActivityAccordions(cats)
  }

  /**
   * Every rendered activity card is its item's card: card k of section j of
   * accordion i is `ItemCard` of item k of section j of category i, under
   * that section's type; a section without items has no cards.
   */
  lemma ActivityCardAt(cats: seq<ActivityCategory>, i: nat, j: nat)
    requires i < |ActivityAccordions(cats)| && cats[i].sections.Some?
    requires j < |cats[i].sections.value|
    ensures j < |ActivityAccordions(cats)[i].sections|
    ensures ActivityAccordions(cats)[i].sections[j].title == cats[i].sections.value[j].title
    ensures cats[i].sections.value[j].items.None? ==> ActivityAccordions(cats)[i].sections[j].cards == []
    ensures cats[i].sections.value[j].items.Some? ==>
              var s := cats[i].sections.value[j];
              |ActivityAccordions(cats)[i].sections[j].cards| == |s.items.value|
              && forall k :: 0 <= k < |s.items.value| ==>
                   Some(ActivityAccordions(cats)[i].sections[j].cards[k]) == ItemCard(s.items.value[k], s.kind)
  {
  }

  /** When no category throws, there is one accordion per category, in order. */
  lemma ActivitiesComplete(cats: seq<ActivityCategory>)
    requires forall i :: 0 <= i < |cats| ==> ActivityAccordion(cats[i]).Some?
    ensures |ActivityAccordions(cats)| == |cats|
  {
  }

  // ---------------------------------------------------------------- library

  datatype Pair = Pair(en: string, ar: string)
  datatype Topic = Topic(title: string, phrases: Option<seq<Pair>>)
  datatype Chapter = Chapter(id: Option<string>, title: string, topics: Option<seq<Topic>>)

  /** A library card: both texts, speaking and copying the English one. */
  function LibraryCard(p: Pair): (c: Card)
    ensures c.classes == {CardCss, PhraseCss, LibraryCss}
    ensures c.body == PairText(p.en, p.ar) && c.actions == [Speak(p.en, "en"), Copy(p.en)]
  {
    Card({CardCss, PhraseCss, LibraryCss}, PairText(p.en, p.ar), [Speak(p.en, "en"), Copy(p.en)])
  }

  function LibraryCards(pairs: seq<Pair>): (r: seq<Card>)
    ensures |r| == |pairs|
    ensures forall k :: 0 <= k < |r| ==> r[k] == LibraryCard(pairs[k])
  {
    if pairs == [] then [] else [LibraryCard(pairs[0])] + LibraryCards(pairs[1..])
  }

  function TopicSection(t: Topic): Section {
    Section(t.title, if t.phrases.Some? then LibraryCards(t.phrases.value) else [])
  }

  function TopicSections(topics: seq<Topic>): (r: seq<Section>)
    ensures |r| == |topics|
    ensures forall j :: 0 <= j < |r| ==> r[j] == TopicSection(topics[j])
  {
    if topics == [] then [] else [TopicSection(topics[0])] + TopicSections(topics[1..])
  }

  function ChapterAccordion(c: Chapter): Accordion {
    CreateAccordion(c.title, c.id).(sections := if c.topics.Some? then TopicSections(c.topics.value) else [])
  }

  /** `renderLibrary(chapters)`: one closed accordion per chapter, in order. */
  function RenderLibrary(chapters: seq<Chapter>): (r: seq<Accordion>)
    ensures |r| == |chapters|
    ensures forall i :: 0 <= i < |r| ==> r[i] == ChapterAccordion(chapters[i])
  {
    if chapters == [] then [] else [ChapterAccordion(chapters[0])] + RenderLibrary(chapters[1..])
  }

  /**
   * Every library card speaks its English text in "en" and copies it,
   * whatever language the application is set to.
   */
  lemma LibraryCardsSpeakEnglish(chapters: seq<Chapter>)
    ensures forall a, s, c | a in RenderLibrary(chapters) && s in a.sections && c in s.cards ::
              c.body.PairText? && c.actions == [Speak(c.body.en, "en"), Copy(c.body.en)]
  {
  }
}
