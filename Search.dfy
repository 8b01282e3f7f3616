/**
 * The live search filter (`setupSearch`'s input handler). A mounted view is a
 * `Pane`: its accordions, and its card elements in document order, each with
 * the index of its enclosing accordion (`closest('.module-container')`) and a
 * shown flag (`style.display`).
 */
module Search {
  import opened Wrappers
  import opened Text
  import opened Render

  datatype Slot = Slot(card: Card, owner: Option<nat>, shown: bool)
  datatype Pane = Pane(modules: seq<Accordion>, slots: seq<Slot>)

  /** Every card's owner is one of the pane's accordions. */
  predicate Mounted(p: Pane) {
    forall i :: 0 <= i < |p.slots| && p.slots[i].owner.Some? ==> p.slots[i].owner.value < |p.modules|
  }

  /** The cards of a list of sections, in document order. */
  function SectionCards(sections: seq<Section>): seq<Card> {
    if sections == [] then [] else sections[0].cards + SectionCards(sections[1..])
  }

  /** The cards of a tree of accordions, in document order. */
  function TreeCards(tree: seq<Accordion>): seq<Card> {
    if tree == [] then [] else TreeCards(tree[..|tree| - 1]) + SectionCards(tree[|tree| - 1].sections)
  }

  /** The slots of the cards inside accordion `k`, in order. */
  function SectionSlots(sections: seq<Section>, k: nat): (r: seq<Slot>)
    ensures |r| == |SectionCards(sections)|
    ensures forall i :: 0 <= i < |r| ==> r[i] == Slot(SectionCards(sections)[i], Some(k), true)
  {
    if sections == [] then []
    else seq(|sections[0].cards|, i requires 0 <= i < |sections[0].cards| => Slot(sections[0].cards[i], Some(k), true))
         + SectionSlots(sections[1..], k)
  }

  /**
   * The slots of a tree: its cards in document order, shown, each owned by the
   * accordion whose range of cards contains it.
   */
  function TreeSlots(tree: seq<Accordion>): (r: seq<Slot>)
    ensures |r| == |TreeCards(tree)|
    ensures forall i :: 0 <= i < |r| ==> r[i].card == TreeCards(tree)[i] && r[i].shown
    ensures forall i :: 0 <= i < |r| ==>
              (r[i].owner.Some? && r[i].owner.value < |tree|
               && |TreeCards(tree[..r[i].owner.value])| <= i < |TreeCards(tree[..r[i].owner.value + 1])|)
  {
    if tree == [] then []
    else
      var n := |tree| - 1;
      var front := TreeSlots(tree[..n]);
      var last := SectionSlots(tree[n].sections, n);
      assert tree[..n + 1] == tree;
      forall k | 0 <= k <= n ensures tree[..n][..k] == tree[..k] {}
      front + last
  }

  /**
   * A freshly rendered container: the accordions of `tree`, then `loose`
   * cards that sit outside any accordion; every card is shown.
   */
  function Mount(tree: seq<Accordion>, loose: seq<Card>): (p: Pane)
    ensures Mounted(p) && p.modules == tree
    ensures forall i :: 0 <= i < |p.slots| ==> p.slots[i].shown
    ensures |p.slots| == |TreeCards(tree)| + |loose|
    ensures forall i :: 0 <= i < |TreeCards(tree)| ==> p.slots[i].card == TreeCards(tree)[i] && p.slots[i].owner.Some?
    ensures forall i :: 0 <= i < |loose| ==> p.slots[|TreeCards(tree)| + i] == Slot(loose[i], None, true)
  {
    Pane(tree, TreeSlots(tree) + seq(|loose|, i requires 0 <= i < |loose| => Slot(loose[i], None, true)))
  }

  /** The text `innerText` gives for a card, without its button glyphs. */
  function CardText(b: Body): string {
    match b
    case Phrase(t) => t
    case PairText(en, ar) => en + "\n" + ar
    case Warning(t) => t
    case Track(title, artist, usage) => title + "\n" + artist + " - " + usage
    case Routine(title, steps) => title + "\n" + Lines(steps)
    case Instruction(name, description, cue) => name + "\n" + description + "\n" + cue
  }

  function Lines(items: seq<string>): string {
    if items == [] then "" else items[0] + "\n" + Lines(items[1..])
  }

  /** The selector `.phrase-card, .activity-card`. */
  predicate Considered(c: Card) {
    PhraseCss in c.classes || ActivityCss in c.classes
  }

  /** `card.innerText.toLowerCase().includes(query.toLowerCase())`. */
  predicate Matches(c: Card, query: string) {
    Contains(Lower(CardText(c.body)), Lower(query))
  }

  /** Some considered card owned by accordion `k` among the first `n` matches, and the query is long enough. */
  predicate OpensWithin(p: Pane, query: string, k: nat, n: nat) {
    |Lower(query)| > 1 &&
    exists j :: 0 <= j < n && j < |p.slots| && p.slots[j].owner == Some(k)
                && Considered(p.slots[j].card) && Matches(p.slots[j].card, query)
  }

  predicate Opens(p: Pane, query: string, k: nat) {
    OpensWithin(p, query, k, |p.slots|)
  }

  function FilterSlot(s: Slot, query: string): Slot {
    if Considered(s.card) then s.(shown := Matches(s.card, query)) else s
  }

  function OpenIf(a: Accordion, b: bool): Accordion {
    if b then a.(open := true) else a
  }

  /** The pane after one run of the search handler with `query` typed in. */
  function Filter(p: Pane, query: string): Pane {
    Pane(seq(|p.modules|, k requires 0 <= k < |p.modules| => OpenIf(p.modules[k], Opens(p, query, k))),
         seq(|p.slots|, i requires 0 <= i < |p.slots| => FilterSlot(p.slots[i], query)))
  }

  /** Looking at one more card can only open that card's owner. */
  lemma OpensStep(p: Pane, query: string, n: nat)
    requires n < |p.slots|
    ensures forall k: nat :: OpensWithin(p, query, k, n + 1) <==>
              OpensWithin(p, query, k, n)
              || (p.slots[n].owner == Some(k) && |Lower(query)| > 1
                  && Considered(p.slots[n].card) && Matches(p.slots[n].card, query))
  {
  }

  /**
   * The handler's loop: for each card the selector picks, show it iff its
   * lower-cased text contains the lower-cased query, and when it is shown, the
   * query is longer than one character and it has an owning accordion, open
   * that accordion.
   */
  method FilterPane(p: Pane, input: string) returns (r: Pane)
    requires Mounted(p)
    ensures r == Filter(p, input)
  {
    var query := Lower(input);
    var modules := p.modules;
    var slots := p.slots;
    var i := 0;
    while i < |slots|
      invariant 0 <= i <= |slots| == |p.slots| && |modules| == |p.modules|
      invariant forall j :: 0 <= j < i ==> slots[j] == FilterSlot(p.slots[j], input)
      invariant forall j :: i <= j < |slots| ==> slots[j] == p.slots[j]
      invariant forall k :: 0 <= k < |modules| ==> modules[k] == OpenIf(p.modules[k], OpensWithin(p, input, k, i))
    {
      var slot := slots[i];
      if Considered(slot.card) {
        var text := Lower(CardText(slot.card.body));
        if Contains(text, query) {
          slots := slots[i := slot.(shown := true)];
          if |query| > 1 && slot.owner.Some? {
            var k := slot.owner.value;
            modules := modules[k := modules[k].(open := true)];
          }
        } else {
          slots := slots[i := slot.(shown := false)];
        }
      }
      OpensStep(p, input, i);
      i := i + 1;
    }
    r := Pane(modules, slots);
  }

  // ---------------------------------------------------------------- properties

  /** A considered card ends up shown exactly when it matches; other cards are untouched. */
  lemma FilterVisibility(p: Pane, query: string, i: nat)
    requires i < |p.slots|
    ensures |Filter(p, query).slots| == |p.slots|
    ensures Considered(p.slots[i].card) ==> Filter(p, query).slots[i] == p.slots[i].(shown := Matches(p.slots[i].card, query))
    ensures !Considered(p.slots[i].card) ==> Filter(p, query).slots[i] == p.slots[i]
  {
  }

  /**
   * The filter never closes an accordion; it opens accordion `k` exactly when
   * one of its considered cards matches and the query is longer than one
   * character; nothing else about an accordion changes.
   */
  lemma FilterOpenState(p: Pane, query: string, k: nat)
    requires k < |p.modules|
    ensures |Filter(p, query).modules| == |p.modules|
    ensures Filter(p, query).modules[k].open <==> p.modules[k].open || Opens(p, query, k)
    ensures Filter(p, query).modules[k] == p.modules[k].(open := Filter(p, query).modules[k].open)
  {
  }

  /** An empty query shows every considered card and changes no accordion. */
  lemma EmptyQueryShowsAll(p: Pane)
    ensures Filter(p, "").modules == p.modules
    ensures forall i :: 0 <= i < |p.slots| && Considered(p.slots[i].card) ==> Filter(p, "").slots[i].shown
  {
  }

  /** A one-character query changes no accordion. */
  lemma ShortQueryOpensNothing(p: Pane, query: string)
    requires |query| <= 1
    ensures Filter(p, query).modules == p.modules
  {
  }

  /** Filtering keeps the cards, their owners and their order. */
  lemma FilterKeepsCards(p: Pane, query: string)
    ensures |Filter(p, query).slots| == |p.slots| && |Filter(p, query).modules| == |p.modules|
    ensures forall i :: 0 <= i < |p.slots| ==>
              Filter(p, query).slots[i].card == p.slots[i].card && Filter(p, query).slots[i].owner == p.slots[i].owner
    ensures forall k :: 0 <= k < |p.modules| ==> Filter(p, query).modules[k].sections == p.modules[k].sections
    ensures Mounted(p) ==> Mounted(Filter(p, query))
  {
  }

  /** Running the handler twice with the same query is the same as running it once. */
  lemma FilterIdempotent(p: Pane, query: string)
    ensures Filter(Filter(p, query), query) == Filter(p, query)
  {
  }

  /**
   * The search is case-insensitive: a query and its lower-cased form match the
   * same cards and so filter a container the same way.
   */
  lemma MatchesIgnoresCase(c: Card, query: string)
    ensures Matches(c, query) == Matches(c, Lower(query))
  {
    LowerIdempotent(query);
  }

  lemma FilterIgnoresCase(p: Pane, query: string)
    ensures Filter(p, Lower(query)) == Filter(p, query)
  {
    LowerIdempotent(query);
  }

  /** Narrowing the query never closes what a broader search opened (sticky open). */
  lemma StickyOpen(p: Pane, q1: string, q2: string, k: nat)
    requires k < |p.modules| && Filter(p, q1).modules[k].open
    ensures Filter(Filter(p, q1), q2).modules[k].open
  {
  }

  /**
   * Activity cards carry only the `card` class, so the selector never picks
   * them: whatever the query, the filter leaves every activity card as it was.
   */
  lemma ActivityCardsNeverFiltered(doc: ActivityDoc)
    ensures forall a, s, c | a in RenderActivities(doc) && s in a.sections && c in s.cards :: !Considered(c)
  {
  }

  /** So in an activity container, filtering changes nothing at all. */
  lemma {:induction false} ActivityPaneUnfiltered(doc: ActivityDoc, query: string)
    ensures Filter(Mount(RenderActivities(doc), []), query) == Mount(RenderActivities(doc), [])
  {
    var tree := RenderActivities(doc);
    var p := Mount(tree, []);
    ActivityCardsNeverFiltered(doc);
    forall i | 0 <= i < |p.slots| ensures !Considered(p.slots[i].card) {
      TreeCardIn(tree, i);
    }
    assert forall k :: 0 <= k < |p.modules| ==> !Opens(p, query, k);
    assert Filter(p, query).slots == p.slots;
    assert Filter(p, query).modules == p.modules;
  }

  /** Each card of `TreeCards(tree)` is a card of some section of some accordion of `tree`. */
  lemma {:induction false} TreeCardIn(tree: seq<Accordion>, i: nat)
    requires i < |TreeCards(tree)|
    ensures exists a, s :: a in tree && s in a.sections && TreeCards(tree)[i] in s.cards
  {
    var n := |tree| - 1;
    if i < |TreeCards(tree[..n])| {
      TreeCardIn(tree[..n], i);
      var a, s :| a in tree[..n] && s in a.sections && TreeCards(tree[..n])[i] in s.cards;
      assert a in tree;
    } else {
      SectionCardIn(tree[n].sections, i - |TreeCards(tree[..n])|);
    }
  }

  lemma {:induction false} SectionCardIn(sections: seq<Section>, i: nat)
    requires i < |SectionCards(sections)|
    ensures exists s :: s in sections && SectionCards(sections)[i] in s.cards
  {
    if i < |sections[0].cards| {
      assert SectionCards(sections)[i] == sections[0].cards[i];
    } else {
      SectionCardIn(sections[1..], i - |sections[0].cards|);
      var s :| s in sections[1..] && SectionCards(sections[1..])[i - |sections[0].cards|] in s.cards;
      assert s in sections;
    }
  }
}
