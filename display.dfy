/** The number containers of the page, `displaySingleSet` and
    `displayMultipleSets` (script.js:68-114), and the way the send handlers
    read the displayed sets back (script.js:173-182, 238-247). The DOM is
    abstracted to what those functions produce and query: a container holds a
    list of `.number-set-item` elements, each holding `span` elements that are
    or are not of class `placeholder`. */
module Display {
  import opened Text

  datatype Span = Span(text: string, placeholder: bool)

  /** A `.number-set-item` element: the prompt shown for an empty collection,
      or one numbered set with its `.set-title` division (not a span). */
  datatype Item =
    | Prompt(spans: seq<Span>)
    | NumberSet(title: string, spans: seq<Span>)

  const PromptText := "눌러봐!"
  const FailedText := "생성 실패 🥲"

  /** The item an empty collection is rendered as (script.js:101-104). */
  const PromptItem := Prompt([Span(PromptText, true)])

  function SetTitle(setIndex: nat): string {
    NatToString(setIndex) + "번째 세트: "
  }

  /** `span:not(.placeholder)` texts of one item, in document order. */
  function ReadItem(spans: seq<Span>): (values: seq<string>)
    ensures |values| <= |spans|
  {
    if spans == [] then []
    else (if spans[0].placeholder then [] else [spans[0].text]) + ReadItem(spans[1..])
  }

  /** One plain span per value, in order (script.js:83-87): none of them is a
      placeholder, so reading them back gives the values. */
  function ValueSpans(values: seq<string>): (spans: seq<Span>)
    ensures |spans| == |values|
    ensures forall i :: 0 <= i < |spans| ==> !spans[i].placeholder
    ensures ReadItem(spans) == values
  {
    if values == [] then []
    else
      var rest := ValueSpans(values[1..]);
      var spans := [Span(values[0], false)] + rest;
      assert spans[1..] == rest;
      spans
  }

  /** `displaySingleSet` (script.js:68-88): the item for one set carries the
      set's numbered title and reads back as the set's values; an empty set
      shows only the "generation failed" placeholder. */
  function SingleSet(values: seq<string>, setIndex: nat): (item: Item)
    ensures item.NumberSet? && item.title == SetTitle(setIndex)
    ensures ReadItem(item.spans) == values
    ensures values == [] ==> item.spans == [Span(FailedText, true)]
    ensures |item.spans| == if values == [] then 1 else |values|
  {
    var spans := if |values| == 0 then [Span(FailedText, true)] else ValueSpans(values);
    assert values == [] ==> ReadItem(spans) == ReadItem(spans[1..]);
    NumberSet(SetTitle(setIndex), spans)
  }

  /** The items `displayMultipleSets` leaves in a container (script.js:96-114):
      the prompt alone for no sets, otherwise one item per set, titled with
      its 1-based position and reading back as that set. */
  function Rendered(allSets: seq<seq<string>>): (items: seq<Item>)
    ensures |allSets| == 0 ==> items == [PromptItem]
    ensures |allSets| > 0 ==> |items| == |allSets|
    ensures forall i :: 0 <= i < |allSets| ==>
      items[i].NumberSet? && items[i].title == SetTitle(i + 1) && ReadItem(items[i].spans) == allSets[i]
  {
    if |allSets| == 0 then [PromptItem]
    else seq(|allSets|, i requires 0 <= i < |allSets| => SingleSet(allSets[i], i + 1))
  }

  /** The `map`/`filter` pipeline of the send handlers: each item's
      non-placeholder texts, with items that have none dropped. */
  function Scrape(items: seq<Item>): (sets: seq<seq<string>>)
    ensures |sets| <= |items|
    ensures forall i :: 0 <= i < |sets| ==> |sets[i]| > 0
  {
    if items == [] then []
    else
      var values := ReadItem(items[0].spans);
      (if |values| > 0 then [values] else []) + Scrape(items[1..])
  }

  /** The sets that are not empty, in their order. */
  function NonEmpty(sets: seq<seq<string>>): seq<seq<string>> {
    if sets == [] then []
    else (if |sets[0]| > 0 then [sets[0]] else []) + NonEmpty(sets[1..])
  }

  lemma {:induction false} ScrapeItems(items: seq<Item>, sets: seq<seq<string>>)
    requires |items| == |sets|
    requires forall i :: 0 <= i < |items| ==> ReadItem(items[i].spans) == sets[i]
    ensures Scrape(items) == NonEmpty(sets)
  {
    if items != [] {
      ScrapeItems(items[1..], sets[1..]);
    }
  }

  /** Render-then-read round trip: the send handlers recover every displayed
      non-empty set, in order; the prompt and failed sets are dropped. */
  lemma {:induction false} ScrapeRendered(allSets: seq<seq<string>>)
    ensures Scrape(Rendered(allSets)) == NonEmpty(allSets)
  {
    var items := Rendered(allSets);
    if |allSets| == 0 {
      assert Scrape(items) == Scrape(items[1..]);
    } else {
      ScrapeItems(items, allSets);
    }
  }

  lemma {:induction false} NonEmptyAll(sets: seq<seq<string>>)
    requires forall i :: 0 <= i < |sets| ==> |sets[i]| > 0
    ensures NonEmpty(sets) == sets
  {
    if sets != [] {
      NonEmptyAll(sets[1..]);
    }
  }

  /** The items for the first `i` sets, then the item for the next one, are
      the items for the first `i + 1`; for `i` past the last set they are all
      of them. */
  lemma RenderedStep(allSets: seq<seq<string>>, i: nat)
    requires 0 < |allSets| && i <= |allSets|
    ensures i < |allSets| ==>
      Rendered(allSets)[..i + 1] == Rendered(allSets)[..i] + [SingleSet(allSets[i], i + 1)]
    ensures i == |allSets| ==> Rendered(allSets)[..i] == Rendered(allSets)
  {
  }

  /** A container element (`lottoNumbersContainer`, `pensionNumbersContainer`). */
  class Container {
    var items: seq<Item>

    constructor (initial: seq<Item>)
      ensures items == initial
    {
      items := initial;
    }

    /** The sets the send handlers read from this container. */
    function Displayed(): (sets: seq<seq<string>>)
      reads this
      ensures forall i :: 0 <= i < |sets| ==> |sets[i]| > 0
    {
      Scrape(items)
    }

    /** `displayMultipleSets(this, allSets, type)` (script.js:96-114): clear the
        container, then append the prompt or one item per set. */
    method DisplayMultipleSets(allSets: seq<seq<string>>)
      modifies this
      ensures items == Rendered(allSets)
      ensures Displayed() == NonEmpty(allSets)
    {
      items := [];
      if |allSets| == 0 {
        items := items + [PromptItem];
      } else {
        for i := 0 to |allSets|
          invariant items == Rendered(allSets)[..i]
        {
          RenderedStep(allSets, i);
          items := items + [SingleSet(allSets[i], i + 1)];
        }
        RenderedStep(allSets, |allSets|);
      }
      ScrapeRendered(allSets);
    }
  }
}
