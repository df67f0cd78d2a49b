/** The insight detail page: the title built from the route's category, the mission panel that
    the "How Can I Use This Insight?" button reveals, and the assistant's input box. */
module InsightDetail {
  import opened Options
  import opened Strings

  /** The example prompts offered above the input box. */
  const ExamplePrompts: seq<string> := [
    "Why are returns increasing?",
    "Show me feedback on Product X",
    "How do I lower returns?"
  ]

  /** `categoryTitle`: "Insight" for a missing or empty category, otherwise the category with
      its first character upper-cased and the rest unchanged. */
  function CategoryTitle(category: Option<string>): (r: string)
    ensures category.None? || category.value == [] ==> r == "Insight"
    ensures category.Some? && category.value != [] ==>
      |r| == |category.value| && r[0] == UpperChar(category.value[0])
      && forall i :: 0 < i < |r| ==> r[i] == category.value[i]
  {
    if category.Some? && category.value != [] then
      [UpperChar(category.value[0])] + category.value[1..]
    else
      "Insight"
  }

  /** Capitalising a title again changes nothing. */
  lemma CategoryTitleIdempotent(category: Option<string>)
    ensures CategoryTitle(Some(CategoryTitle(category))) == CategoryTitle(category)
  {
    var t := CategoryTitle(category);
    if category.Some? && category.value != [] {
      UpperCharIdempotent(category.value[0]);
      CategoryTitleUnchangedIff(t);
    } else {
      CategoryTitleUnchangedIff("Insight");
    }
  }

  /** A title is its own category's title exactly when the category already starts with a
      character that upper-casing leaves alone. */
  lemma CategoryTitleUnchangedIff(category: string)
    requires category != []
    ensures CategoryTitle(Some(category)) == category <==> UpperChar(category[0]) == category[0]
  {
    var r := CategoryTitle(Some(category));
    if UpperChar(category[0]) == category[0] {
      assert r == category;
    } else {
      assert r[0] != category[0];
    }
  }

  /** The page's local state. */
  class InsightPage {
    var showMission: bool
    var input: string

    /** The mission panel is hidden and the input empty on first render. */
    constructor ()
      ensures !showMission && input == ""
    {
      showMission := false;
      input := "";
    }

    /** The mission button: it shows the panel; no handler ever hides it again. */
    method RevealMission()
      modifies this`showMission
      ensures showMission
    {
      showMission := true;
    }

    /** The input box's `onChange`: the input becomes the typed text; the panel is untouched. */
    method SetInput(text: string)
      modifies this`input
      ensures input == text
    {
      input := text;
    }

    /** An example prompt's button copies that prompt into the input. */
    method PickPrompt(i: nat)
      requires i < |ExamplePrompts|
      modifies this`input
      ensures input == ExamplePrompts[i] && input in ExamplePrompts
    {
      input := ExamplePrompts[i];
    }
  }

  /** Once revealed, the panel stays shown on any page, whatever is typed or picked afterwards. */
  method MissionStaysRevealed(page: InsightPage, text: string, i: nat)
    requires page.showMission && i < |ExamplePrompts|
    modifies page
    ensures page.showMission && page.input == ""
  {
    page.SetInput(text);
    page.PickPrompt(i);
    page.SetInput("");
  }
}
