/** The "describe your idea, get a preview" step (src/components/ToolBuilder.tsx):
    a keyword classifier choosing one of four mock-ups, the preview's title and
    description, and the generate button's two-phase state change. */
module ToolBuilderPage {
  import opened Wrappers
  import opened Strings
  import opened Types

  // ---------------------------------------------------------------- classification

  /** The four mock-up kinds a preview can show. */
  predicate IsMockKind(k: string) {
    k == "calculator" || k == "timer" || k == "todo" || k == "generic"
  }

  /** `generateMockComponent`: the first keyword group that occurs in the lowered idea
      decides the kind. */
  function GenerateMockComponent(idea: string): (r: string)
    ensures IsMockKind(r)
  {
    var lowercaseIdea := Lower(idea);
    if Contains(lowercaseIdea, "calculator") || Contains(lowercaseIdea, "calc") then "calculator"
    else if Contains(lowercaseIdea, "timer") || Contains(lowercaseIdea, "countdown") then "timer"
    else if Contains(lowercaseIdea, "todo") || Contains(lowercaseIdea, "task") then "todo"
    else "generic"
  }

  /** An idea mentioning "calculator" mentions "calc", so the first test reduces to "calc". */
  lemma CalculatorImpliesCalc(s: string)
    requires Contains(s, "calculator")
    ensures Contains(s, "calc")
  {
    ContainsPrefix(s, "calculator", "calc");
  }

  /** The precedence of the keyword groups, each kind stated by the keywords that must
      and must not occur in the lowered idea. */
  lemma MockComponentByKeywords(idea: string)
    ensures var l := Lower(idea);
      && (GenerateMockComponent(idea) == "calculator" <==> Contains(l, "calc"))
      && (GenerateMockComponent(idea) == "timer" <==>
            !Contains(l, "calc") && (Contains(l, "timer") || Contains(l, "countdown")))
      && (GenerateMockComponent(idea) == "todo" <==>
            !Contains(l, "calc") && !Contains(l, "timer") && !Contains(l, "countdown") &&
            (Contains(l, "todo") || Contains(l, "task")))
      && (GenerateMockComponent(idea) == "generic" <==>
            !Contains(l, "calc") && !Contains(l, "timer") && !Contains(l, "countdown") &&
            !Contains(l, "todo") && !Contains(l, "task"))
  {
    if Contains(Lower(idea), "calculator") {
      CalculatorImpliesCalc(Lower(idea));
    }
  }

  /** Classification ignores letter case. */
  lemma MockComponentIgnoresCase(idea: string)
    ensures GenerateMockComponent(idea) == GenerateMockComponent(Lower(idea))
  {
    LowerIdempotent(idea);
  }

  // ---------------------------------------------------------------- title and description

  function Min(a: int, b: int): int {
    if a <= b then a else b
  }

  /** The preview title: the first three pieces of `idea.split(' ')`, joined again with
      single spaces, followed by " Tool". */
  function PreviewTitle(idea: string): string {
    var words := Split(idea, ' ');
    Join(words[..Min(3, |words|)], ' ') + " Tool"
  }

  /** The title is a prefix of the idea followed by " Tool"; the prefix stops just before
      a space of the idea or is the whole idea, and it is the whole idea when the idea has
      fewer than three spaces. */
  lemma PreviewTitleShape(idea: string)
    ensures exists p ::
      && PreviewTitle(idea) == p + " Tool" && p <= idea
      && (p == idea || (|p| < |idea| && idea[|p|] == ' '))
    ensures Count(idea, ' ') < 3 ==> PreviewTitle(idea) == idea + " Tool"
  {
    var words := Split(idea, ' ');
    SplitLength(idea, ' ');
    SplitTakeIsPrefix(idea, ' ', Min(3, |words|));
    var p := Join(words[..Min(3, |words|)], ' ');
    assert PreviewTitle(idea) == p + " Tool";
  }

  /** The title of an idea given as its space-free words. */
  lemma {:induction false} PreviewTitleOfWords(words: seq<string>)
    requires |words| >= 1
    requires forall w :: w in words ==> ' ' !in w
    ensures PreviewTitle(Join(words, ' ')) == Join(words[..Min(3, |words|)], ' ') + " Tool"
  {
    SplitJoin(words, ' ');
  }

  /** The words of the worked example, joined. */
  lemma ExampleWordsJoin()
    ensures Join(["a", "simple", "calculator", "for", "math", "homework"], ' ') == "a simple calculator for math homework"
    ensures Join(["a", "simple", "calculator"], ' ') == "a simple calculator"
  {
    var first := ["a", "simple", "calculator"];
    var rest := ["for", "math", "homework"];
    assert Join(["a", "simple", "calculator"], ' ') == "a simple calculator";
    assert Join(["for", "math", "homework"], ' ') == "for math homework";
    JoinAppend(first, rest, ' ');
    assert first + rest == ["a", "simple", "calculator", "for", "math", "homework"];
  }

  /** A worked example: "a simple calculator for math homework" gives
      "a simple calculator Tool". */
  lemma PreviewTitleExample(idea: string)
    requires idea == "a simple calculator for math homework"
    ensures PreviewTitle(idea) == "a simple calculator Tool"
  {
    var words := ["a", "simple", "calculator", "for", "math", "homework"];
    ExampleWordsJoin();
    PreviewTitleOfWords(words);
    assert words[..3] == ["a", "simple", "calculator"];
  }

  /** Splitting on one space keeps empty words: a double space counts as a word boundary. */
  lemma PreviewTitleDoubleSpace(idea: string)
    requires idea == "a  timer app"
    ensures PreviewTitle(idea) == "a  timer Tool"
  {
    var words := ["a", "", "timer", "app"];
    assert Join(["a", "", "timer", "app"], ' ') == "a  timer app";
    assert Join(["a", "", "timer"], ' ') == "a  timer";
    PreviewTitleOfWords(words);
    assert words[..3] == ["a", "", "timer"];
  }

  const DescriptionLead := "A powerful tool for "
  const DescriptionTail := ". This tool provides an intuitive interface with modern design and seamless functionality."

  /** The preview description: a fixed sentence around the lowered idea. */
  function PreviewDescription(idea: string): string {
    DescriptionLead + Lower(idea) + DescriptionTail
  }

  /** Reads the idea back out of a description (as lowered text). */
  function IdeaOfDescription(d: string): string
    requires |d| >= |DescriptionLead| + |DescriptionTail|
  {
    d[|DescriptionLead|..|d| - |DescriptionTail|]
  }

  /** The description carries exactly the lowered idea between its fixed parts. */
  lemma PreviewDescriptionRecoversIdea(idea: string)
    ensures |PreviewDescription(idea)| == |DescriptionLead| + |idea| + |DescriptionTail|
    ensures IdeaOfDescription(PreviewDescription(idea)) == Lower(idea)
    ensures PreviewDescription(idea) == PreviewDescription(Lower(idea))
  {
    var d := PreviewDescription(idea);
    assert d[|DescriptionLead|..|d| - |DescriptionTail|] == Lower(idea);
    LowerIdempotent(idea);
  }

  /** The preview generated for an idea. */
  function MakePreview(idea: string): GeneratedPreview {
    GeneratedPreview(PreviewTitle(idea), GenerateMockComponent(idea), PreviewDescription(idea))
  }

  // ---------------------------------------------------------------- component state

  /** The builder's state. `scheduled` holds, oldest first, the ideas captured by the
      generation timers that have been started and have not yet fired: the timer's
      callback uses the idea as it was when the button was pressed. */
  class BuilderState {
    var toolIdea: string
    var isGenerating: bool
    var preview: Option<GeneratedPreview>
    var scheduled: seq<string>

    /** With the button disabled while generating, at most one timer is in flight and
        it is in flight exactly while the spinner shows. */
    predicate Valid()
      reads this
    {
      |scheduled| <= 1 && (isGenerating <==> scheduled != [])
    }

    constructor ()
      ensures toolIdea == "" && !isGenerating && preview == None && scheduled == []
      ensures Valid()
    {
      toolIdea := "";
      isGenerating := false;
      preview := None;
      scheduled := [];
    }

    /** The generate button is enabled. */
    predicate CanGenerate()
      reads this
    {
      Trim(toolIdea) != "" && !isGenerating
    }

    /** The text area's change handler. */
    method EditIdea(text: string)
      modifies this
      ensures toolIdea == text
      ensures isGenerating == old(isGenerating) && preview == old(preview) && scheduled == old(scheduled)
    {
      toolIdea := text;
    }

    /** `handleGenerate` up to the timer: a blank idea changes nothing; otherwise the
        spinner is shown and a timer is scheduled for the current idea. */
    method Generate() returns (started: bool)
      modifies this
      ensures started <==> Trim(old(toolIdea)) != ""
      ensures started ==> isGenerating && scheduled == old(scheduled) + [old(toolIdea)]
      ensures !started ==> isGenerating == old(isGenerating) && scheduled == old(scheduled)
      ensures toolIdea == old(toolIdea) && preview == old(preview)
      ensures old(Valid()) && !old(isGenerating) ==> Valid()
    {
      if Trim(toolIdea) == "" {
        return false;
      }
      isGenerating := true;
      scheduled := scheduled + [toolIdea];
      started := true;
    }

    /** The timer's callback: the preview is replaced wholesale by the one generated
        from the captured idea and the spinner stops. */
    method FinishGeneration()
      requires scheduled != []
      modifies this
      ensures preview == Some(MakePreview(old(scheduled[0])))
      ensures !isGenerating
      ensures scheduled == old(scheduled[1..]) && toolIdea == old(toolIdea)
      ensures old(Valid()) ==> Valid()
    {
      preview := Some(MakePreview(scheduled[0]));
      isGenerating := false;
      scheduled := scheduled[1..];
    }

    /** The "Publish This Tool" button, shown only under a preview: it asks the router
        for the publish view and hands it the preview. */
    function PublishRequest(): (r: (PageType, Option<GeneratedPreview>))
      reads this
      requires preview.Some?
      ensures r.0 == Publish && r.1 == preview
    {
      (Publish, preview)
    }
  }

  /** A press on an enabled button followed by the timer firing leaves the preview of the
      idea that was typed, and the builder idle again. */
  method GenerateThenFinish(b: BuilderState)
    requires b.Valid() && b.CanGenerate()
    modifies b
    ensures b.Valid() && !b.isGenerating
    ensures b.preview == Some(MakePreview(old(b.toolIdea)))
  {
    var started := b.Generate();
    b.FinishGeneration();
  }
}
