/** The tool gallery (src/components/Gallery.tsx): a fixed list of tools, a search box
    combined with a tag filter, the icon shown for a tool, and the like and monetise
    buttons, which ask an unauthenticated visitor to log in instead. */
module GalleryPage {
  import opened Wrappers
  import opened Strings
  import opened Seqs
  import opened Types

  // ---------------------------------------------------------------- sample data

  const MemeCaptionGenerator := Tool("1", "Meme Caption Generator",
    "Type a scenario, get a meme with AI-generated captions and matching scenes.",
    ["memes", "creativity", "fun"], "MemeGenie", 224, None, Some(1200))

  const ColorPaletteExtractor := Tool("2", "Color Palette Extractor",
    "Upload an image and get a beautiful color palette and UI theme suggestions.",
    ["design", "colors", "palette"], "ColorCraft", 185, None, Some(1150))

  const ReelScriptGenerator := Tool("3", "Reel Script Generator",
    "Generate short-form content scripts for Reels and TikToks from a topic.",
    ["content", "video", "scripts"], "ReelSmith", 201, None, Some(900))

  const VisualMoodboardMaker := Tool("4", "Visual Moodboard Maker",
    "Type a concept, get a moodboard of images, colors, and styles.",
    ["aesthetics", "design", "moodboard"], "VibeCraft", 132, None, Some(750))

  // the description is written in pieces, which keeps proofs about its letters small
  const AIPosterDesigner := Tool("5", "AI Poster Designer",
    "Give a theme and title" + ", and auto-generate a" + " poster layout with" + " visuals.",
    ["poster", "design", "templates"], "PosterBot", 176, None, Some(980))

  const InstagramCarouselBuilder := Tool("6", "Instagram Carousel Builder",
    "Generate a multi-slide carousel post from a blog or idea instantly.",
    ["content", "instagram", "carousel"], "SlideSavvy", 149, None, Some(650))

  /** The gallery's list, in display order. */
  const SampleTools: seq<Tool> := [
    MemeCaptionGenerator, ColorPaletteExtractor, ReelScriptGenerator,
    VisualMoodboardMaker, AIPosterDesigner, InstagramCarouselBuilder
  ]

  // ---------------------------------------------------------------- search and filter

  /** The search box matches the title, the description or one of the tags, ignoring case. */
  predicate MatchesSearch(tool: Tool, searchTerm: string) {
    var term := Lower(searchTerm);
    || Contains(Lower(tool.title), term)
    || Contains(Lower(tool.description), term)
    || exists tag :: tag in tool.tags && Contains(Lower(tag), term)
  }

  /** The category filter: "all", or a tag the tool carries exactly. */
  predicate MatchesFilter(tool: Tool, selectedFilter: string) {
    selectedFilter == "all" || selectedFilter in tool.tags
  }

  predicate Keep(tool: Tool, searchTerm: string, selectedFilter: string) {
    MatchesSearch(tool, searchTerm) && MatchesFilter(tool, selectedFilter)
  }

  /** `filteredTools`: the tools passing both the search and the filter, in list order. */
  function FilterTools(tools: seq<Tool>, searchTerm: string, selectedFilter: string): seq<Tool> {
    if tools == [] then []
    else
      var rest := FilterTools(tools[1..], searchTerm, selectedFilter);
      if Keep(tools[0], searchTerm, selectedFilter) then [tools[0]] + rest else rest
  }

  /** The filtered list is drawn from the list in order, every tool in it passes both
      tests, and each tool that passes occurs in it as often as in the list. */
  lemma {:induction false} FilterToolsSpec(tools: seq<Tool>, searchTerm: string, selectedFilter: string)
    ensures var r := FilterTools(tools, searchTerm, selectedFilter);
      && IsSubsequence(r, tools)
      && (forall t :: t in r ==> Keep(t, searchTerm, selectedFilter))
      && (forall t :: multiset(r)[t] == if Keep(t, searchTerm, selectedFilter) then multiset(tools)[t] else 0)
      && (forall t :: t in r <==> t in tools && Keep(t, searchTerm, selectedFilter))
  {
    if tools != [] {
      FilterToolsSpec(tools[1..], searchTerm, selectedFilter);
      var rest := FilterTools(tools[1..], searchTerm, selectedFilter);
      assert tools == [tools[0]] + tools[1..];
      if Keep(tools[0], searchTerm, selectedFilter) {
        assert ([tools[0]] + rest)[1..] == rest;
      }
    }
  }

  /** An empty search term matches every tool. */
  lemma EmptySearchMatchesEverything(tool: Tool)
    ensures MatchesSearch(tool, "")
  {
    ContainsEmpty(Lower(tool.title));
  }

  /** Search ignores the case of the search term. */
  lemma SearchIgnoresCase(tool: Tool, searchTerm: string)
    ensures MatchesSearch(tool, searchTerm) <==> MatchesSearch(tool, Lower(searchTerm))
  {
    LowerIdempotent(searchTerm);
  }

  /** With no search term and the "all" filter the whole list is shown. */
  lemma {:induction false} NoCriteriaShowsAll(tools: seq<Tool>)
    ensures FilterTools(tools, "", "all") == tools
  {
    if tools != [] {
      NoCriteriaShowsAll(tools[1..]);
      EmptySearchMatchesEverything(tools[0]);
    }
  }

  /** Choosing a category only narrows the "all" results: the filtered list is drawn, in
      order, from what the search alone shows. */
  lemma {:induction false} TagFilterNarrows(tools: seq<Tool>, searchTerm: string, selectedFilter: string)
    ensures IsSubsequence(FilterTools(tools, searchTerm, selectedFilter), FilterTools(tools, searchTerm, "all"))
  {
    if tools != [] {
      TagFilterNarrows(tools[1..], searchTerm, selectedFilter);
      var r := FilterTools(tools, searchTerm, selectedFilter);
      var rest := FilterTools(tools[1..], searchTerm, selectedFilter);
      var all := FilterTools(tools[1..], searchTerm, "all");
      if Keep(tools[0], searchTerm, selectedFilter) {
        assert ([tools[0]] + rest)[1..] == rest;
        assert ([tools[0]] + all)[1..] == all;
      } else if MatchesSearch(tools[0], searchTerm) {
        assert ([tools[0]] + all)[1..] == all;
        SubsequenceOfTail(r, [tools[0]] + all);
      }
    }
  }

  /** The category filter compares tags exactly: "Design" is not the tag "design". */
  lemma FilterIsCaseSensitive(tool: Tool, selectedFilter: string)
    requires tool == ColorPaletteExtractor && selectedFilter == "Design"
    ensures "design" in tool.tags && !MatchesFilter(tool, selectedFilter)
  {
    assert tool.tags[0] == "design";
  }

  /** One step of the filter over a suffix of a list. */
  lemma FilterStep(tools: seq<Tool>, i: nat, searchTerm: string, selectedFilter: string)
    requires i < |tools|
    ensures FilterTools(tools[i..], searchTerm, selectedFilter) ==
      (if Keep(tools[i], searchTerm, selectedFilter) then [tools[i]] else []) +
      FilterTools(tools[i + 1..], searchTerm, selectedFilter)
  {
    assert tools[i..][1..] == tools[i + 1..];
  }

  /** Search "" with the "memes" filter shows exactly the meme caption generator. */
  lemma MemesExample(tools: seq<Tool>, searchTerm: string, selectedFilter: string)
    requires tools == SampleTools && searchTerm == "" && selectedFilter == "memes"
    ensures FilterTools(tools, searchTerm, selectedFilter) == [MemeCaptionGenerator]
  {
    EmptySearchMatchesEverything(tools[0]);
    assert MatchesFilter(tools[0], selectedFilter);
    assert forall k :: 1 <= k < 6 ==> !MatchesFilter(tools[k], selectedFilter);
    assert tools[6..] == [];
    FilterStep(tools, 5, searchTerm, selectedFilter);
    FilterStep(tools, 4, searchTerm, selectedFilter);
    FilterStep(tools, 3, searchTerm, selectedFilter);
    FilterStep(tools, 2, searchTerm, selectedFilter);
    FilterStep(tools, 1, searchTerm, selectedFilter);
    FilterStep(tools, 0, searchTerm, selectedFilter);
    assert tools[0..] == tools;
  }

  /** A search term whose lowered form has a letter that neither the tool's texts nor
      their capitals contain does not match that tool. */
  lemma SearchMissesLetter(tool: Tool, searchTerm: string, c: char)
    requires 'a' <= c <= 'z' && c in Lower(searchTerm)
    requires c !in tool.title && (c as int - 32) as char !in tool.title
    requires c !in tool.description && (c as int - 32) as char !in tool.description
    requires forall tag :: tag in tool.tags ==> c !in tag && (c as int - 32) as char !in tag
    ensures !MatchesSearch(tool, searchTerm)
  {
    var term := Lower(searchTerm);
    LowerChars(tool.title, c);
    ContainsChars(Lower(tool.title), term, c);
    LowerChars(tool.description, c);
    ContainsChars(Lower(tool.description), term, c);
    forall tag | tag in tool.tags ensures !Contains(Lower(tag), term) {
      LowerChars(tag, c);
      ContainsChars(Lower(tag), term, c);
    }
  }

  /** The poster designer's texts have no letter c in either case. */
  lemma PosterHasNoC(tool: Tool, searchTerm: string)
    requires tool == AIPosterDesigner && searchTerm == "color"
    ensures !MatchesSearch(tool, searchTerm)
  {
    assert Lower(searchTerm)[0] == 'c';
    PosterTitleHasNoC(tool);
    PosterDescriptionHasNoC(tool);
    PosterTagsHaveNoC(tool);
    SearchMissesLetter(tool, searchTerm, 'c');
  }

  lemma PosterTitleHasNoC(tool: Tool)
    requires tool == AIPosterDesigner
    ensures 'c' !in tool.title && 'C' !in tool.title
  {
  }

  lemma PosterDescriptionHasNoC(tool: Tool)
    requires tool == AIPosterDesigner
    ensures 'c' !in tool.description && 'C' !in tool.description
  {
    var p1, p2, p3, p4 := "Give a theme and title", ", and auto-generate a", " poster layout with", " visuals.";
    assert tool.description == p1 + p2 + p3 + p4;
    assert 'c' !in p1 && 'C' !in p1;
    assert 'c' !in p2 && 'C' !in p2;
    assert 'c' !in p3 && 'C' !in p3;
    assert 'c' !in p4 && 'C' !in p4;
  }

  lemma PosterTagsHaveNoC(tool: Tool)
    requires tool == AIPosterDesigner
    ensures forall tag :: tag in tool.tags ==> 'c' !in tag && 'C' !in tag
  {
  }

  /** "colors" occurs in the moodboard maker's description. */
  lemma MoodboardMentionsColor(tool: Tool, searchTerm: string)
    requires tool == VisualMoodboardMaker && searchTerm == "color"
    ensures MatchesSearch(tool, searchTerm)
  {
    var d := tool.description;
    assert d[43..] == "colors, and styles.";
    assert d[43..48] == d[43..][..5] == "color";
    LowerSlice(d, 43, 48);
    assert Lower("color") == "color";
    assert OccursAt(Lower(d), Lower(searchTerm), 43);
  }

  /** The colour palette extractor's title starts with "Color". */
  lemma PaletteTitleIsColor(tool: Tool, searchTerm: string)
    requires tool == ColorPaletteExtractor && searchTerm == "color"
    ensures MatchesSearch(tool, searchTerm)
  {
    assert Lower(searchTerm) == "color";
    assert OccursAt(Lower(tool.title), "color", 0);
  }

  /** Search "color" with the "design" filter keeps the second and the fourth sample tool:
      the colour palette extractor by its title, the moodboard maker by the "colors" in its
      description; the poster designer carries the tag but not the word. */
  lemma ColorDesignKeeps(tools: seq<Tool>, searchTerm: string, selectedFilter: string)
    requires tools == SampleTools && searchTerm == "color" && selectedFilter == "design"
    ensures |tools| == 6
    ensures Keep(tools[1], searchTerm, selectedFilter) && Keep(tools[3], searchTerm, selectedFilter)
    ensures !Keep(tools[0], searchTerm, selectedFilter) && !Keep(tools[2], searchTerm, selectedFilter)
    ensures !Keep(tools[4], searchTerm, selectedFilter) && !Keep(tools[5], searchTerm, selectedFilter)
  {
    PaletteTitleIsColor(tools[1], searchTerm);
    MoodboardMentionsColor(tools[3], searchTerm);
    PosterHasNoC(tools[4], searchTerm);
    assert !MatchesFilter(tools[0], selectedFilter);
    assert !MatchesFilter(tools[2], selectedFilter);
    assert !MatchesFilter(tools[5], selectedFilter);
  }

  /** A six-tool list of which exactly the second and the fourth pass filters to those two. */
  lemma FilterKeepsSecondAndFourth(tools: seq<Tool>, searchTerm: string, selectedFilter: string)
    requires |tools| == 6
    requires Keep(tools[1], searchTerm, selectedFilter) && Keep(tools[3], searchTerm, selectedFilter)
    requires !Keep(tools[0], searchTerm, selectedFilter) && !Keep(tools[2], searchTerm, selectedFilter)
    requires !Keep(tools[4], searchTerm, selectedFilter) && !Keep(tools[5], searchTerm, selectedFilter)
    ensures FilterTools(tools, searchTerm, selectedFilter) == [tools[1], tools[3]]
  {
    assert tools[6..] == [];
    FilterStep(tools, 5, searchTerm, selectedFilter);
    FilterStep(tools, 4, searchTerm, selectedFilter);
    FilterStep(tools, 3, searchTerm, selectedFilter);
    FilterStep(tools, 2, searchTerm, selectedFilter);
    FilterStep(tools, 1, searchTerm, selectedFilter);
    FilterStep(tools, 0, searchTerm, selectedFilter);
    assert tools[0..] == tools;
  }

  /** The gallery shows the colour palette extractor and the moodboard maker for search
      "color" under the "design" filter. */
  lemma ColorDesignExample(tools: seq<Tool>, searchTerm: string, selectedFilter: string)
    requires tools == SampleTools && searchTerm == "color" && selectedFilter == "design"
    ensures FilterTools(tools, searchTerm, selectedFilter) == [ColorPaletteExtractor, VisualMoodboardMaker]
  {
    ColorDesignKeeps(tools, searchTerm, selectedFilter);
    FilterKeepsSecondAndFourth(tools, searchTerm, selectedFilter);
  }

  // ---------------------------------------------------------------- monetisation

  /** The dialog's figures for a tool: its revenue, or 0 when it has none, and one
      subscriber per whole 15 of that revenue. */
  function MonetizationFor(tool: Tool): (r: MonetizationStats)
    ensures r.toolName == tool.title
    ensures r.totalRevenue == (if tool.revenue.Some? then tool.revenue.value else 0)
    ensures r.usersSubscribed * 15 <= r.totalRevenue < (r.usersSubscribed + 1) * 15
  {
    var revenue := tool.revenue.GetOr(0);
    MonetizationStats(revenue, revenue / 15, tool.title)
  }

  /** Revenue 1200 gives 80 subscribers. */
  lemma MonetizationExample(tool: Tool)
    requires tool == MemeCaptionGenerator
    ensures MonetizationFor(tool) == MonetizationStats(1200, 80, "Meme Caption Generator")
  {
  }

  // ---------------------------------------------------------------- card icon

  /** The emoji on a tool card. */
  datatype Icon = Abacus | AlarmClock | Memo | Palette | Padlock | HammerAndWrench

  /** The tags that select an icon, in the order they are tried, and the icon each selects. */
  const IconTags: seq<string> := ["calculator", "timer", "todo", "design", "security"]
  const TaggedIcons: seq<Icon> := [Abacus, AlarmClock, Memo, Palette, Padlock]

  /** The card icon: the first of the icon tags the tool carries decides. */
  function ToolIcon(tags: seq<string>): Icon {
    if "calculator" in tags then Abacus
    else if "timer" in tags then AlarmClock
    else if "todo" in tags then Memo
    else if "design" in tags then Palette
    else if "security" in tags then Padlock
    else HammerAndWrench
  }

  /** The icon is the one of the first icon tag present, or the default when none is. */
  lemma ToolIconFirstMatch(tags: seq<string>)
    ensures forall k :: 0 <= k < |IconTags| ==>
      (ToolIcon(tags) == TaggedIcons[k] <==>
        IconTags[k] in tags && forall j :: 0 <= j < k ==> IconTags[j] !in tags)
    ensures ToolIcon(tags) == HammerAndWrench <==> forall k :: 0 <= k < |IconTags| ==> IconTags[k] !in tags
  {
    assert IconTags[0] == "calculator" && IconTags[1] == "timer" && IconTags[2] == "todo";
    assert IconTags[3] == "design" && IconTags[4] == "security";
    assert TaggedIcons[0] == Abacus && TaggedIcons[1] == AlarmClock && TaggedIcons[2] == Memo;
    assert TaggedIcons[3] == Palette && TaggedIcons[4] == Padlock;
    forall k | 0 <= k < |IconTags|
      ensures ToolIcon(tags) == TaggedIcons[k] <==>
        IconTags[k] in tags && forall j :: 0 <= j < k ==> IconTags[j] !in tags
    {
      assert k == 0 || k == 1 || k == 2 || k == 3 || k == 4;
    }
  }

  // ---------------------------------------------------------------- component state

  /** The gallery's state: the search box, the category, the monetisation dialog with the
      figures it shows, and the login prompt. */
  class GalleryState {
    var searchTerm: string
    var selectedFilter: string
    var showMonetizeModal: bool
    var selectedToolStats: Option<MonetizationStats>
    var showLoginPrompt: bool

    /** The dialog is only ever open over figures that have been computed. */
    predicate Valid()
      reads this
    {
      showMonetizeModal ==> selectedToolStats.Some?
    }

    constructor ()
      ensures searchTerm == "" && selectedFilter == "all"
      ensures !showMonetizeModal && selectedToolStats == None && !showLoginPrompt
      ensures Valid()
    {
      searchTerm := "";
      selectedFilter := "all";
      showMonetizeModal := false;
      selectedToolStats := None;
      showLoginPrompt := false;
    }

    /** The tools on screen. */
    function VisibleTools(): seq<Tool>
      reads this
    {
      FilterTools(SampleTools, searchTerm, selectedFilter)
    }

    /** The "No tools found" block replaces the grid exactly when nothing passes. */
    predicate ShowsNoResults()
      reads this
    {
      |VisibleTools()| == 0
    }

    method SetSearchTerm(text: string)
      modifies this
      ensures searchTerm == text && selectedFilter == old(selectedFilter)
      ensures showMonetizeModal == old(showMonetizeModal) && selectedToolStats == old(selectedToolStats)
      ensures showLoginPrompt == old(showLoginPrompt)
    {
      searchTerm := text;
    }

    method SetFilter(filter: string)
      modifies this
      ensures selectedFilter == filter && searchTerm == old(searchTerm)
      ensures showMonetizeModal == old(showMonetizeModal) && selectedToolStats == old(selectedToolStats)
      ensures showLoginPrompt == old(showLoginPrompt)
    {
      selectedFilter := filter;
    }

    /** `handleMonetizeClick`: a visitor gets the login prompt and nothing else changes;
        a signed-in user gets the dialog over the tool's figures. */
    method MonetizeClick(tool: Tool, isAuthenticated: bool)
      modifies this
      ensures !isAuthenticated ==>
        showLoginPrompt && showMonetizeModal == old(showMonetizeModal) && selectedToolStats == old(selectedToolStats)
      ensures isAuthenticated ==>
        showMonetizeModal && selectedToolStats == Some(MonetizationFor(tool)) && showLoginPrompt == old(showLoginPrompt)
      ensures searchTerm == old(searchTerm) && selectedFilter == old(selectedFilter)
      ensures old(Valid()) ==> Valid()
    {
      if !isAuthenticated {
        showLoginPrompt := true;
        return;
      }
      selectedToolStats := Some(MonetizationFor(tool));
      showMonetizeModal := true;
    }

    /** `handleLikeClick`: a visitor gets the login prompt; for a signed-in user the only
        effect is the demo alert, reported by `alerted`. */
    method LikeClick(isAuthenticated: bool) returns (alerted: bool)
      modifies this
      ensures alerted == isAuthenticated
      ensures showLoginPrompt == (!isAuthenticated || old(showLoginPrompt))
      ensures showMonetizeModal == old(showMonetizeModal) && selectedToolStats == old(selectedToolStats)
      ensures searchTerm == old(searchTerm) && selectedFilter == old(selectedFilter)
    {
      if !isAuthenticated {
        showLoginPrompt := true;
        return false;
      }
      alerted := true;
    }

    /** The prompt's close button and its "Cancel" button. */
    method DismissLoginPrompt()
      modifies this
      ensures !showLoginPrompt
      ensures showMonetizeModal == old(showMonetizeModal) && selectedToolStats == old(selectedToolStats)
      ensures searchTerm == old(searchTerm) && selectedFilter == old(selectedFilter)
    {
      showLoginPrompt := false;
    }

    /** The prompt's "Login" button closes it and asks for the login view. */
    method LoginFromPrompt() returns (target: PageType)
      modifies this
      ensures target == Login && !showLoginPrompt
      ensures showMonetizeModal == old(showMonetizeModal) && selectedToolStats == old(selectedToolStats)
      ensures searchTerm == old(searchTerm) && selectedFilter == old(selectedFilter)
    {
      showLoginPrompt := false;
      target := Login;
    }

    /** The dialog's close and "Close" buttons; the figures stay behind, unseen. */
    method CloseMonetizeModal()
      modifies this
      ensures !showMonetizeModal && selectedToolStats == old(selectedToolStats)
      ensures showLoginPrompt == old(showLoginPrompt)
      ensures searchTerm == old(searchTerm) && selectedFilter == old(selectedFilter)
      ensures old(Valid()) ==> Valid()
    {
      showMonetizeModal := false;
    }
  }

  /** The "Create Your Own Tool" button asks for the builder. */
  const CreateToolTarget: PageType := Builder

  /** A fresh gallery shows the whole list. */
  method OpenGallery() returns (g: GalleryState)
    ensures fresh(g) && g.Valid()
    ensures g.VisibleTools() == SampleTools && !g.ShowsNoResults()
  {
    g := new GalleryState();
    NoCriteriaShowsAll(SampleTools);
  }
}
