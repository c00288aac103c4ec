/** The profile page (src/components/Profile.tsx): totals over the created tools, the
    empty state, the displayed name and the buttons leading to the gallery. */
module ProfilePage {
  import opened Wrappers
  import opened Types

  /** The fixed list of created tools. */
  const ToolsCreated: seq<CreatedTool> := [
    CreatedTool("Meme Caption Generator", 224, 1200),
    CreatedTool("Reel Script Generator", 201, 900),
    CreatedTool("Color Palette Extractor", 185, 1150)
  ]

  /** `reduce((sum, tool) => sum + tool.revenue, 0)`: accumulated left to right. */
  function TotalRevenue(tools: seq<CreatedTool>): nat {
    if tools == [] then 0 else TotalRevenue(tools[..|tools| - 1]) + tools[|tools| - 1].revenue
  }

  /** `reduce((sum, tool) => sum + tool.likes, 0)`. */
  function TotalLikes(tools: seq<CreatedTool>): nat {
    if tools == [] then 0 else TotalLikes(tools[..|tools| - 1]) + tools[|tools| - 1].likes
  }

  /** Both totals add up over a split of the list: together with the one-row case this
      makes each one the plain sum of its column. */
  lemma {:induction false} TotalsAppend(a: seq<CreatedTool>, b: seq<CreatedTool>)
    ensures TotalRevenue(a + b) == TotalRevenue(a) + TotalRevenue(b)
    ensures TotalLikes(a + b) == TotalLikes(a) + TotalLikes(b)
    decreases |b|
  {
    if b == [] {
      assert a + b == a;
    } else {
      var init := b[..|b| - 1];
      TotalsAppend(a, init);
      assert (a + b)[..|a + b| - 1] == a + init;
    }
  }

  /** A single row's figures are its totals. */
  lemma TotalsOfOne(t: CreatedTool)
    ensures TotalRevenue([t]) == t.revenue && TotalLikes([t]) == t.likes
  {
    assert [t][..0] == [];
  }

  /** No row exceeds the totals. */
  lemma {:induction false} TotalsBoundRows(tools: seq<CreatedTool>)
    ensures forall k :: 0 <= k < |tools| ==>
      tools[k].revenue <= TotalRevenue(tools) && tools[k].likes <= TotalLikes(tools)
  {
    forall k | 0 <= k < |tools|
      ensures tools[k].revenue <= TotalRevenue(tools) && tools[k].likes <= TotalLikes(tools)
    {
      var before, row, after := tools[..k], [tools[k]], tools[k + 1..];
      assert tools == before + row + after;
      TotalsAppend(before + row, after);
      TotalsAppend(before, row);
      TotalsOfOne(tools[k]);
    }
  }

  /** The stat cards for the fixed list: 3 tools, 610 likes, 3250 in revenue. */
  lemma ProfileStatsExample(tools: seq<CreatedTool>)
    requires tools == ToolsCreated
    ensures |tools| == 3 && TotalLikes(tools) == 610 && TotalRevenue(tools) == 3250
  {
    var t1, t2 := tools[..1], tools[..2];
    assert t1[..0] == [];
    assert t2[..1] == t1;
    assert tools[..3 - 1] == t2;
    assert TotalLikes(t1) == 224 && TotalRevenue(t1) == 1200;
    assert TotalLikes(t2) == 425 && TotalRevenue(t2) == 2100;
  }

  /** The "No tools created yet" block shows exactly when the list is empty, and then
      both totals are 0. */
  predicate ShowsEmptyState(tools: seq<CreatedTool>) {
    |tools| == 0
  }

  lemma EmptyStateTotals(tools: seq<CreatedTool>)
    ensures ShowsEmptyState(tools) <==> tools == []
    ensures ShowsEmptyState(tools) ==> TotalRevenue(tools) == 0 && TotalLikes(tools) == 0
  {
  }

  /** The signed-in user, as far as this page reads it. */
  datatype User = User(name: string)

  const DefaultName := "V B"

  /** `user?.name || 'V B'`: the user's name, or the default when there is no user or the
      name is empty; the heading is never empty. */
  function DisplayName(user: Option<User>): (r: string)
    ensures r != ""
    ensures user.Some? && user.value.name != "" ==> r == user.value.name
    ensures user.None? || user.value.name == "" ==> r == DefaultName
  {
    if user.Some? && user.value.name != "" then user.value.name else DefaultName
  }

  /** Each row's "View Tool" button and the empty state's "Create Your First Tool" button
      ask for the gallery. */
  const ViewToolTarget: PageType := Gallery
  const CreateFirstToolTarget: PageType := Gallery

  /** The button targets of the rows, one per row. */
  function RowTargets(tools: seq<CreatedTool>): (r: seq<PageType>)
    ensures |r| == |tools|
    ensures forall k :: 0 <= k < |r| ==> r[k] == Gallery
  {
    if tools == [] then [] else [ViewToolTarget] + RowTargets(tools[1..])
  }
}
