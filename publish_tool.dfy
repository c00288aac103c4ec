/** The publish form (src/components/PublishTool.tsx): fields seeded from the preview, the
    comma-separated tag parser behind the preview card, the card's placeholders, the
    publish button's enable condition and the two-phase publish that ends on the gallery. */
module PublishPage {
  import opened Wrappers
  import opened Strings
  import opened Seqs
  import opened Types

  // ---------------------------------------------------------------- tags

  /** `.filter(tag => tag.trim()).map(tag => tag.trim())` over the pieces of a split. */
  function CleanTags(pieces: seq<string>): (r: seq<string>)
    ensures |r| <= |pieces|
  {
    if pieces == [] then []
    else
      var rest := CleanTags(pieces[1..]);
      if Trim(pieces[0]) != "" then [Trim(pieces[0])] + rest else rest
  }

  /** The tags shown on the preview card for the tag field's text. */
  function ParseTags(input: string): seq<string> {
    CleanTags(Split(input, ','))
  }

  /** A tag as the card can show it: non-empty, without white space at either end and
      without a comma. */
  predicate CleanTag(tag: string) {
    tag != "" && Trimmed(tag) && ',' !in tag
  }

  /** A piece's trim keeps the piece's characters. */
  lemma TrimKeepsChars(s: string, c: char)
    ensures c in Trim(s) ==> c in s
  {
    TrimShape(s);
    if c in Trim(s) {
      var i, j :| 0 <= i <= j <= |s| && Trim(s) == s[i..j] && Blank(s[..i]) && Blank(s[j..]);
      var k :| 0 <= k < |Trim(s)| && Trim(s)[k] == c;
      assert s[i + k] == c;
    }
  }

  /** Every kept piece comes out trimmed and non-empty. */
  lemma {:induction false} CleanTagsTrimmed(pieces: seq<string>)
    ensures forall t :: t in CleanTags(pieces) ==> t != "" && Trimmed(t)
  {
    if pieces != [] {
      CleanTagsTrimmed(pieces[1..]);
      TrimShape(pieces[0]);
    }
  }

  /** A character no piece holds is in no kept tag. */
  lemma {:induction false} CleanTagsAvoid(pieces: seq<string>, c: char)
    ensures (forall p :: p in pieces ==> c !in p) ==> forall t :: t in CleanTags(pieces) ==> c !in t
  {
    if pieces != [] {
      CleanTagsAvoid(pieces[1..], c);
      TrimKeepsChars(pieces[0], c);
      assert forall p :: p in pieces[1..] ==> p in pieces;
    }
  }

  /** Every shown tag is clean. */
  lemma ParseTagsClean(input: string)
    ensures forall t :: t in ParseTags(input) ==> CleanTag(t)
  {
    CleanTagsTrimmed(Split(input, ','));
    SplitPiecesFree(input, ',');
    CleanTagsAvoid(Split(input, ','), ',');
  }

  /** Trimming every piece. */
  function TrimAll(pieces: seq<string>): (r: seq<string>)
    ensures |r| == |pieces|
    ensures forall k :: 0 <= k < |pieces| ==> r[k] == Trim(pieces[k])
  {
    if pieces == [] then [] else [Trim(pieces[0])] + TrimAll(pieces[1..])
  }

  /** The kept tags are the trimmed pieces in their order, with exactly the blank ones
      dropped. */
  lemma {:induction false} CleanTagsOrder(pieces: seq<string>)
    ensures IsSubsequence(CleanTags(pieces), TrimAll(pieces))
    ensures forall p :: p in pieces && Trim(p) != "" ==> Trim(p) in CleanTags(pieces)
    ensures "" !in CleanTags(pieces)
  {
    if pieces != [] {
      CleanTagsOrder(pieces[1..]);
      var rest := CleanTags(pieces[1..]);
      var all := TrimAll(pieces);
      assert all[1..] == TrimAll(pieces[1..]);
      if Trim(pieces[0]) != "" {
        assert ([Trim(pieces[0])] + rest)[1..] == rest;
      } else {
        SubsequenceOfTail(rest, all);
      }
      forall p | p in pieces && Trim(p) != "" ensures Trim(p) in CleanTags(pieces) {
        if p != pieces[0] {
          assert p in pieces[1..];
        }
      }
    }
  }

  /** Each non-empty trim is kept as often as it occurs among the trimmed pieces, and the
      empty one never: with the subsequence fact this fixes the kept tags exactly, repeats
      included. */
  lemma {:induction false} CleanTagsCounts(pieces: seq<string>)
    ensures forall t :: multiset(CleanTags(pieces))[t] == if t == "" then 0 else multiset(TrimAll(pieces))[t]
  {
    if pieces != [] {
      CleanTagsCounts(pieces[1..]);
      assert TrimAll(pieces) == [Trim(pieces[0])] + TrimAll(pieces[1..]);
    }
  }

  /** The card shows the trimmed non-blank pieces of the field, in input order, each as
      often as it occurs, and at most one tag more than there are commas. */
  lemma ParseTagsOrderAndCount(input: string)
    ensures IsSubsequence(ParseTags(input), TrimAll(Split(input, ',')))
    ensures forall p :: p in Split(input, ',') && Trim(p) != "" ==> Trim(p) in ParseTags(input)
    ensures forall t :: multiset(ParseTags(input))[t] ==
                        (if t == "" then 0 else multiset(TrimAll(Split(input, ',')))[t])
    ensures |ParseTags(input)| <= Count(input, ',') + 1
  {
    CleanTagsOrder(Split(input, ','));
    CleanTagsCounts(Split(input, ','));
    SplitLength(input, ',');
  }

  /** Repeated tags are all shown: the field "a,b,a" shows "a" twice. */
  lemma RepeatedTagShown(input: string)
    requires input == "a,b,a"
    ensures multiset(ParseTags(input))["a"] == 2
  {
    var pieces := Split(input, ',');
    assert input == "a" + [','] + ("b" + [','] + "a");
    SplitFree("a", ',');
    SplitCons("b", ',', "a");
    SplitCons("a", ',', "b" + [','] + "a");
    assert pieces == ["a", "b", "a"];
    ParseTagsOrderAndCount(input);
    TrimTrimmed("a");
    TrimTrimmed("b");
    assert TrimAll(pieces) == ["a", "b", "a"];
  }

  /** A field without commas gives one tag, its trim, unless it is blank. */
  lemma ParseTagsNoComma(input: string)
    requires ',' !in input
    ensures ParseTags(input) == (if Trim(input) != "" then [Trim(input)] else [])
  {
    SplitFree(input, ',');
  }

  /** Clean tags are passed through unchanged. */
  lemma {:induction false} CleanTagsOfClean(tags: seq<string>)
    requires forall t :: t in tags ==> CleanTag(t)
    ensures CleanTags(tags) == tags
  {
    if tags != [] {
      var head, tail := tags[0], tags[1..];
      assert tags == [head] + tail;
      assert CleanTag(head) && Trimmed(head) by { assert head in tags; }
      TrimTrimmed(head);
      assert forall t :: t in tail ==> t in tags;
      CleanTagsOfClean(tail);
    }
  }

  /** Writing clean tags back with commas and parsing gives them back. */
  lemma ParseJoinedTags(tags: seq<string>)
    requires forall t :: t in tags ==> CleanTag(t)
    ensures ParseTags(Join(tags, ',')) == tags
  {
    if tags == [] {
      assert Trim("") == "";
    } else {
      SplitJoin(tags, ',');
      CleanTagsOfClean(tags);
    }
  }

  /** Parsing is stable: the shown tags, written back with commas, show the same tags. */
  lemma ParseTagsStable(input: string)
    ensures ParseTags(Join(ParseTags(input), ',')) == ParseTags(input)
  {
    ParseTagsClean(input);
    ParseJoinedTags(ParseTags(input));
  }

  /** The pieces of the worked example's field. */
  lemma ExampleTagPieces(input: string)
    requires input == " ai, ,fun ,"
    ensures Split(input, ',') == [" ai", " ", "fun ", ""]
  {
    var r3 := "fun " + [','] + "";
    var r2 := " " + [','] + r3;
    assert input == " ai" + [','] + r2;
    SplitCons("fun ", ',', "");
    SplitCons(" ", ',', r3);
    SplitCons(" ai", ',', r2);
  }

  /** The trims of the worked example's pieces. */
  lemma ExampleTrims(a: string, b: string, c: string)
    requires a == " ai" && b == " " && c == "fun "
    ensures Trim(a) == "ai" && Trim(b) == "" && Trim(c) == "fun"
  {
    assert a[1..] == "ai";
    assert TrimStart(a) == "ai";
    assert b[1..] == "";
    assert TrimStart(b) == "";
    assert TrimStart(c) == c;
    assert c[..3] == "fun";
    assert TrimEnd(c) == "fun";
  }

  /** The worked example's pieces, cleaned. */
  lemma ExampleCleanPieces(pieces: seq<string>, a: string, b: string, c: string)
    requires a == " ai" && b == " " && c == "fun "
    requires pieces == [a, b, c, ""]
    ensures CleanTags(pieces) == ["ai", "fun"]
  {
    ExampleTrims(a, b, c);
    var p3 := pieces[3..];
    assert p3 == [""] && p3[1..] == [];
    assert CleanTags(p3) == [];
    var p2 := pieces[2..];
    assert p2[0] == c && p2[1..] == p3;
    assert CleanTags(p2) == [Trim(c)];
    var p1 := pieces[1..];
    assert p1[0] == b && p1[1..] == p2;
    assert CleanTags(p1) == [Trim(c)];
    assert pieces[0] == a && pieces[1..] == p1;
    assert CleanTags(pieces) == [Trim(a), Trim(c)];
  }

  /** A worked example: blanks between commas disappear and the rest are trimmed. */
  lemma ParseTagsExample(input: string)
    requires input == " ai, ,fun ,"
    ensures ParseTags(input) == ["ai", "fun"]
  {
    ExampleTagPieces(input);
    ExampleCleanPieces(Split(input, ','), " ai", " ", "fun ");
  }

  // ---------------------------------------------------------------- card and button

  const TitlePlaceholder := "Your Tool Title"
  const DescriptionPlaceholder := "Your tool description will appear here"

  /** `title || 'Your Tool Title'`: only the empty string yields to the placeholder, so
      the heading is never empty and a blank title is shown as typed. */
  function CardTitle(title: string): (r: string)
    ensures r != ""
    ensures r == title || (title == "" && r == TitlePlaceholder)
  {
    if title == "" then TitlePlaceholder else title
  }

  /** `description || '…will appear here'`, with the same shape. */
  function CardDescription(description: string): (r: string)
    ensures r != ""
    ensures r == description || (description == "" && r == DescriptionPlaceholder)
  {
    if description == "" then DescriptionPlaceholder else description
  }

  /** The publish button's enable condition. */
  predicate CanPublish(title: string, description: string, isPublishing: bool) {
    Trim(title) != "" && Trim(description) != "" && !isPublishing
  }

  /** The button is enabled exactly when both fields have a visible character and no
      publish is running. */
  lemma CanPublishIff(title: string, description: string, isPublishing: bool)
    ensures CanPublish(title, description, isPublishing) <==> !Blank(title) && !Blank(description) && !isPublishing
  {
    TrimEmptyIffBlank(title);
    TrimEmptyIffBlank(description);
  }

  /** A blank title is shown as typed on the card, yet it keeps the button disabled. */
  lemma BlankTitleShownButNotPublishable(title: string, description: string, isPublishing: bool)
    requires title == "  "
    ensures CardTitle(title) == title
    ensures !CanPublish(title, description, isPublishing)
  {
    assert Blank(title);
    TrimEmptyIffBlank(title);
  }

  // ---------------------------------------------------------------- component state

  /** The form's state. `pending` counts publish timers started and not yet fired. */
  class PublishForm {
    var title: string
    var description: string
    var tags: string
    var supportLink: string
    var isPublishing: bool
    var pending: nat

    /** With the button disabled while publishing, at most one timer is in flight, and it
        is in flight exactly while the spinner shows. */
    predicate Valid()
      reads this
    {
      pending <= 1 && (isPublishing <==> pending == 1)
    }

    /** The form opens on the preview's title and description, or empty without one. */
    constructor (previewData: Option<GeneratedPreview>)
      ensures title == (if previewData.Some? then previewData.value.title else "")
      ensures description == (if previewData.Some? then previewData.value.description else "")
      ensures tags == "" && supportLink == "" && !isPublishing && pending == 0
      ensures Valid()
    {
      title := if previewData.Some? then previewData.value.title else "";
      description := if previewData.Some? then previewData.value.description else "";
      tags := "";
      supportLink := "";
      isPublishing := false;
      pending := 0;
    }

    /** The tags on the preview card. */
    function ShownTags(): seq<string>
      reads this
    {
      ParseTags(tags)
    }

    predicate PublishEnabled()
      reads this
    {
      CanPublish(title, description, isPublishing)
    }

    method SetTitle(text: string)
      modifies this
      ensures title == text && description == old(description) && tags == old(tags)
      ensures supportLink == old(supportLink) && isPublishing == old(isPublishing) && pending == old(pending)
    {
      title := text;
    }

    method SetDescription(text: string)
      modifies this
      ensures description == text && title == old(title) && tags == old(tags)
      ensures supportLink == old(supportLink) && isPublishing == old(isPublishing) && pending == old(pending)
    {
      description := text;
    }

    method SetTags(text: string)
      modifies this
      ensures tags == text && title == old(title) && description == old(description)
      ensures supportLink == old(supportLink) && isPublishing == old(isPublishing) && pending == old(pending)
    {
      tags := text;
    }

    method SetSupportLink(text: string)
      modifies this
      ensures supportLink == text && title == old(title) && description == old(description)
      ensures tags == old(tags) && isPublishing == old(isPublishing) && pending == old(pending)
    {
      supportLink := text;
    }

    /** `handlePublish` up to the timer. The handler checks neither field: only the
        button's enable condition stands in front of it. */
    method StartPublish()
      modifies this
      ensures isPublishing && pending == old(pending) + 1
      ensures title == old(title) && description == old(description)
      ensures tags == old(tags) && supportLink == old(supportLink)
      ensures old(Valid()) && !old(isPublishing) ==> Valid()
    {
      isPublishing := true;
      pending := pending + 1;
    }

    /** The timer's callback: the spinner stops and the gallery is asked for. */
    method CompletePublish() returns (target: PageType)
      requires pending > 0
      modifies this
      ensures target == Gallery
      ensures !isPublishing && pending == old(pending) - 1
      ensures title == old(title) && description == old(description)
      ensures tags == old(tags) && supportLink == old(supportLink)
      ensures old(Valid()) ==> Valid()
    {
      isPublishing := false;
      pending := pending - 1;
      target := Gallery;
    }
  }

  /** A press on the enabled button leads to exactly one request for the gallery, after
      which the form is idle with no timer left. */
  method PublishThenComplete(f: PublishForm) returns (target: PageType)
    requires f.Valid() && f.PublishEnabled()
    modifies f
    ensures target == Gallery
    ensures f.Valid() && !f.isPublishing && f.pending == 0
  {
    f.StartPublish();
    target := f.CompletePublish();
  }
}
