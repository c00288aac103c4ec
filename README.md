# Toolsmith Hub, modelled in Dafny

Toolsmith Hub is a small single-page React app. A visitor describes a tool idea. The
builder turns the idea into a preview (a title, a mock-up kind and a description). The
preview can then be published, and a gallery of sample tools can be searched, filtered,
liked and monetised. A navigation bar, a login form and a profile page sit around these
views. A guard keeps the builder and the profile for signed-in users.

This project models the app's rules. Each component is a Dafny module:

| module | file | models |
|---|---|---|
| `Strings` | `strings.dfy` | the string built-ins the components use: `toLowerCase`, `includes`, `trim`, `split` on one character, `join` |
| `Seqs` | `seqs.dfy` | order-preserving selection (subsequence) |
| `Wrappers` | `wrappers.dfy` | `Option` |
| `Types` | `types.dfy` | the shared records of `src/types/index.ts` |
| `ToolBuilderPage` | `tool_builder.dfy` | the keyword classifier, the preview title and description, and the two-phase generate button |
| `GalleryPage` | `gallery.dfy` | the sample tools, the search and category filter, the monetisation figures, the card icon, and the gallery's dialogs |
| `PublishPage` | `publish_tool.dfy` | the tag parser, the card placeholders, the publish button's enable condition, and the two-phase publish |
| `RouteGuard` | `protected_route.dfy` | the guard's render decision and its redirect |
| `AppRouter` | `app.dfy` | the current page and preview, the view dispatch, and which pages are guarded |
| `NavigationBar` | `navigation.dfy` | the menu for visitors and signed-in users, clicks, and highlighting |
| `ProfilePage` | `profile.dfy` | totals over the created tools, the empty state, and the displayed name |
| `LoginPage` | `login_page.dfy` | the login and sign-up form as a state machine |

Pure rules are functions with lemmas. Component state updated by event handlers is a
class whose fields are the `useState` variables. Each handler is a method that states the
whole new state. A `setTimeout` callback, or the awaited sign-in call, becomes a second
method. The timers still pending are explicit state:
- in the builder they are a queue of the ideas captured when the button was pressed;
- in the publish form they are a counter;
- in the login form they are a flag.

Three classes carry a `Valid()` invariant that ties the spinner to the pending work:
- `BuilderState`: at most one generation timer is pending, and one is exactly while the spinner shows;
- `PublishForm`: the same for the publish timer;
- `LoginForm`: the spinner shows exactly while the sign-in call is out.

Their methods keep it on the path the enabled button allows. `Generate`, `StartPublish`
and `Submit` keep it only when the spinner was off before the press: the disabled
button rules out a second press. `FinishGeneration` and `CompletePublish` keep it
whenever it held before, and `FinishLogin` establishes it outright. The field setters leave the fields it reads unchanged. `GalleryState.Valid()` has
another meaning: the monetisation dialog is only open over figures that have been
computed. `MonetizeClick` and `CloseMonetizeModal` state that they keep it. The other
gallery handlers leave the dialog flag and the figures unchanged. `Router` carries no
invariant.

Some inputs come from outside the shown code. Whether a user is signed in is a parameter.
So is the outcome of the sign-in call. Effects on the rest of the app are returned values:
- the page a button asks for, as a `PageType`;
- the credentials passed to the sign-in call;
- for the navigation bar, the sequence of `logout()` and `onNavigate` calls.

Text handling is ASCII only. `toLowerCase` folds `A`–`Z`. `trim` removes space, tab, line
feed, vertical tab, form feed and carriage return. Likes and revenue are natural numbers,
and `Math.floor(x / 15)` is integer division.

The search "color" with the filter "design" keeps two sample tools: the Color Palette
Extractor and the Visual Moodboard Maker. The search reads descriptions as well as
titles and tags, and the Moodboard Maker's description contains the word "colors"
(`src/components/Gallery.tsx:53`). `GalleryPage.ColorDesignExample` proves this result.

## Model

| member | source | states |
|---|---|---|
| `Strings.Lower` | src/components/Gallery.tsx:91 | `toLowerCase` on ASCII: `A`–`Z` folded, every other character kept, the length unchanged; `MockComponentIgnoresCase` and `SearchIgnoresCase` rely on it |
| `Strings.Contains` | src/components/Gallery.tsx:91 | `includes`: the needle occurs at some index of the string; the empty needle occurs in every string (`EmptySearchMatchesEverything`) |
| `Strings.Trim` | src/components/PublishTool.tsx:145 | `trim`: leading and trailing white space removed; `TrimShape` and `TrimEmptyIffBlank` state its meaning |
| `Strings.Split` | src/components/ToolBuilder.tsx:23 | `split` on one character: the pieces between separators, empty ones included; `SplitLength`, `JoinSplit` and `SplitJoin` state its meaning |
| `Strings.Join` | src/components/ToolBuilder.tsx:23 | `join` with one character: the pieces with the separator between neighbours; `JoinSplit` and `SplitJoin` tie it to `Split` |
| `Strings.TrimEmptyIffBlank` | src/components/ToolBuilder.tsx:16 | `s.trim()` is empty exactly when every character of `s` is white space, so the falsy test on the trim means "blank" |
| `Strings.TrimShape` | src/components/PublishTool.tsx:126 | the trim is the middle of the string between two runs of white space, and neither of its ends is white space |
| `Strings.JoinSplit` | src/components/ToolBuilder.tsx:23 | joining the pieces of `split(sep)` with `sep` gives back the string |
| `Strings.SplitJoin` | src/components/PublishTool.tsx:124 | splitting the join of separator-free pieces gives back the pieces |
| `Strings.SplitLength` | src/components/PublishTool.tsx:124 | `split` yields one more piece than there are separators |
| `ToolBuilderPage.GenerateMockComponent` | src/components/ToolBuilder.tsx:33-45 | classification is total: every idea gets one of "calculator", "timer", "todo", "generic" |
| `ToolBuilderPage.CalculatorImpliesCalc` | src/components/ToolBuilder.tsx:36 | an idea containing "calculator" contains "calc", so the first test reduces to "calc" |
| `ToolBuilderPage.MockComponentByKeywords` | src/components/ToolBuilder.tsx:33-45 | each kind holds exactly when its keywords occur in the lowered idea and those of every earlier group do not (both directions) |
| `ToolBuilderPage.MockComponentIgnoresCase` | src/components/ToolBuilder.tsx:34 | classifying an idea and its lowered form give the same kind |
| `ToolBuilderPage.PreviewTitle` | src/components/ToolBuilder.tsx:23 | the title rule: the first three space-separated pieces joined by single spaces, plus " Tool"; its meaning is stated by `PreviewTitleShape` and `PreviewTitleOfWords` |
| `ToolBuilderPage.PreviewTitleShape` | src/components/ToolBuilder.tsx:23 | the title is a prefix of the idea plus " Tool"; the prefix ends right before a space of the idea or is the whole idea; with fewer than three spaces it is the whole idea |
| `ToolBuilderPage.PreviewTitleOfWords` | src/components/ToolBuilder.tsx:23 | for an idea made of space-free words, the title is the first min(3, n) words joined by single spaces, plus " Tool" |
| `ToolBuilderPage.PreviewTitleExample` | src/components/ToolBuilder.tsx:23 | "a simple calculator for math homework" gives "a simple calculator Tool" |
| `ToolBuilderPage.PreviewTitleDoubleSpace` | src/components/ToolBuilder.tsx:23 | a double space makes an empty word: "a  timer app" gives "a  timer Tool" |
| `ToolBuilderPage.PreviewDescription` | src/components/ToolBuilder.tsx:25 | the fixed lead, the lowered idea and the fixed tail; `PreviewDescriptionRecoversIdea` states what can be read back from it |
| `ToolBuilderPage.PreviewDescriptionRecoversIdea` | src/components/ToolBuilder.tsx:25 | the description is the fixed lead, the lowered idea and the fixed tail; the lowered idea can be read back from it, and letter case of the idea does not matter |
| `ToolBuilderPage.MakePreview` | src/components/ToolBuilder.tsx:22-26 | the preview record built from one idea: title, mock-up kind and description, each as stated for its own member |
| `ToolBuilderPage.BuilderState.constructor` | src/components/ToolBuilder.tsx:11-13 | the builder starts with an empty idea, no spinner, no preview and no pending timer |
| `ToolBuilderPage.BuilderState.CanGenerate` | src/components/ToolBuilder.tsx:163 | the generate button is enabled exactly when the trimmed idea is non-empty and no generation is running |
| `ToolBuilderPage.BuilderState.EditIdea` | src/components/ToolBuilder.tsx:155 | typing changes only the idea |
| `ToolBuilderPage.BuilderState.Generate` | src/components/ToolBuilder.tsx:15-21 | a blank idea changes nothing; otherwise the spinner starts and one timer is scheduled for the idea as typed; the preview is untouched until the timer fires |
| `ToolBuilderPage.BuilderState.FinishGeneration` | src/components/ToolBuilder.tsx:21-30 | the timer replaces the preview as a whole with the one made from the captured idea, and stops the spinner |
| `ToolBuilderPage.BuilderState.PublishRequest` | src/components/ToolBuilder.tsx:197 | "Publish This Tool" asks for the publish page and hands over the current preview |
| `ToolBuilderPage.GenerateThenFinish` | src/components/ToolBuilder.tsx:15-31 | pressing the enabled button and letting the timer fire leaves the preview of the typed idea and an idle builder |
| `GalleryPage.SampleTools` | src/components/Gallery.tsx:18-80 | the six sample tools with their titles, descriptions, tags, likes and revenues as listed, in that order |
| `GalleryPage.MatchesSearch` | src/components/Gallery.tsx:91-93 | the lowered term occurs in the lowered title, the lowered description or some lowered tag; `SearchIgnoresCase` and `EmptySearchMatchesEverything` state its properties |
| `GalleryPage.MatchesFilter` | src/components/Gallery.tsx:95 | the filter is "all" or equals one of the tool's tags exactly; `FilterIsCaseSensitive` states the exact comparison |
| `GalleryPage.FilterTools` | src/components/Gallery.tsx:90-98 | the tools passing both tests, in list order; `FilterToolsSpec` states this for every input |
| `GalleryPage.FilterToolsSpec` | src/components/Gallery.tsx:90-98 | the shown list is an order-preserving subsequence of the tools; a tool is shown exactly when it passes the search and the filter, and then as often as it is listed |
| `GalleryPage.EmptySearchMatchesEverything` | src/components/Gallery.tsx:91-93 | the empty search term matches every tool |
| `GalleryPage.SearchIgnoresCase` | src/components/Gallery.tsx:91-93 | a search term and its lowered form match the same tools |
| `GalleryPage.NoCriteriaShowsAll` | src/components/Gallery.tsx:90-98 | with an empty search and the "all" filter every tool is shown, in order |
| `GalleryPage.TagFilterNarrows` | src/components/Gallery.tsx:95 | choosing a category shows a subsequence of what "all" shows for the same search |
| `GalleryPage.FilterIsCaseSensitive` | src/components/Gallery.tsx:95 | the filter compares tags exactly: "Design" does not select a tool tagged "design" |
| `GalleryPage.SearchMissesLetter` | src/components/Gallery.tsx:91-93 | a term whose lowered form has a letter missing, in both cases, from a tool's title, description and tags does not match that tool |
| `GalleryPage.MemesExample` | src/components/Gallery.tsx:19-98 | on the sample tools, search "" with filter "memes" shows exactly the Meme Caption Generator |
| `GalleryPage.ColorDesignKeeps` | src/components/Gallery.tsx:19-98 | on the sample tools, search "color" with filter "design" keeps the second and the fourth tool and no other |
| `GalleryPage.ColorDesignExample` | src/components/Gallery.tsx:19-98 | on the sample tools, search "color" with filter "design" shows exactly the Color Palette Extractor and the Visual Moodboard Maker |
| `GalleryPage.MonetizationFor` | src/components/Gallery.tsx:106-110 | the dialog's figures carry the tool's title and its revenue (0 when absent), and the subscriber count is the whole number of 15s in that revenue |
| `GalleryPage.MonetizationExample` | src/components/Gallery.tsx:106-110 | a revenue of 1200 gives 80 subscribers |
| `GalleryPage.ToolIcon` | src/components/Gallery.tsx:188-192 | the icon of the first tag present in the order calculator, timer, todo, design, security, else the default; `ToolIconFirstMatch` states this both ways |
| `GalleryPage.ToolIconFirstMatch` | src/components/Gallery.tsx:188-192 | the icon is the one of the first tag present in the order calculator, timer, todo, design, security, and the default when none is (both directions) |
| `GalleryPage.GalleryState.constructor` | src/components/Gallery.tsx:12-16 | the gallery opens with an empty search, the "all" filter, no dialog, no figures and no login prompt |
| `GalleryPage.GalleryState.VisibleTools` | src/components/Gallery.tsx:90 | the shown cards are the sample tools filtered by the current search term and filter |
| `GalleryPage.GalleryState.ShowsNoResults` | src/components/Gallery.tsx:247 | the "No tools found" block shows exactly when no card is shown |
| `GalleryPage.GalleryState.SetSearchTerm` | src/components/Gallery.tsx:156 | typing in the search box changes only the search term |
| `GalleryPage.GalleryState.SetFilter` | src/components/Gallery.tsx:167 | choosing a category changes only the filter |
| `GalleryPage.GalleryState.MonetizeClick` | src/components/Gallery.tsx:100-113 | a visitor only gets the login prompt, and the figures and the dialog stay as they were; a signed-in user gets the dialog over the tool's figures |
| `GalleryPage.GalleryState.LikeClick` | src/components/Gallery.tsx:115-122 | a visitor only gets the login prompt; a signed-in user only gets the demo alert |
| `GalleryPage.GalleryState.DismissLoginPrompt` | src/components/Gallery.tsx:261-291 | the prompt's close button (lines 261-266) and its "Cancel" button (lines 286-291) only close the prompt |
| `GalleryPage.GalleryState.LoginFromPrompt` | src/components/Gallery.tsx:277-285 | the prompt's "Login" button closes the prompt and asks for the login page |
| `GalleryPage.GalleryState.CloseMonetizeModal` | src/components/Gallery.tsx:302-338 | the dialog's close button (lines 302-307) and its "Close" button (lines 333-338) close the dialog, keep the figures and change nothing else |
| `GalleryPage.CreateToolTarget` | src/components/Gallery.tsx:139 | the "Create Your Own Tool" button asks for the builder |
| `GalleryPage.OpenGallery` | src/components/Gallery.tsx:90-98 | a freshly opened gallery shows every sample tool, so no "No tools found" block |
| `PublishPage.ParseTags` | src/components/PublishTool.tsx:124-126 | split on commas, drop the blank pieces, trim the rest; `ParseTagsClean`, `ParseTagsOrderAndCount` and `ParseJoinedTags` state its properties |
| `PublishPage.CleanTags` | src/components/PublishTool.tsx:124-126 | filtering and trimming the pieces never yields more tags than pieces |
| `PublishPage.CleanTagsTrimmed` | src/components/PublishTool.tsx:124-126 | every kept tag is non-empty, with no white space at either end |
| `PublishPage.ParseTagsClean` | src/components/PublishTool.tsx:124-126 | every shown tag is non-empty, trimmed and free of commas |
| `PublishPage.CleanTagsOrder` | src/components/PublishTool.tsx:124-126 | the kept tags are a subsequence of the trimmed pieces, in input order; every non-blank piece occurs among them and no empty tag does; `CleanTagsCounts` adds the counts |
| `PublishPage.CleanTagsCounts` | src/components/PublishTool.tsx:124-126 | each non-empty trimmed piece is kept as often as it occurs and the empty one never; with `CleanTagsOrder` this fixes the kept tags exactly, repeats included |
| `PublishPage.ParseTagsOrderAndCount` | src/components/PublishTool.tsx:124 | the shown tags are a subsequence of the trimmed pieces, each non-blank trim shown as often as it occurs and no empty tag, so exactly the non-blank trims in input order; at most one more tag than there are commas |
| `PublishPage.RepeatedTagShown` | src/components/PublishTool.tsx:124-126 | the field "a,b,a" shows the tag "a" twice |
| `PublishPage.ParseTagsNoComma` | src/components/PublishTool.tsx:124 | a field without commas gives exactly its trim as the one tag, or no tag when it is blank |
| `PublishPage.CleanTagsOfClean` | src/components/PublishTool.tsx:124-126 | tags that are already clean pass through unchanged |
| `PublishPage.ParseJoinedTags` | src/components/PublishTool.tsx:124-126 | clean tags written back with commas parse to themselves (round trip) |
| `PublishPage.ParseTagsStable` | src/components/PublishTool.tsx:124-126 | parsing the shown tags written back with commas shows the same tags |
| `PublishPage.ParseTagsExample` | src/components/PublishTool.tsx:124-126 | " ai, ,fun ," shows the tags "ai" and "fun" |
| `PublishPage.CardTitle` | src/components/PublishTool.tsx:121 | the card's heading is never empty; it is the title unless the title is the empty string, which alone gives the placeholder |
| `PublishPage.CardDescription` | src/components/PublishTool.tsx:122 | the same for the description and its placeholder |
| `PublishPage.CanPublish` | src/components/PublishTool.tsx:145 | the negation of the button's disabled condition; `CanPublishIff` restates it through blankness |
| `PublishPage.CanPublishIff` | src/components/PublishTool.tsx:145 | the button is enabled exactly when both title and description have a non-space character and no publish is running |
| `PublishPage.BlankTitleShownButNotPublishable` | src/components/PublishTool.tsx:121-145 | a title of spaces is shown as typed on the card but keeps the button disabled |
| `PublishPage.PublishForm.constructor` | src/components/PublishTool.tsx:11-15 | the form opens on the preview's title and description, or empty without a preview; tags and support link are empty and nothing is publishing |
| `PublishPage.PublishForm.ShownTags` | src/components/PublishTool.tsx:124-128 | the card's tags are `ParseTags` of the current tag field |
| `PublishPage.PublishForm.PublishEnabled` | src/components/PublishTool.tsx:145 | the button is enabled exactly when `CanPublish` holds of the current title, description and publishing flag |
| `PublishPage.PublishForm.SetTitle` | src/components/PublishTool.tsx:54 | typing a title changes only the title |
| `PublishPage.PublishForm.SetDescription` | src/components/PublishTool.tsx:70 | typing a description changes only the description |
| `PublishPage.PublishForm.SetTags` | src/components/PublishTool.tsx:88 | typing tags changes only the tag field |
| `PublishPage.PublishForm.SetSupportLink` | src/components/PublishTool.tsx:108 | typing a link changes only the link |
| `PublishPage.PublishForm.StartPublish` | src/components/PublishTool.tsx:17-21 | publishing starts the spinner and one timer without checking any field |
| `PublishPage.PublishForm.CompletePublish` | src/components/PublishTool.tsx:21-24 | the timer stops the spinner and asks for the gallery |
| `PublishPage.PublishThenComplete` | src/components/PublishTool.tsx:17-25 | a press on the enabled button leads to exactly one request for the gallery and an idle form |
| `RouteGuard.Guard` | src/components/ProtectedRoute.tsx:19-37 | a visitor sees the notice and never the children; a signed-in user sees the children unchanged |
| `RouteGuard.RedirectEffect` | src/components/ProtectedRoute.tsx:13-17 | the effect asks for the login page exactly when the user is not signed in |
| `RouteGuard.NoticeButtonTarget` | src/components/ProtectedRoute.tsx:27 | the notice's button asks for the login page |
| `RouteGuard.NoticeAgreesWithEffect` | src/components/ProtectedRoute.tsx:13-31 | the notice shows exactly when the effect redirects, and its button asks for the same login page |
| `AppRouter.RenderPage` | src/App.tsx:24-41 | one view per page; the unreachable `default` branch has no case; `RenderPageIsFaithful` states that each page renders its own view |
| `AppRouter.RenderPageIsFaithful` | src/App.tsx:24-41 | each page renders its own view; only the publish view receives the preview, and no other view depends on it |
| `AppRouter.IsGuarded` | src/components/ToolBuilder.tsx:131 | the builder and the profile wrap themselves in the guard (also `src/components/Profile.tsx:24`); no other page does |
| `AppRouter.AfterGuard` | src/components/ProtectedRoute.tsx:13-17 | after the guard's effect the page is unchanged, or it was a guarded page, the user is a visitor and the page is now login |
| `AppRouter.NoRedirectLoop` | src/components/ProtectedRoute.tsx:13-17 | the login page is not guarded, so a second run of the effect changes nothing; a visitor never rests on a guarded page; a signed-in user is never moved |
| `AppRouter.Screen` | src/App.tsx:47 | what shows under the bar: the guard's output over a guarded page's view, the view itself otherwise; `ScreenShowsNoticeIff` states when the notice shows |
| `AppRouter.ScreenShowsNoticeIff` | src/components/ProtectedRoute.tsx:19-37 | the notice shows exactly on the builder or the profile for a visitor; otherwise the page's own view shows |
| `AppRouter.Router.constructor` | src/App.tsx:14-15 | the app opens on the home page without a preview |
| `AppRouter.Router.CurrentView` | src/App.tsx:47 | the view on screen is `RenderPage` of the current page and the held preview |
| `AppRouter.Router.Navigate` | src/App.tsx:17-22 | navigating always sets the page; the preview is replaced only when one is given |
| `AppRouter.Router.RunGuardEffect` | src/components/ProtectedRoute.tsx:13-17 | the guard's effect moves a visitor on a guarded page to login and keeps the preview |
| `AppRouter.OpenPublishFromBuilder` | src/App.tsx:17-31 | the builder's publish button leads to the publish view holding the preview, and the form opens on its title and description |
| `AppRouter.NavigateKeepsPreview` | src/App.tsx:17-22 | navigating without data keeps the preview last given |
| `NavigationBar.PublicNavItems` | src/components/Navigation.tsx:19-23 | home, gallery and builder, with their captions and no action |
| `NavigationBar.AuthNavItems` | src/components/Navigation.tsx:25-32 | profile then logout (the only entry with an action) for a signed-in user; login alone for a visitor |
| `NavigationBar.NavItems` | src/components/Navigation.tsx:19-34 | the menu has 5 entries for a signed-in user and 4 for a visitor, and starts with the three public ones |
| `NavigationBar.NavItemsShape` | src/components/Navigation.tsx:19-34 | the ids start home, gallery, builder; then profile and logout for a signed-in user, login alone for a visitor; login is there exactly for a visitor, profile and logout exactly for a signed-in user; no publish entry; no id repeats |
| `NavigationBar.HandleLogout` | src/components/Navigation.tsx:14-17 | `logout()` then a request for home, in that order |
| `NavigationBar.HandleNavClick` | src/components/Navigation.tsx:36-42 | an item with an action runs it (logout, then home) and does not navigate to its id; an item without one asks for its page |
| `NavigationBar.NavClickOnListedItems` | src/components/Navigation.tsx:14-42 | every listed item can be clicked: logout calls `logout()` and then asks for home, every other entry asks for its own page |
| `NavigationBar.Highlighted` | src/components/Navigation.tsx:70 | an entry is highlighted when its id is the current page; `HighlightRule` states its properties |
| `NavigationBar.LogoTarget` | src/components/Navigation.tsx:52 | the logo asks for the home page |
| `NavigationBar.HighlightRule` | src/components/Navigation.tsx:70-75 | the logout entry is never highlighted; at most one entry is; one is whenever the current page has an entry |
| `ProfilePage.ToolsCreated` | src/components/Profile.tsx:14-18 | the three created tools with their titles, likes and revenues, in that order |
| `ProfilePage.TotalRevenue` | src/components/Profile.tsx:20 | the left fold of the revenue column from 0; `TotalsAppend` and `TotalsOfOne` make it the column sum |
| `ProfilePage.TotalLikes` | src/components/Profile.tsx:21 | the same fold over the likes column |
| `ProfilePage.TotalsAppend` | src/components/Profile.tsx:20-21 | both totals add up over a split of the list |
| `ProfilePage.TotalsOfOne` | src/components/Profile.tsx:20-21 | one row's totals are its own revenue and likes |
| `ProfilePage.TotalsBoundRows` | src/components/Profile.tsx:20-21 | no row's revenue or likes exceed the totals |
| `ProfilePage.ProfileStatsExample` | src/components/Profile.tsx:14-21 | the fixed list has 3 tools, 610 likes and 3250 in revenue |
| `ProfilePage.ShowsEmptyState` | src/components/Profile.tsx:115 | the empty-state block shows exactly when the list of created tools is empty |
| `ProfilePage.EmptyStateTotals` | src/components/Profile.tsx:115 | the empty-state block shows exactly when the list is empty, and both totals are then 0 |
| `ProfilePage.DisplayName` | src/components/Profile.tsx:40 | the heading shows the user's name, or "V B" when there is no user or the name is empty; it is never empty |
| `ProfilePage.ViewToolTarget` | src/components/Profile.tsx:105 | each row's "View Tool" button asks for the gallery |
| `ProfilePage.CreateFirstToolTarget` | src/components/Profile.tsx:121 | the empty state's "Create Your First Tool" button asks for the gallery |
| `ProfilePage.RowTargets` | src/components/Profile.tsx:104-105 | there is one "View Tool" button per row, and each asks for the gallery |
| `LoginPage.LoginForm.constructor` | src/components/LoginPage.tsx:11-16 | the form opens in login mode with empty fields, not loading and without an error |
| `LoginPage.LoginForm.SubmitEnabled` | src/components/LoginPage.tsx:126 | the submit button is disabled exactly while loading |
| `LoginPage.LoginForm.ShowsError` | src/components/LoginPage.tsx:59-60 | the error banner shows exactly when the error text is non-empty |
| `LoginPage.LoginForm.SetEmail` | src/components/LoginPage.tsx:94 | typing an e-mail address changes only that field |
| `LoginPage.LoginForm.SetPassword` | src/components/LoginPage.tsx:109 | typing a password changes only that field |
| `LoginPage.LoginForm.SetName` | src/components/LoginPage.tsx:78 | typing a name changes only that field |
| `LoginPage.LoginForm.Submit` | src/components/LoginPage.tsx:18-31 | submit clears the error and shows the spinner; in login mode the typed credentials go to the sign-in call; in sign-up mode the form switches to login mode with no error and no spinner, and nothing is called |
| `LoginPage.LoginForm.FinishLogin` | src/components/LoginPage.tsx:23-37 | success asks for the profile; failure sets "Login failed. Please try again." and asks for nothing; the spinner stops either way |
| `LoginPage.LoginForm.ToggleMode` | src/components/LoginPage.tsx:150 | the toggle flips the mode and nothing else |
| `LoginPage.SubmitAndSettle` | src/components/LoginPage.tsx:18-37 | a login-mode submit reaches the profile exactly when sign-in succeeds; on failure the error shows; the form is idle and submittable afterwards |
| `LoginPage.BackToHomeTarget` | src/components/LoginPage.tsx:162 | the "Back to Home" button asks for the home page |
| `LoginPage.SignUpSubmit` | src/components/LoginPage.tsx:27-37 | a sign-up-mode submit calls nothing and leaves the form idle in login mode without an error |

## Left out

- Markup, styling, icons, copy text and the mock-ups drawn by `renderMockComponent` (`src/components/ToolBuilder.tsx:47-128`) are presentation only. The emoji on a gallery card is modelled, as the `Icon` datatype.
- `src/components/HomePage.tsx` is not part of this model. It only picks between a login button and a profile button.
- The authentication context is not part of this model. `isAuthenticated` is a parameter, the sign-in call's outcome is the `succeeded` parameter of `LoginForm.FinishLogin`, and `logout()` is the `CallLogout` effect.
- Timer delays, cancellation, unmounting and updates after navigating away are not modelled. Each timer or awaited call is a start method and a completion method.
- React's render and effect scheduling is not modelled. The guard's `useEffect` is applied by `Router.RunGuardEffect` when the caller chooses.
- `alert` calls have no model beyond `LikeClick`'s `alerted` result. The sign-up alert is not modelled.
- `toLocaleString` currency formatting, `createdAt` and `previewImage` are display-only fields and are left out.
- The browser's `required` check on the login inputs is not modelled. The handler itself checks nothing, and the model follows the handler.
- The "Try Tool", coffee and "Forgot password?" buttons have no handlers in the code, so there is nothing to model.
- The name typed in sign-up mode is stored but never read by the submit handler. The model stores it too.
- Case folding and white space follow ASCII only, not full Unicode. JavaScript numbers are natural numbers, with no floating point.
