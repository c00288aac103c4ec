/** The top-level router (src/App.tsx): the current page and the preview handed between
    views, the page a state shows, and the guard wrapped around the builder and the
    profile (src/components/ToolBuilder.tsx, src/components/Profile.tsx). */
module AppRouter {
  import opened Wrappers
  import opened Types
  import opened RouteGuard
  import ToolBuilderPage
  import PublishPage

  /** The view each page renders. Only the publish view takes data: the preview. */
  datatype View =
    | HomeView
    | BuilderView
    | PublishView(previewData: Option<GeneratedPreview>)
    | GalleryView
    | ProfileView
    | LoginView

  /** `renderCurrentPage`. Every page has a case of its own, so the `default` branch of the
      switch cannot be reached with a page of the six. */
  function RenderPage(page: PageType, previewData: Option<GeneratedPreview>): View {
    match page
    case Home => HomeView
    case Builder => BuilderView
    case Publish => PublishView(previewData)
    case Gallery => GalleryView
    case Profile => ProfileView
    case Login => LoginView
  }

  /** The page a view belongs to. */
  function PageOf(v: View): PageType {
    match v
    case HomeView => Home
    case BuilderView => Builder
    case PublishView(_) => Publish
    case GalleryView => Gallery
    case ProfileView => Profile
    case LoginView => Login
  }

  /** Each page renders its own view, so distinct pages render distinct views; the preview
      reaches the publish view and no other view depends on it. */
  lemma RenderPageIsFaithful(page: PageType, previewData: Option<GeneratedPreview>, other: Option<GeneratedPreview>)
    ensures PageOf(RenderPage(page, previewData)) == page
    ensures page == Publish ==> RenderPage(page, previewData) == PublishView(previewData)
    ensures page != Publish ==> RenderPage(page, previewData) == RenderPage(page, other)
  {
  }

  /** The pages whose component wraps itself in the guard. */
  predicate IsGuarded(page: PageType) {
    page == Builder || page == Profile
  }

  /** The page a state settles on once the guard's effect has run. */
  function AfterGuard(page: PageType, isAuthenticated: bool): (r: PageType)
    ensures r == page || (IsGuarded(page) && !isAuthenticated && r == Login)
  {
    var request := RedirectEffect(isAuthenticated);
    if IsGuarded(page) && request.Some? then request.value else page
  }

  /** The redirect cannot loop: the login view is not guarded, so running the effect again
      on the page it chose changes nothing, and a visitor never settles on a guarded page. */
  lemma NoRedirectLoop(page: PageType, isAuthenticated: bool)
    ensures AfterGuard(AfterGuard(page, isAuthenticated), isAuthenticated) == AfterGuard(page, isAuthenticated)
    ensures !isAuthenticated ==> !IsGuarded(AfterGuard(page, isAuthenticated))
    ensures isAuthenticated ==> AfterGuard(page, isAuthenticated) == page
  {
  }

  /** What the screen shows under the navigation bar: the guard's output over the page's
      view, or the view itself for an unguarded page. */
  function Screen(page: PageType, previewData: Option<GeneratedPreview>, isAuthenticated: bool): Rendered<View> {
    if IsGuarded(page) then Guard(isAuthenticated, RenderPage(page, previewData))
    else Children(RenderPage(page, previewData))
  }

  /** The notice shows exactly on a guarded page for a visitor; otherwise the page's own
      view shows. */
  lemma ScreenShowsNoticeIff(page: PageType, previewData: Option<GeneratedPreview>, isAuthenticated: bool)
    ensures Screen(page, previewData, isAuthenticated) == AuthNotice <==> IsGuarded(page) && !isAuthenticated
    ensures Screen(page, previewData, isAuthenticated) != AuthNotice ==>
      Screen(page, previewData, isAuthenticated) == Children(RenderPage(page, previewData))
  {
  }

  /** The app's routing state. */
  class Router {
    var currentPage: PageType
    var previewData: Option<GeneratedPreview>

    /** The app opens on the home page with no preview. */
    constructor ()
      ensures currentPage == Home && previewData == None
    {
      currentPage := Home;
      previewData := None;
    }

    /** The view for the current state. */
    function CurrentView(): View
      reads this
    {
      RenderPage(currentPage, previewData)
    }

    /** `handleNavigate`: the page always changes; the preview only when one is given. */
    method Navigate(page: PageType, data: Option<GeneratedPreview>)
      modifies this
      ensures currentPage == page
      ensures previewData == if data.Some? then data else old(previewData)
    {
      currentPage := page;
      if data.Some? {
        previewData := data;
      }
    }

    /** The guard's effect on the current page: a visitor on a guarded page is sent to
        the login view, keeping the preview. */
    method RunGuardEffect(isAuthenticated: bool)
      modifies this
      ensures currentPage == AfterGuard(old(currentPage), isAuthenticated)
      ensures previewData == old(previewData)
    {
      if IsGuarded(currentPage) {
        var request := RedirectEffect(isAuthenticated);
        if request.Some? {
          Navigate(request.value, None);
        }
      }
    }
  }

  /** The builder's "Publish This Tool" button through the router: the publish form
      opens on the preview's title and description. */
  method OpenPublishFromBuilder(router: Router, builder: ToolBuilderPage.BuilderState) returns (form: PublishPage.PublishForm)
    requires builder.preview.Some?
    modifies router
    ensures router.currentPage == Publish && router.previewData == builder.preview
    ensures router.CurrentView() == PublishView(builder.preview)
    ensures form.title == builder.preview.value.title && form.description == builder.preview.value.description
    ensures form.Valid() && !form.isPublishing
  {
    var (page, data) := builder.PublishRequest();
    router.Navigate(page, data);
    form := new PublishPage.PublishForm(router.previewData);
  }

  /** Navigating without data twice in a row keeps the preview that was last given. */
  method NavigateKeepsPreview(router: Router, preview: GeneratedPreview, p: PageType, q: PageType)
    modifies router
    ensures router.currentPage == q && router.previewData == Some(preview)
  {
    router.Navigate(p, Some(preview));
    router.Navigate(q, None);
  }
}
