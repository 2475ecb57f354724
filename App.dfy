/**
 * The application shell: which of the three views is showing and which post
 * is selected, the four handlers that change them, the header and panel that
 * each view renders, and which on-screen element calls which handler.
 */
module App {
  import opened Wrappers

  datatype ViewState = Home | Detail | Create

  /** The shell's two state cells. */
  datatype Nav = Nav(view: ViewState, selectedBlogId: Option<string>)

  /** The shell starts on the home view with no post selected. */
  const Initial := Nav(Home, None)

  /** The detail view always has a selected id. */
  predicate Inv(s: Nav) {
    s.view == Detail ==> s.selectedBlogId.Some?
  }

  /** The four handlers. */
  datatype Handler = SelectBlog(id: string) | CreateNew | BackToHome | CreateSuccess

  /** The new state after a handler runs: selecting a post shows it; the other handlers change only the view. */
  function Apply(s: Nav, h: Handler): (t: Nav)
    ensures h.SelectBlog? ==> t.view == Detail && t.selectedBlogId == Some(h.id)
    ensures !h.SelectBlog? ==> t.selectedBlogId == s.selectedBlogId
    ensures h == CreateNew ==> t.view == Create
    ensures h == BackToHome || h == CreateSuccess ==> t.view == Home
  {
    match h
    case SelectBlog(id) => Nav(Detail, Some(id))
    case CreateNew => s.(view := Create)
    case BackToHome => s.(view := Home)
    case CreateSuccess => s.(view := Home)
  }

  // ---------------------------------------------------------------------------
  // what is on screen
  // ---------------------------------------------------------------------------

  /** The header's Back button. */
  predicate ShowsBackButton(v: ViewState) {
    v == Detail || v == Create
  }

  /** The header's section navigation (Stories, Culture, Podcast). */
  predicate ShowsSectionNav(v: ViewState) {
    v == Home
  }

  datatype Panel = ListPanel | DetailPanel(id: Option<string>) | CreatePanel

  /** The main area: one conditional panel per view, the detail panel given the selected id. */
  function Panels(s: Nav): (ps: seq<Panel>)
    ensures |ps| == 1
    ensures ps[0] == ListPanel <==> s.view == Home
    ensures ps[0] == CreatePanel <==> s.view == Create
    ensures ps[0].DetailPanel? <==> s.view == Detail
    ensures ps[0].DetailPanel? ==> ps[0].id == s.selectedBlogId
  {
    (if s.view == Home then [ListPanel] else [])
    + (if s.view == Detail then [DetailPanel(s.selectedBlogId)] else [])
    + (if s.view == Create then [CreatePanel] else [])
  }

  /** The elements a user can act on and the handler each is wired to. */
  datatype Element =
    | BackButton      // header, Detail and Create only
    | Logo            // header, always
    | StoriesLink     // section navigation, Home only
    | CreateButton    // header, always
    | PostCard(id: string)  // a card of the list, which only Home renders
    | FormSuccess     // the creation form's mutation success callback
    | FormCancel      // the creation form's Dismiss button

  /**
   * Whether `e` can be acted on in view `v`: an element must be on screen.
   * The form's success callback is the exception: the mutation keeps the
   * callback it was created with after the form is gone, so a creation that
   * succeeds late reaches the shell in whatever view it is then in.
   */
  predicate Enabled(v: ViewState, e: Element)
    ensures e == Logo || e == CreateButton || e == FormSuccess ==> Enabled(v, e)
    ensures e == BackButton ==> (Enabled(v, e) <==> ShowsBackButton(v))
    ensures e == StoriesLink ==> (Enabled(v, e) <==> ShowsSectionNav(v))
    ensures e.PostCard? ==> (Enabled(v, e) <==> Panels(Nav(v, None))[0] == ListPanel)
    ensures e == FormCancel ==> (Enabled(v, e) <==> Panels(Nav(v, None))[0] == CreatePanel)
  {
    match e
    case BackButton => ShowsBackButton(v)
    case Logo => true
    case StoriesLink => ShowsSectionNav(v)
    case CreateButton => true
    case PostCard(_) => v == Home
    case FormSuccess => true
    case FormCancel => v == Create
  }

  /** The wiring: only a card selects, only the Create button opens the form, only the form's success reports success; all else goes home. */
  function HandlerOf(e: Element): (h: Handler)
    ensures h.SelectBlog? <==> e.PostCard?
    ensures h.SelectBlog? ==> h.id == e.id
    ensures h == CreateNew <==> e == CreateButton
    ensures h == CreateSuccess <==> e == FormSuccess
    ensures h == BackToHome <==> e in {BackButton, Logo, StoriesLink, FormCancel}
  {
    match e
    case BackButton => BackToHome
    case Logo => BackToHome
    case StoriesLink => BackToHome
    case CreateButton => CreateNew
    case PostCard(id) => SelectBlog(id)
    case FormSuccess => CreateSuccess
    case FormCancel => BackToHome
  }

  /** One user action: an element that cannot be acted on changes nothing. The invariant and a made selection are kept. */
  function Step(s: Nav, e: Element): (t: Nav)
    ensures Inv(s) ==> Inv(t)
    ensures s.selectedBlogId.Some? ==> t.selectedBlogId.Some?
  {
    if Enabled(s.view, e) then Apply(s, HandlerOf(e)) else s
  }

  /**
   * A session's actions, in order. No session breaks the invariant, and
   * once a post has been selected no session clears the selection.
   */
  function Run(s: Nav, es: seq<Element>): (t: Nav)
    ensures Inv(s) ==> Inv(t)
    ensures s.selectedBlogId.Some? ==> t.selectedBlogId.Some?
    decreases |es|
  {
    if es == [] then s else Run(Step(s, es[0]), es[1..])
  }

  // ---------------------------------------------------------------------------
  // properties
  // ---------------------------------------------------------------------------

  /** No handler breaks the invariant. */
  lemma ApplyKeepsInv(s: Nav, h: Handler)
    requires Inv(s)
    ensures Inv(Apply(s, h))
  {
  }

  /** Every state a session reaches from the start has a selected post whenever it shows the detail view. */
  lemma Reachable(es: seq<Element>)
    ensures Inv(Run(Initial, es))
  {
  }

  /** Only a card of the list changes the selection. */
  lemma OnlyCardsSelect(s: Nav, e: Element)
    requires Step(s, e).selectedBlogId != s.selectedBlogId
    ensures e.PostCard? && s.view == Home
    ensures Step(s, e) == Nav(Detail, Some(e.id))
  {
  }

  /** The detail view is entered only from the home view, by a card; in it, every action leaves it or does nothing. */
  lemma DetailOnlyFromHome(s: Nav, e: Element)
    requires Step(s, e).view == Detail
    ensures s.view == Detail ==> Step(s, e) == s
    ensures s.view != Detail ==> s.view == Home && e.PostCard? && Step(s, e).selectedBlogId == Some(e.id)
  {
  }

  /** Back, the logo, the Stories link, Dismiss and the form's success go home wherever they can be acted on, and doing it again changes nothing. */
  lemma HomeIdempotent(s: Nav, e: Element)
    requires e == BackButton || e == Logo || e == StoriesLink || e == FormCancel || e == FormSuccess
    ensures Enabled(s.view, e) ==> Step(s, e) == s.(view := Home)
    ensures Step(s, Logo).view == Home
    ensures Step(Step(s, e), e) == Step(s, e)
  {
  }

  /** The Create button can be used in every view and always opens the form. */
  lemma CreateAlwaysReachable(s: Nav)
    ensures Enabled(s.view, CreateButton)
    ensures Step(s, CreateButton) == s.(view := Create)
  {
  }

  /** The header shows Back exactly off the home view and the section navigation exactly on it. */
  lemma HeaderPerView(v: ViewState)
    ensures ShowsBackButton(v) <==> v != Home
    ensures ShowsSectionNav(v) <==> !ShowsBackButton(v)
  {
  }

  /** In any reachable state the detail panel is given an actual id: the one selected. */
  lemma DetailPanelHasId(es: seq<Element>)
    requires Run(Initial, es).view == Detail
    ensures Panels(Run(Initial, es))[0].DetailPanel?
    ensures Panels(Run(Initial, es))[0].id.Some?
  {
    Reachable(es);
  }

  // ---------------------------------------------------------------------------
  // the component
  // ---------------------------------------------------------------------------

  class AppState {
    var view: ViewState
    var selectedBlogId: Option<string>

    function State(): Nav
      reads this
    {
      Nav(view, selectedBlogId)
    }

    ghost predicate Valid()
      reads this
    {
      Inv(State())
    }

    constructor ()
      ensures State() == Initial && Valid()
    {
      view := Home;
      selectedBlogId := None;
    }

    /** `handleSelectBlog`: remember the id, then show the detail view. */
    method HandleSelectBlog(id: string)
      modifies this
      ensures view == Detail && selectedBlogId == Some(id)
      ensures State() == Apply(old(State()), SelectBlog(id)) && Valid()
    {
      selectedBlogId := Some(id);
      view := Detail;
    }

    method HandleCreateNew()
      modifies this
      ensures view == Create && selectedBlogId == old(selectedBlogId)
      ensures State() == Apply(old(State()), CreateNew) && Valid()
    {
      view := Create;
    }

    method HandleBackToHome()
      modifies this
      ensures view == Home && selectedBlogId == old(selectedBlogId)
      ensures State() == Apply(old(State()), BackToHome) && Valid()
    {
      view := Home;
    }

    method HandleCreateSuccess()
      modifies this
      ensures view == Home && selectedBlogId == old(selectedBlogId)
      ensures State() == Apply(old(State()), CreateSuccess) && Valid()
    {
      view := Home;
    }

    /** A user (or the form's callback) acting on element `e`: the handler it is wired to runs if `e` is enabled. */
    method Click(e: Element)
      requires Valid()
      modifies this
      ensures State() == Step(old(State()), e) && Valid()
    {
      if Enabled(view, e) {
        match HandlerOf(e)
        case SelectBlog(id) => HandleSelectBlog(id);
        case CreateNew => HandleCreateNew();
        case BackToHome => HandleBackToHome();
        case CreateSuccess => HandleCreateSuccess();
      }
    }
  }
}
