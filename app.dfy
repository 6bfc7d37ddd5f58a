/**
 * The root component's state and its transitions: hydration from
 * `localStorage`, URL routing, guarded navigation, login and logout, and the
 * merge of a `refreshData` round into the held state. React state is the
 * fields of `AppState`; each handler is a method. The results of the data
 * service calls are inputs: the `Promise.all` fan-out is one value that is
 * either every result or a rejection. `pushOk` says whether
 * `history.pushState` accepted the URL; a refusal is swallowed, and every
 * other update of the handler still happens.
 */
module App {
  import opened Wrappers
  import opened Entities
  import opened FieldMapping
  import opened Storage
  import Database
  import opened Router
  import opened Ordering

  /** The keys the component hydrates from. They are not the keys the data service writes. */
  const HydrationPostsKey: string := "posts_home_v5"
  const HydrationConfigKey: string := "school_config_v5"

  /** The config shown when none has been loaded. Unlike the service's default it has no footer links. */
  const FallbackConfig: SchoolConfig := SchoolConfig(
    "Trường PTDTBT TH và THCS Suối Lư", "Trách nhiệm - Yêu thương - Sáng tạo", "", None,
    "", "", "Huyện Điện Biên Đông, Tỉnh Điện Biên",
    "", "", "", "",
    "", "", "", "",
    true, 6,
    true, "#1e3a8a",
    "#fbbf24", "rgba(0,0,0,0.8)",
    "Trường PTDTBT TH và THCS Suối Lư", "Cổng thông tin điện tử Trường PTDTBT TH và THCS Suối Lư",
    None)

  predicate StartsWith(s: string, prefix: string) {
    |prefix| <= |s| && s[..|prefix|] == prefix
  }

  // ---------------------------------------------------------------- hydration

  /** The initial posts: the `data` of the envelope under the hydration key, else none. */
  function HydratedPosts(items: map<string, Entry>): seq<Post> {
    match CacheLookup(items, HydrationPostsKey)
    case Some(PostList(ps)) => ps
    case _ => []
  }

  /** The initial config: the `data` of the envelope under the hydration key, else none. */
  function HydratedConfig(items: map<string, Entry>): Option<SchoolConfig> {
    match CacheLookup(items, HydrationConfigKey)
    case Some(ConfigData(c)) => Some(c)
    case _ => None
  }

  /**
   * Nothing the data service writes or removes under its own cache keys
   * reaches the component's hydration: the two sets of keys are disjoint.
   */
  lemma ServiceCacheNeverHydrates(items: map<string, Entry>, key: string, e: Entry)
    requires key in {Database.ConfigKey, Database.PostsHomeKey, Database.StaffKey, Database.MenuKey, Database.DocCatsKey}
    ensures HydratedPosts(items[key := e]) == HydratedPosts(items)
    ensures HydratedConfig(items[key := e]) == HydratedConfig(items)
    ensures HydratedPosts(items - {key}) == HydratedPosts(items)
    ensures HydratedConfig(items - {key}) == HydratedConfig(items)
  {
    CacheKeysIndependent(items, key, HydrationPostsKey, e);
    CacheKeysIndependent(items, key, HydrationConfigKey, e);
  }

  /** A successful `setCache` of the home posts by the service is not seen by a later page load. */
  lemma ServicePostsCacheUnseen(items: map<string, Entry>, posts: seq<Post>, now: int)
    requires HydratedPosts(items) == []
    ensures HydratedPosts(items[Database.PostsHomeKey := Envelope(PostList(posts), now)]) == []
  {
    ServiceCacheNeverHydrates(items, Database.PostsHomeKey, Envelope(PostList(posts), now));
  }

  // ---------------------------------------------------------------- rendering decisions

  /** Whether the first refresh asks for the loader: nothing hydrated at all. */
  function ShouldShowLoader(posts: seq<Post>, config: Option<SchoolConfig>): bool {
    |posts| == 0 && config.None?
  }

  /** The top-level branch the component renders. */
  datatype View = Loader | LoginView | AdminView(page: string, user: User) | PublicView(page: string)

  /** The render guards, in the order the component tests them. */
  function ViewOf(loading: bool, posts: seq<Post>, config: Option<SchoolConfig>,
                  page: string, user: Option<User>): (v: View)
    ensures v.Loader? <==> loading && ShouldShowLoader(posts, config)
    ensures v.AdminView? ==> user.Some? && v.user == user.value && v.page == page && StartsWith(page, "admin-")
    ensures !v.Loader? && (page == "login" || (StartsWith(page, "admin-") && user.None?)) ==> v.LoginView?
    ensures v.PublicView? ==> v.page == page && page != "login" && !StartsWith(page, "admin-")
  {
    if loading && |posts| == 0 && config.None? then Loader
    else if page == "login" then LoginView
    else if StartsWith(page, "admin-") then
      (if user.None? then LoginView else AdminView(page, user.value))
    else PublicView(page)
  }

  // ---------------------------------------------------------------- refresh merge

  predicate BlockVisible(b: DisplayBlock) { b.isVisible }
  function BlockOrder(b: DisplayBlock): int { b.order }
  predicate IntroVisible(i: IntroductionArticle) { i.isVisible }
  function IntroOrder(i: IntroductionArticle): int { i.order }
  function MenuOrder(m: MenuItem): int { m.order }

  /** The config after a refresh: the fetched one if any, else the held one, else the fallback. */
  function MergedConfig(held: Option<SchoolConfig>, fetched: Option<SchoolConfig>): SchoolConfig {
    if fetched.Some? then fetched.value else held.GetOr(FallbackConfig)
  }

  /** The posts after a refresh: an empty fetch never replaces the held list. */
  function MergedPosts(held: seq<Post>, fetched: seq<Post>): (ps: seq<Post>)
    ensures fetched != [] ==> ps == fetched
    ensures fetched == [] ==> ps == held
    ensures ps == [] ==> held == [] && fetched == []
  {
    if |fetched| > 0 then fetched else held
  }

  /** The committed blocks: `filter(isVisible)` then the stable sort by `order`. */
  function ShownBlocks(bs: seq<DisplayBlock>): seq<DisplayBlock> {
    SortByKey(Filter(bs, BlockVisible), BlockOrder)
  }

  /** The committed introductions: `filter(isVisible)` then the stable sort by `order`. */
  function ShownIntroductions(xs: seq<IntroductionArticle>): seq<IntroductionArticle> {
    SortByKey(Filter(xs, IntroVisible), IntroOrder)
  }

  /** The committed menu: the stable sort by `order`. */
  function SortedMenu(ms: seq<MenuItem>): seq<MenuItem> {
    SortByKey(ms, MenuOrder)
  }

  /** The committed blocks are exactly the visible ones, ascending by order, ties in fetched order. */
  lemma ShownBlocksSpec(bs: seq<DisplayBlock>)
    ensures SortedBy(ShownBlocks(bs), BlockOrder)
    ensures multiset(ShownBlocks(bs)) == multiset(Filter(bs, BlockVisible))
    ensures forall b :: b in ShownBlocks(bs) <==> b in bs && b.isVisible
    ensures forall k :: KeyRun(ShownBlocks(bs), BlockOrder, k) == KeyRun(Filter(bs, BlockVisible), BlockOrder, k)
  {
    var visible := Filter(bs, BlockVisible);
    FilterContents(bs, BlockVisible);
    SortByKeySortsAndPermutes(visible, BlockOrder);
    SortByKeyStableAll(visible, BlockOrder);
    var r := ShownBlocks(bs);
    forall b ensures b in r <==> b in visible {
      assert b in r <==> multiset(r)[b] > 0;
      assert b in visible <==> multiset(visible)[b] > 0;
    }
  }

  /** The committed introductions are exactly the visible ones, ascending by order, ties in fetched order. */
  lemma ShownIntroductionsSpec(xs: seq<IntroductionArticle>)
    ensures SortedBy(ShownIntroductions(xs), IntroOrder)
    ensures multiset(ShownIntroductions(xs)) == multiset(Filter(xs, IntroVisible))
    ensures forall x :: x in ShownIntroductions(xs) <==> x in xs && x.isVisible
    ensures forall k :: KeyRun(ShownIntroductions(xs), IntroOrder, k) == KeyRun(Filter(xs, IntroVisible), IntroOrder, k)
  {
    var visible := Filter(xs, IntroVisible);
    FilterContents(xs, IntroVisible);
    SortByKeySortsAndPermutes(visible, IntroOrder);
    SortByKeyStableAll(visible, IntroOrder);
    var r := ShownIntroductions(xs);
    forall x ensures x in r <==> x in visible {
      assert x in r <==> multiset(r)[x] > 0;
      assert x in visible <==> multiset(visible)[x] > 0;
    }
  }

  /** The committed menu holds every fetched item, none dropped, ascending by order, ties in fetched order. */
  lemma SortedMenuSpec(ms: seq<MenuItem>)
    ensures SortedBy(SortedMenu(ms), MenuOrder)
    ensures multiset(SortedMenu(ms)) == multiset(ms)
    ensures |SortedMenu(ms)| == |ms|
    ensures forall k :: KeyRun(SortedMenu(ms), MenuOrder, k) == KeyRun(ms, MenuOrder, k)
  {
    SortByKeySortsAndPermutes(ms, MenuOrder);
    SortByKeyStableAll(ms, MenuOrder);
    var r := SortedMenu(ms);
    assert |r| == |multiset(r)| == |multiset(ms)| == |ms|;
  }

  /** Post-processing what a refresh committed changes nothing: a second identical refresh is a no-op here. */
  lemma {:induction false} ShownIdempotent(bs: seq<DisplayBlock>, xs: seq<IntroductionArticle>, ms: seq<MenuItem>)
    ensures ShownBlocks(ShownBlocks(bs)) == ShownBlocks(bs)
    ensures ShownIntroductions(ShownIntroductions(xs)) == ShownIntroductions(xs)
    ensures SortedMenu(SortedMenu(ms)) == SortedMenu(ms)
  {
    var b := ShownBlocks(bs);
    ShownBlocksSpec(bs);
    FilterAll(b, BlockVisible);
    SortByKeyOfSorted(b, BlockOrder);
    var x := ShownIntroductions(xs);
    ShownIntroductionsSpec(xs);
    FilterAll(x, IntroVisible);
    SortByKeyOfSorted(x, IntroOrder);
    SortedMenuSpec(ms);
    SortByKeyOfSorted(SortedMenu(ms), MenuOrder);
  }

  /** Every result of one `Promise.all` round, the non-critical ones already caught to `[]`. */
  datatype Fetched = Fetched(
    config: Option<SchoolConfig>, posts: seq<Post>,
    documents: seq<SchoolDocument>, docCategories: seq<DocumentCategory>,
    gallery: seq<GalleryImage>, albums: seq<GalleryAlbum>, videos: seq<Video>,
    blocks: seq<DisplayBlock>, menu: seq<MenuItem>, staff: seq<StaffMember>,
    introductions: seq<IntroductionArticle>, postCategories: seq<PostCategory>)

  // ---------------------------------------------------------------- the component

  class AppState {
    var currentPage: string
    var detailId: Option<string>
    var posts: seq<Post>
    var config: Option<SchoolConfig>
    var loading: bool
    var dataError: bool
    var currentUser: Option<User>
    /** The URLs `pushState` accepted, oldest first. */
    var history: seq<string>
    var documents: seq<SchoolDocument>
    var docCategories: seq<DocumentCategory>
    var galleryImages: seq<GalleryImage>
    var albums: seq<GalleryAlbum>
    var videos: seq<Video>
    var blocks: seq<DisplayBlock>
    var menuItems: seq<MenuItem>
    var staffList: seq<StaffMember>
    var introductions: seq<IntroductionArticle>
    var postCategories: seq<PostCategory>

    /** The first render: hydrated posts and config, everything else empty, loading. */
    constructor (items: map<string, Entry>)
      ensures currentPage == "home" && detailId.None? && currentUser.None? && history == []
      ensures posts == HydratedPosts(items) && config == HydratedConfig(items)
      ensures loading && !dataError
      ensures documents == [] && docCategories == [] && galleryImages == [] && albums == []
      ensures videos == [] && blocks == [] && menuItems == [] && staffList == []
      ensures introductions == [] && postCategories == []
    {
      currentPage := "home";
      detailId := None;
      posts := HydratedPosts(items);
      config := HydratedConfig(items);
      loading := true;
      dataError := false;
      currentUser := None;
      history := [];
      documents := [];
      docCategories := [];
      galleryImages := [];
      albums := [];
      videos := [];
      blocks := [];
      menuItems := [];
      staffList := [];
      introductions := [];
      postCategories := [];
    }

    /** `safePushState`: a refused push is swallowed and leaves the history as it was. */
    method SafePushState(url: string, pushOk: bool)
      modifies this`history
      ensures history == if pushOk then old(history) + [url] else old(history)
    {
      if pushOk {
        history := history + [url];
      }
    }

    /** `handleUrlRouting` on the current `location.search`; `None` stands for reading it throwing. */
    method HandleUrlRouting(search: Option<string>)
      modifies this`currentPage, this`detailId
      ensures currentPage == RouteOf(search).page
      ensures detailId == if RouteOf(search).id.Some? then RouteOf(search).id else old(detailId)
    {
      if search.None? {
        currentPage := "home";
        return;
      }
      var pairs := QueryPairs(search.value);
      var pageParam := QueryGet(pairs, "page");
      var idParam := QueryGet(pairs, "id");
      if pageParam.Some? && pageParam.value != "" {
        currentPage := pageParam.value;
        if idParam.Some? && idParam.value != "" {
          detailId := idParam;
        }
      } else {
        currentPage := "home";
      }
    }

    /**
     * `navigate(path, id)`, an absent id being the empty string. Without a
     * user, any page starting with `admin` is refused for the login page and
     * the id is ignored.
     */
    method Navigate(path: string, id: string, pushOk: bool)
      modifies this`currentPage, this`detailId, this`history
      ensures StartsWith(path, "admin") && currentUser.None? ==>
        currentPage == "login" && detailId == old(detailId) &&
        history == if pushOk then old(history) + [LoginPageUrl] else old(history)
      ensures !(StartsWith(path, "admin") && currentUser.None?) ==>
        currentPage == path && detailId == (if id != "" then Some(id) else old(detailId)) &&
        history == if pushOk then old(history) + [NavigationUrl(path, id)] else old(history)
      ensures currentUser.None? ==> !StartsWith(currentPage, "admin")
    {
      if StartsWith(path, "admin") && currentUser.None? {
        assert !StartsWith("login", "admin") by {
          assert "login"[..5][0] == 'l';
        }
        currentPage := "login";
        SafePushState(LoginPageUrl, pushOk);
        return;
      }
      if id != "" {
        detailId := Some(id);
      }
      currentPage := path;
      SafePushState(NavigationUrl(path, id), pushOk);
    }

    /** `handleLoginSuccess(user)`: signed in and on the dashboard. */
    method HandleLoginSuccess(user: User, pushOk: bool)
      modifies this`currentUser, this`currentPage, this`history
      ensures currentUser == Some(user) && currentPage == "admin-dashboard"
      ensures history == if pushOk then old(history) + [DashboardUrl] else old(history)
    {
      currentUser := Some(user);
      currentPage := "admin-dashboard";
      SafePushState(DashboardUrl, pushOk);
    }

    /** `handleLogout`, once the sign-out call has returned: signed out and on the login page. */
    method HandleLogout(pushOk: bool)
      modifies this`currentUser, this`currentPage, this`history
      ensures currentUser.None? && currentPage == "login"
      ensures history == if pushOk then old(history) + [LoginPageUrl] else old(history)
    {
      currentUser := None;
      currentPage := "login";
      SafePushState(LoginPageUrl, pushOk);
    }

    /** The config and posts half of the `try` branch of `refreshData`. */
    method CommitCritical(fetchedConfig: Option<SchoolConfig>, fetchedPosts: seq<Post>)
      modifies this`config, this`posts
      ensures config == Some(MergedConfig(old(config), fetchedConfig))
      ensures posts == MergedPosts(old(posts), fetchedPosts)
    {
      if fetchedConfig.Some? {
        config := fetchedConfig;
      } else if config.None? {
        config := Some(FallbackConfig);
      }
      if |fetchedPosts| > 0 {
        posts := fetchedPosts;
      }
    }

    /** The lists of the `try` branch of `refreshData` that are committed as fetched. */
    method CommitPlainLists(f: Fetched)
      modifies this`documents, this`docCategories, this`galleryImages,
               this`albums, this`videos, this`staffList, this`postCategories
      ensures documents == f.documents && docCategories == f.docCategories
      ensures galleryImages == f.gallery && albums == f.albums && videos == f.videos
      ensures staffList == f.staff && postCategories == f.postCategories
    {
      documents := f.documents;
      docCategories := f.docCategories;
      galleryImages := f.gallery;
      albums := f.albums;
      videos := f.videos;
      staffList := f.staff;
      postCategories := f.postCategories;
    }

    /** The lists of the `try` branch of `refreshData` that are filtered and sorted first. */
    method CommitOrderedLists(fetchedBlocks: seq<DisplayBlock>, fetchedMenu: seq<MenuItem>,
                              fetchedIntros: seq<IntroductionArticle>)
      modifies this`blocks, this`menuItems, this`introductions
      ensures blocks == ShownBlocks(fetchedBlocks)
      ensures menuItems == SortedMenu(fetchedMenu)
      ensures introductions == ShownIntroductions(fetchedIntros)
    {
      blocks := ShownBlocks(fetchedBlocks);
      menuItems := SortedMenu(fetchedMenu);
      introductions := ShownIntroductions(fetchedIntros);
    }

    /** The `try` branch of `refreshData`: every result of the round committed. */
    method Commit(f: Fetched)
      modifies this`config, this`posts, this`documents,
               this`docCategories, this`galleryImages, this`albums, this`videos, this`blocks,
               this`menuItems, this`staffList, this`introductions, this`postCategories
      ensures config == Some(MergedConfig(old(config), f.config))
      ensures posts == MergedPosts(old(posts), f.posts)
      ensures documents == f.documents && docCategories == f.docCategories
      ensures galleryImages == f.gallery && albums == f.albums && videos == f.videos
      ensures staffList == f.staff && postCategories == f.postCategories
      ensures blocks == ShownBlocks(f.blocks) && menuItems == SortedMenu(f.menu)
      ensures introductions == ShownIntroductions(f.introductions)
    {
      CommitCritical(f.config, f.posts);
      CommitPlainLists(f);
      CommitOrderedLists(f.blocks, f.menu, f.introductions);
    }

    /** The `try`/`catch` of `refreshData`: the round's outcome merged into the held data. */
    method Settle(fetched: Result<Fetched>)
      modifies this`dataError, this`config, this`posts, this`documents,
               this`docCategories, this`galleryImages, this`albums, this`videos, this`blocks,
               this`menuItems, this`staffList, this`introductions, this`postCategories
      ensures config == Some(MergedConfig(old(config), if fetched.Ok? then fetched.value.config else None))
      ensures posts == if fetched.Ok? then MergedPosts(old(posts), fetched.value.posts) else old(posts)
      ensures documents == if fetched.Ok? then fetched.value.documents else old(documents)
      ensures docCategories == if fetched.Ok? then fetched.value.docCategories else old(docCategories)
      ensures galleryImages == if fetched.Ok? then fetched.value.gallery else old(galleryImages)
      ensures albums == if fetched.Ok? then fetched.value.albums else old(albums)
      ensures videos == if fetched.Ok? then fetched.value.videos else old(videos)
      ensures staffList == if fetched.Ok? then fetched.value.staff else old(staffList)
      ensures postCategories == if fetched.Ok? then fetched.value.postCategories else old(postCategories)
      ensures blocks == if fetched.Ok? then ShownBlocks(fetched.value.blocks) else old(blocks)
      ensures menuItems == if fetched.Ok? then SortedMenu(fetched.value.menu) else old(menuItems)
      ensures introductions == if fetched.Ok? then ShownIntroductions(fetched.value.introductions) else old(introductions)
      ensures dataError == (fetched.Err? || old(dataError))
    {
      if fetched.Ok? {
        Commit(fetched.value);
      } else {
        dataError := true;
        if config.None? {
          config := Some(FallbackConfig);
        }
      }
    }

    /**
     * `refreshData(showLoader)` with the outcome of its `Promise.all`: `Err`
     * when the config or posts call rejected. The held config is kept or
     * replaced, never cleared; posts are replaced only by a non-empty list.
     */
    method RefreshData(showLoader: bool, fetched: Result<Fetched>)
      modifies this`loading, this`dataError, this`config, this`posts, this`documents,
               this`docCategories, this`galleryImages, this`albums, this`videos, this`blocks,
               this`menuItems, this`staffList, this`introductions, this`postCategories
      ensures config == Some(MergedConfig(old(config), if fetched.Ok? then fetched.value.config else None))
      ensures posts == if fetched.Ok? then MergedPosts(old(posts), fetched.value.posts) else old(posts)
      ensures documents == if fetched.Ok? then fetched.value.documents else old(documents)
      ensures docCategories == if fetched.Ok? then fetched.value.docCategories else old(docCategories)
      ensures galleryImages == if fetched.Ok? then fetched.value.gallery else old(galleryImages)
      ensures albums == if fetched.Ok? then fetched.value.albums else old(albums)
      ensures videos == if fetched.Ok? then fetched.value.videos else old(videos)
      ensures staffList == if fetched.Ok? then fetched.value.staff else old(staffList)
      ensures postCategories == if fetched.Ok? then fetched.value.postCategories else old(postCategories)
      ensures blocks == if fetched.Ok? then ShownBlocks(fetched.value.blocks) else old(blocks)
      ensures menuItems == if fetched.Ok? then SortedMenu(fetched.value.menu) else old(menuItems)
      ensures introductions == if fetched.Ok? then ShownIntroductions(fetched.value.introductions) else old(introductions)
      ensures dataError == fetched.Err?
      ensures loading == if showLoader then false else old(loading)
      ensures config.Some?
      ensures old(posts) != [] ==> posts != []
    {
      if showLoader {
        loading := true;
      }
      dataError := false;
      Settle(fetched);
      if showLoader {
        loading := false;
      }
    }
  }

  // ---------------------------------------------------------------- properties across handlers

  /** An `admin-` page is never rendered as the admin layout without a signed-in user. */
  lemma AdminViewNeedsUser(loading: bool, posts: seq<Post>, config: Option<SchoolConfig>, page: string)
    requires StartsWith(page, "admin-")
    ensures ViewOf(loading, posts, config, page, None) == (if loading && posts == [] && config.None? then Loader else LoginView)
  {
    assert page != "login" by {
      assert page[..6] == "admin-";
    }
  }

  /**
   * After any finished refresh the loader is never shown again, whatever the
   * outcome: a config is held from then on.
   */
  method NoLoaderAfterRefresh(app: AppState, showLoader: bool, fetched: Result<Fetched>)
    modifies app
    ensures !ViewOf(app.loading, app.posts, app.config, app.currentPage, app.currentUser).Loader?
  {
    app.RefreshData(showLoader, fetched);
    HeldConfigHidesLoader(app.loading, app.posts, app.config, app.currentPage, app.currentUser);
  }

  lemma HeldConfigHidesLoader(loading: bool, posts: seq<Post>, config: Option<SchoolConfig>, page: string,
                              user: Option<User>)
    requires config.Some?
    ensures !ViewOf(loading, posts, config, page, user).Loader?
  {
  }

  /**
   * The mount effect: the first render's state, then `refreshData` asked to
   * show the loader only when nothing was hydrated, then the first routing
   * of the location (`None` when reading it throws). The refresh and the
   * routing touch disjoint state, so their order does not matter here.
   * With hydrated data the loader is never requested, and `loading` keeps
   * its initial `true` for good; without, it ends `false`. Either way the
   * loader is not shown once the refresh has settled.
   */
  method Mount(items: map<string, Entry>, fetched: Result<Fetched>, search: Option<string>)
    returns (app: AppState)
    ensures fresh(app)
    ensures app.currentPage == RouteOf(search).page && app.detailId == RouteOf(search).id
    ensures app.currentUser.None? && app.config.Some?
    ensures app.loading <==> !ShouldShowLoader(HydratedPosts(items), HydratedConfig(items))
    ensures !ViewOf(app.loading, app.posts, app.config, app.currentPage, app.currentUser).Loader?
  {
    app := new AppState(items);
    FirstRefresh(app, fetched);
    ghost var loading, posts, config := app.loading, app.posts, app.config;
    app.HandleUrlRouting(search);
    HeldConfigHidesLoader(loading, posts, config, app.currentPage, app.currentUser);
  }

  /** `refreshData(shouldShowLoader)` as the mount effect calls it: only its effect on the loader. */
  method FirstRefresh(app: AppState, fetched: Result<Fetched>)
    modifies app`loading, app`dataError, app`config, app`posts, app`documents,
             app`docCategories, app`galleryImages, app`albums, app`videos, app`blocks,
             app`menuItems, app`staffList, app`introductions, app`postCategories
    ensures app.config.Some?
    ensures app.loading == (old(app.loading) && !ShouldShowLoader(old(app.posts), old(app.config)))
  {
    var showLoader := ShouldShowLoader(app.posts, app.config);
    app.RefreshData(showLoader, fetched);
  }

  /**
   * A user who navigates to a plain page (any page but an `admin` one when
   * signed out) and then reloads lands on the same page and id: the reload
   * mounts a fresh component, whose first routing reads the pushed URL.
   */
  method NavigateThenReload(app: AppState, path: string, id: string, items: map<string, Entry>)
    returns (reloaded: AppState)
    requires path != "home" && path != "login" && path != "" && PlainToken(path) && PlainToken(id)
    requires app.currentUser.Some? || !StartsWith(path, "admin")
    modifies app
    ensures fresh(reloaded)
    ensures reloaded.currentPage == path
    ensures reloaded.detailId == if id != "" then Some(id) else None
  {
    app.Navigate(path, id, true);
    NavigationRoundTrip(path, id);
    var url := app.history[|app.history| - 1];
    reloaded := new AppState(items);
    reloaded.HandleUrlRouting(Some(SearchOf(url)));
  }

  /**
   * A `popstate` that returns to the URL `navigate` pushed re-routes the
   * same component to that page, and to that id when there is one.
   */
  method NavigateThenPopState(app: AppState, path: string, id: string)
    requires path != "home" && path != "login" && path != "" && PlainToken(path) && PlainToken(id)
    requires app.currentUser.Some? || !StartsWith(path, "admin")
    modifies app
    ensures app.currentPage == path
    ensures app.detailId == if id != "" then Some(id) else old(app.detailId)
  {
    app.Navigate(path, id, true);
    NavigationRoundTrip(path, id);
    app.HandleUrlRouting(Some(SearchOf(app.history[|app.history| - 1])));
  }
}
