/**
 * The profile page (Profile.jsx): the `Profile` controller that holds a loading flag
 * and four fetched collections, the route table that picks a view, and the two
 * sub-pages with overlay state of their own, `ProfilePage` (edit intro) and
 * `SkillPage` (add skill).
 *
 * The four fetches are not run here: the controller records the requests it
 * dispatches, and their outcomes arrive later as result events, in any order.
 */
module ProfilePages {
  import opened Wrappers
  import opened Entities
  import opened Recency
  import opened Header

  // ---------------------------------------------------------------------------
  // Fetched collections and the results that update them
  // ---------------------------------------------------------------------------

  /** The four independently fetched collections. */
  datatype Collection = PostsCollection | EducationsCollection | ExperiencesCollection | SkillsCollection

  /** The `data` of a response, tagged by the collection it was fetched for. */
  datatype Payload =
    | PostList(posts: seq<Post>)
    | EducationList(educations: seq<Education>)
    | ExperienceList(experiences: seq<Experience>)
    | SkillList(skills: seq<Skill>)
  {
    function Target(): Collection {
      match this
      case PostList(_) => PostsCollection
      case EducationList(_) => EducationsCollection
      case ExperienceList(_) => ExperiencesCollection
      case SkillList(_) => SkillsCollection
    }
  }

  /** A settled fetch: the `{ success, data }` its handler destructures. */
  datatype FetchResult = FetchResult(success: bool, data: Payload)

  /** The four collections the controller holds, as one value. */
  datatype Collections = Collections(
    posts: seq<Post>,
    educations: seq<Education>,
    experiences: seq<Experience>,
    skills: seq<Skill>)

  /** One collection of `c`, tagged. */
  function Slot(c: Collections, k: Collection): Payload {
    match k
    case PostsCollection => PostList(c.posts)
    case EducationsCollection => EducationList(c.educations)
    case ExperiencesCollection => ExperienceList(c.experiences)
    case SkillsCollection => SkillList(c.skills)
  }

  /** All four collections empty, as `useState([])` starts them. */
  const NoCollections := Collections([], [], [], [])

  /**
   * What a result handler does: on success, its own collection becomes `data`;
   * on failure nothing changes. The other three collections are never touched.
   */
  function Apply(c: Collections, r: FetchResult): (c': Collections)
    ensures forall k :: Slot(c', k) == if r.success && r.data.Target() == k then r.data else Slot(c, k)
  {
    if !r.success then c
    else
      match r.data
      case PostList(p) => c.(posts := p)
      case EducationList(e) => c.(educations := e)
      case ExperienceList(x) => c.(experiences := x)
      case SkillList(s) => c.(skills := s)
  }

  /** The collections after the results in `rs` were handled, first to last. */
  function ApplyAll(c: Collections, rs: seq<FetchResult>): Collections
    decreases |rs|
  {
    if rs == [] then c else Apply(ApplyAll(c, rs[..|rs| - 1]), rs[|rs| - 1])
  }

  /** The data of the last successful result for `k` in `rs`, if any. */
  function LastSuccess(rs: seq<FetchResult>, k: Collection): (p: Option<Payload>)
    ensures p.Some? ==> p.value.Target() == k && FetchResult(true, p.value) in rs
    decreases |rs|
  {
    if rs == [] then None
    else if rs[|rs| - 1].success && rs[|rs| - 1].data.Target() == k then Some(rs[|rs| - 1].data)
    else LastSuccess(rs[..|rs| - 1], k)
  }

  /** Last write wins: each collection ends as the last successful result for it left it. */
  lemma {:induction false} ApplyAllLastSuccess(c: Collections, rs: seq<FetchResult>, k: Collection)
    ensures Slot(ApplyAll(c, rs), k) == LastSuccess(rs, k).GetOr(Slot(c, k))
    decreases |rs|
  {
    if rs != [] {
      ApplyAllLastSuccess(c, rs[..|rs| - 1], k);
    }
  }

  /** Collections that agree on every slot are equal. */
  lemma SlotsDetermine(c1: Collections, c2: Collections)
    requires forall k :: Slot(c1, k) == Slot(c2, k)
    ensures c1 == c2
  {
    assert Slot(c1, PostsCollection) == Slot(c2, PostsCollection);
    assert Slot(c1, EducationsCollection) == Slot(c2, EducationsCollection);
    assert Slot(c1, ExperiencesCollection) == Slot(c2, ExperiencesCollection);
    assert Slot(c1, SkillsCollection) == Slot(c2, SkillsCollection);
  }

  /** At most one result per collection, as one effect run dispatches. */
  predicate OnePerCollection(rs: seq<FetchResult>) {
    forall i, j :: 0 <= i < j < |rs| ==> rs[i].data.Target() != rs[j].data.Target()
  }

  /** With one result per collection, the last success for `k` is the one success for `k`. */
  lemma {:induction false} LastSuccessOfUnique(rs: seq<FetchResult>, p: Payload)
    requires OnePerCollection(rs)
    ensures LastSuccess(rs, p.Target()) == Some(p) <==> FetchResult(true, p) in rs
    decreases |rs|
  {
    if rs != [] {
      var n := |rs| - 1;
      var prefix := rs[..n];
      assert rs == prefix + [rs[n]];
      assert OnePerCollection(prefix);
      LastSuccessOfUnique(prefix, p);
      if FetchResult(true, p) in prefix {
        var i :| 0 <= i < n && prefix[i] == FetchResult(true, p);
        assert rs[i].data.Target() != rs[n].data.Target();
      }
    }
  }

  /**
   * The order in which the fetches settle does not matter: any reordering of one
   * result per collection leaves the same four collections.
   */
  lemma AnyOrderSameCollections(c: Collections, rs: seq<FetchResult>, rs': seq<FetchResult>)
    requires OnePerCollection(rs) && OnePerCollection(rs')
    requires multiset(rs) == multiset(rs')
    ensures ApplyAll(c, rs) == ApplyAll(c, rs')
  {
    forall k | true
      ensures Slot(ApplyAll(c, rs), k) == Slot(ApplyAll(c, rs'), k)
    {
      ApplyAllLastSuccess(c, rs, k);
      ApplyAllLastSuccess(c, rs', k);
      var a, b := LastSuccess(rs, k), LastSuccess(rs', k);
      if a.Some? {
        LastSuccessOfUnique(rs, a.value);
        assert FetchResult(true, a.value) in multiset(rs');
        LastSuccessOfUnique(rs', a.value);
      } else if b.Some? {
        LastSuccessOfUnique(rs', b.value);
        assert FetchResult(true, b.value) in multiset(rs);
        LastSuccessOfUnique(rs, b.value);
      }
    }
    SlotsDetermine(ApplyAll(c, rs), ApplyAll(c, rs'));
  }

  // ---------------------------------------------------------------------------
  // Requests
  // ---------------------------------------------------------------------------

  /** An `apiAction` call; all four are `GET`. */
  datatype Request = Get(url: string)

  /** The endpoint each collection is fetched from, for profile `id`. */
  function Endpoint(k: Collection, id: string): string {
    match k
    case PostsCollection => "/api/v1/post/listAllPost/" + id
    case EducationsCollection => "/api/v1/profile/education/" + id
    case ExperiencesCollection => "/api/v1/profile/experience/" + id
    case SkillsCollection => "/api/v1/profile/skill/getAllSkill/" + id
  }

  /** The four requests of one effect run, in dispatch order. */
  function Dispatch(id: string): (rs: seq<Request>)
    ensures |rs| == 4
    ensures forall k :: Get(Endpoint(k, id)) in rs
  {
    [Get(Endpoint(PostsCollection, id)), Get(Endpoint(EducationsCollection, id)),
     Get(Endpoint(ExperiencesCollection, id)), Get(Endpoint(SkillsCollection, id))]
  }

  // ---------------------------------------------------------------------------
  // Routes and views
  // ---------------------------------------------------------------------------

  /** The summary's preview of a collection: its first three items, or all of them if fewer. */
  function Preview<T>(s: seq<T>): (r: seq<T>)
    ensures |r| == if |s| < 3 then |s| else 3
    ensures r == s[..|r|]
    ensures |s| <= 3 ==> r == s
  {
    if |s| > 3 then s[..3] else s
  }

  /** The element a `<Route>` renders. */
  datatype Page = SummaryPage | AllPostsPage | AllSkillsPage | NotFoundPage

  /** A `<Route path=… element=…>`; the path `*` matches everything. */
  datatype Route = Route(path: string, page: Page)

  /** The `<Routes>` of the profile page, in declaration order. */
  const ProfileRoutes: seq<Route> := [
    Route("/", SummaryPage),
    Route("/all-posts", AllPostsPage),
    Route("/all-skills", AllSkillsPage),
    Route("*", NotFoundPage)
  ]

  /** The page of the first route whose path is `path` or `*`. */
  function MatchRoute(routes: seq<Route>, path: string): Option<Page>
    decreases |routes|
  {
    if routes == [] then None
    else if routes[0].path == path || routes[0].path == "*" then Some(routes[0].page)
    else MatchRoute(routes[1..], path)
  }

  /** Route selection is total, and each page has exactly one way in. */
  function SelectPage(path: string): (p: Page)
    ensures p == SummaryPage <==> path == "/"
    ensures p == AllPostsPage <==> path == "/all-posts"
    ensures p == AllSkillsPage <==> path == "/all-skills"
    ensures p == NotFoundPage <==> path !in {"/", "/all-posts", "/all-skills"}
  {
    MatchRoute(ProfileRoutes, path).GetOr(NotFoundPage)
  }

  /** What a page is rendered with. */
  datatype View =
    | Summary(user: Option<User>, posts: seq<Post>, educations: seq<Education>,
              experiences: seq<Experience>, skills: seq<Skill>)
    | AllPosts(posts: seq<Post>)
    | AllSkills(skills: seq<Skill>)
    | NotFound

  /**
   * The view for `path`: the summary gets the preview (the first three) of the
   * posts and of the skills, and every education and experience; the two list
   * pages get their whole collection.
   */
  function RouteView(path: string, user: Option<User>, c: Collections): (v: View)
    ensures v.Summary? <==> path == "/"
    ensures v.Summary? ==> v.user == user && v.educations == c.educations && v.experiences == c.experiences
    ensures v.Summary? ==> v.posts == Preview(c.posts) && v.skills == Preview(c.skills)
    ensures v.AllPosts? <==> path == "/all-posts"
    ensures v.AllPosts? ==> v.posts == c.posts
    ensures v.AllSkills? <==> path == "/all-skills"
    ensures v.AllSkills? ==> v.skills == c.skills
    ensures v.NotFound? <==> path !in {"/", "/all-posts", "/all-skills"}
  {
    match SelectPage(path)
    case SummaryPage => Summary(user, Preview(c.posts), c.educations, c.experiences, Preview(c.skills))
    case AllPostsPage => AllPosts(c.posts)
    case AllSkillsPage => AllSkills(c.skills)
    case NotFoundPage => NotFound
  }

  /** What `Profile` returns: the loader alone, or the routed view. */
  datatype Screen = Loader | Routed(view: View)

  // ---------------------------------------------------------------------------
  // The controller
  // ---------------------------------------------------------------------------

  class Profile {
    var isLoading: bool
    var posts: seq<Post>
    var educations: seq<Education>
    var experiences: seq<Experience>
    var skills: seq<Skill>
    /** Every request dispatched so far, in order. */
    var requests: seq<Request>
    /** The `user` the `[user]` effect last ran with; `None` before its first run. */
    var effectDeps: Option<Option<User>>

    /** The four collections as one value. */
    function Held(): Collections
      reads this
    {
      Collections(posts, educations, experiences, skills)
    }

    /** Loading, nothing fetched, nothing requested, no effect run yet. */
    constructor()
      ensures isLoading && Held() == NoCollections
      ensures requests == [] && effectDeps == None
    {
      isLoading := true;
      posts, educations, experiences, skills := [], [], [], [];
      requests := [];
      effectDeps := None;
    }

    /**
     * The render output: the loader while loading, and otherwise the view the
     * route table picks for `path`.
     */
    function Render(path: string, user: Option<User>): (s: Screen)
      reads this
      ensures s == Loader <==> isLoading
      ensures s.Routed? ==> s.view == RouteView(path, user, Held())
    {
      if isLoading then Loader else Routed(RouteView(path, user, Held()))
    }

    /**
     * The `[user]` effect after a render with session user `user` and route
     * parameter `id`. It runs only when `user` differs from its last run (`id`
     * is not a dependency). Without a user it only sets the loading flag; with one
     * it dispatches the four fetches and clears the flag at once, before any of
     * them has settled. No collection changes either way.
     */
    method UserEffect(user: Option<User>, id: string)
      modifies this`isLoading, this`requests, this`effectDeps
      ensures effectDeps == Some(user)
      ensures old(effectDeps) == Some(user) ==> isLoading == old(isLoading) && requests == old(requests)
      ensures old(effectDeps) != Some(user) ==>
              isLoading == user.None? &&
              requests == old(requests) + (if user.Some? then Dispatch(id) else [])
    {
      if effectDeps != Some(user) {
        isLoading := true;
        if user.Some? {
          requests := requests + Dispatch(id);
          isLoading := false;
        }
      }
      effectDeps := Some(user);
    }

    /** `fetchData` settled: posts are replaced on success only. */
    method PostsSettled(success: bool, data: seq<Post>)
      modifies this`posts
      ensures Held() == Apply(old(Held()), FetchResult(success, PostList(data)))
      ensures posts == if success then data else old(posts)
    {
      if success {
        posts := data;
      }
    }

    /** `getEducationsData` settled: educations are replaced on success only. */
    method EducationsSettled(success: bool, data: seq<Education>)
      modifies this`educations
      ensures Held() == Apply(old(Held()), FetchResult(success, EducationList(data)))
      ensures educations == if success then data else old(educations)
    {
      if success {
        educations := data;
      }
    }

    /** `getExperiencesData` settled: experiences are replaced on success only. */
    method ExperiencesSettled(success: bool, data: seq<Experience>)
      modifies this`experiences
      ensures Held() == Apply(old(Held()), FetchResult(success, ExperienceList(data)))
      ensures experiences == if success then data else old(experiences)
    {
      if success {
        experiences := data;
      }
    }

    /** `getSkills` settled: skills are replaced on success only. */
    method SkillsSettled(success: bool, data: seq<Skill>)
      modifies this`skills
      ensures Held() == Apply(old(Held()), FetchResult(success, SkillList(data)))
      ensures skills == if success then data else old(skills)
    {
      if success {
        skills := data;
      }
    }
  }

  /**
   * A visit as a client sees it: no user keeps the loader up; a user clears it at
   * once with every collection still empty; a new route id alone fetches nothing;
   * results settling in reverse order still land in their own collections.
   */
  method ProfileVisit(u: User, ps: seq<Post>, ss: seq<Skill>)
  {
    var profile := new Profile();
    profile.UserEffect(None, "a");
    assert profile.Render("/", None) == Loader && profile.requests == [];
    profile.UserEffect(Some(u), "a");
    assert profile.Render("/", Some(u)) == Routed(Summary(Some(u), [], [], [], []));
    assert profile.requests == Dispatch("a");
    profile.UserEffect(Some(u), "b");
    assert profile.requests == Dispatch("a");
    profile.SkillsSettled(true, ss);
    profile.ExperiencesSettled(false, []);
    profile.EducationsSettled(false, []);
    profile.PostsSettled(true, ps);
    assert profile.Held() == Collections(ps, [], [], ss);
    assert profile.Render("/all-posts", Some(u)) == Routed(AllPosts(ps));
  }

  // ---------------------------------------------------------------------------
  // The summary page and its edit-intro overlay
  // ---------------------------------------------------------------------------

  class ProfilePage {
    /** The props it was rendered with; nothing on this page changes them. */
    const user: Option<User>
    const posts: seq<Post>
    const educations: seq<Education>
    const experiences: seq<Experience>
    const skills: seq<Skill>
    var isModalOpen: bool

    /** Rendered from a summary view; the overlay starts closed. */
    constructor(v: View)
      requires v.Summary?
      ensures user == v.user && posts == v.posts && educations == v.educations
      ensures experiences == v.experiences && skills == v.skills
      ensures !isModalOpen
    {
      user, posts, educations, experiences := v.user, v.posts, v.educations, v.experiences;
      skills := v.skills;
      isModalOpen := false;
    }

    /** The header's pen button. */
    method Edit()
      modifies this`isModalOpen
      ensures isModalOpen
    {
      isModalOpen := true;
    }

    /** `handleSave`: closes the overlay; the edited fields are not merged anywhere. */
    method Save()
      modifies this`isModalOpen
      ensures !isModalOpen
    {
      isModalOpen := false;
    }

    /** The form's `onCancel`. */
    method Cancel()
      modifies this`isModalOpen
      ensures !isModalOpen
    {
      isModalOpen := false;
    }

    /** The overlay's `onClose`. */
    method Close()
      modifies this`isModalOpen
      ensures !isModalOpen
    {
      isModalOpen := false;
    }

    /**
     * The header's `[isEdit]` effect calling `setIsModalOpen(true)`: the overlay
     * opens when the query string's flag changed to a non-empty value, and is
     * otherwise left as it was (the effect never closes it).
     */
    method HeaderEditEffect(header: ProfileHeader, search: string)
      modifies this`isModalOpen, header`editDeps
      ensures header.editDeps == Some(EditFlag(search))
      ensures isModalOpen ==
              (old(isModalOpen) || (old(header.editDeps) != Some(EditFlag(search)) && OpensEditModal(search)))
    {
      var openModal := header.EditEffect(search);
      if openModal {
        isModalOpen := true;
      }
    }

    /**
     * The header's `[user]` effect as this page runs it: the header is given the
     * session `user`, so the school and company it shows come from that user's own
     * educations and experiences, never from the collections fetched for the
     * route's profile id that this page also holds.
     */
    method HeaderRecencyEffect(header: ProfileHeader, number: string -> Option<int>, date: string -> Option<int>)
      modifies header`lastSchool, header`lastCompany, header`recencyDeps
      ensures header.recencyDeps == Some(user)
      ensures old(header.recencyDeps) == Some(user) || user.None? ==>
              header.lastSchool == old(header.lastSchool) && header.lastCompany == old(header.lastCompany)
      ensures old(header.recencyDeps) != Some(user) && user.Some? ==>
              var es, xs := user.value.educations, user.value.experiences;
              ((forall j :: 0 <= j < |es| ==> YearScore(es[j], number) <= 0) ==> header.lastSchool == None) &&
              (forall k :: IsLatestEducation(es, k, number) ==> header.lastSchool == es[k].schoolName) &&
              ((forall j :: 0 <= j < |xs| ==> DateScore(xs[j], date) <= 0) ==> header.lastCompany == None) &&
              (forall k :: IsLatestExperience(xs, k, date) ==> header.lastCompany == xs[k].companyName)
    {
      header.RecencyEffect(user, number, date);
    }
  }

  // ---------------------------------------------------------------------------
  // The all-skills page and its add-skill overlay
  // ---------------------------------------------------------------------------

  class SkillPage {
    /** The props it was rendered with; there is no handler that removes a skill. */
    const skills: seq<Skill>
    var isOpen: bool

    /** The add-skill overlay starts closed. */
    constructor(skills: seq<Skill>)
      ensures this.skills == skills && !isOpen
    {
      this.skills := skills;
      isOpen := false;
    }

    /** The plus button: `setIsOpen(prev => !prev)`. */
    method TogglePlus()
      modifies this`isOpen
      ensures isOpen == !old(isOpen)
    {
      isOpen := !isOpen;
    }

    /** The overlay's `onClose`. */
    method Close()
      modifies this`isOpen
      ensures !isOpen
    {
      isOpen := false;
    }
  }
}
