/** The portfolio page's controller: the values derived from one fetched page
    (the projects shown, the filtered gallery, the project in the detail view)
    and the cursor-history stack that lets a forward-only paginated feed be
    browsed backwards. */
module Portfolio {
  import opened Wrappers

  /** The four project categories the store accepts. */
  datatype Category = Video | Branding | Design | Social
  {
    function Id(): string
    {
      match this
      case Video => "video"
      case Branding => "branding"
      case Design => "design"
      case Social => "social"
    }
  }

  /** The filter buttons: "all" or one category. */
  datatype Filter = All | Only(category: Category)
  {
    /** The button id stored as the active filter. */
    function Id(): string
    {
      match this
      case All => "all"
      case Only(c) => c.Id()
    }

    predicate Shows(p: Project)
    {
      match this
      case All => true
      case Only(c) => p.category == c
    }
  }

  /** The five buttons, in the order they are shown. */
  const FilterButtons: seq<Filter> := [All, Only(Video), Only(Branding), Only(Design), Only(Social)]

  /** The page stores the filter as its button id and compares it with "all"
      and with each project's category id; those string tests decide exactly
      what Shows decides; every filter has its own button with its own id. */
  lemma FilterIdComparisons(f: Filter, p: Project)
    ensures f == All <==> f.Id() == "all"
    ensures f.Shows(p) <==> f.Id() == "all" || p.category.Id() == f.Id()
    ensures forall g: Filter :: g.Id() == f.Id() ==> g == f
    ensures f in FilterButtons
  {
  }

  /** An opaque store cursor; `null` is the start of the feed. */
  type Cursor = Option<string>

  datatype Project = Project(
    id: string,
    title: string,
    category: Category,
    imageUrl: string,
    description: string,
    fullDescription: string,
    videoUrl: Option<string>)

  /** The query result: not yet delivered, or one page with its continuation. */
  datatype FetchResult =
    | Loading
    | Loaded(page: seq<Project>, isDone: bool, continueCursor: string)

  /** The number of items asked for per page. */
  const PageSize := 9

  /** `paginationResult?.page || []` */
  function Items(r: FetchResult): seq<Project>
  {
    if r.Loaded? then r.page else []
  }

  /** `paginationResult?.isDone ?? true` */
  function IsDone(r: FetchResult): bool
  {
    if r.Loaded? then r.isDone else true
  }

  /** `paginationResult?.continueCursor ?? null` */
  function ContinueCursor(r: FetchResult): Cursor
  {
    if r.Loaded? then Some(r.continueCursor) else None
  }

  /** A cursor JavaScript treats as true: present and not the empty string. */
  predicate IsTruthy(c: Cursor)
  {
    c.Some? && c.value != ""
  }

  /** The guard of the Next handler: more pages exist and the cursor to them
      is truthy. */
  predicate CanAdvance(r: FetchResult)
  {
    !IsDone(r) && IsTruthy(ContinueCursor(r))
  }

  /** While no result has arrived, the defaults leave nothing to show and
      nowhere to go. */
  lemma LoadingDefaults()
    ensures Items(Loading) == [] && IsDone(Loading) && ContinueCursor(Loading) == None
    ensures !CanAdvance(Loading)
  {
  }

  /** Next can only advance from a delivered page that is not the last. */
  lemma CanAdvanceMeansMorePages(r: FetchResult)
    ensures CanAdvance(r) <==> r.Loaded? && !r.isDone && r.continueCursor != ""
  {
  }

  function Sample(id: string, title: string, category: Category, imageUrl: string,
                  description: string, fullDescription: string): Project
  {
    Project(id, title, category, imageUrl, description, fullDescription, None)
  }

  /** The nine sample projects shown when the fetched page is empty. */
  const SampleProjects: seq<Project> := [
    BrandCampaign,
    SocialMediaSeries,
    ProductLaunchVideo,
    CorporateBranding,
    EventCoverage,
    DigitalCampaign,
    MusicVideo,
    BrandGuidelines,
    SocialContentPack
  ]

  const BrandCampaign := Sample("1", "Brand Campaign 2024", Branding,
    "https://images.unsplash.com/photo-1492691527719-9d1e07e534b4?w=800&q=80",
    "Complete brand identity redesign",
    "A comprehensive brand identity redesign that transformed the client's visual presence across all platforms. Included logo design, color palette development, and brand guidelines.")

  const SocialMediaSeries := Sample("2", "Social Media Series", Social,
    "https://images.unsplash.com/photo-1611162617474-5b21e879e113?w=800&q=80",
    "Engaging content for Instagram",
    "A series of 30 engaging Instagram posts designed to boost engagement and follower growth. Each post was carefully crafted to align with the brand's voice and aesthetic.")

  const ProductLaunchVideo := Sample("3", "Product Launch Video", Video,
    "https://images.unsplash.com/photo-1626785774573-4b799315345d?w=800&q=80",
    "Cinematic product showcase",
    "A cinematic 60-second product launch video featuring professional cinematography, color grading, and motion graphics to create maximum impact.")

  const CorporateBranding := Sample("4", "Corporate Branding", Branding,
    "https://images.unsplash.com/photo-1558655146-d09347e92766?w=800&q=80",
    "Professional identity system",
    "Complete corporate identity system including business cards, letterheads, and digital assets for a Fortune 500 company.")

  const EventCoverage := Sample("5", "Event Coverage", Video,
    "https://images.unsplash.com/photo-1492684223066-81342ee5ff30?w=800&q=80",
    "Full event documentation",
    "Professional event coverage including highlight reels, testimonial videos, and behind-the-scenes content.")

  const DigitalCampaign := Sample("6", "Digital Campaign", Design,
    "https://images.unsplash.com/photo-1561070791-2526d30994b5?w=800&q=80",
    "Multi-platform design assets",
    "Comprehensive digital campaign with assets for web, social media, email, and display advertising.")

  const MusicVideo := Sample("7", "Music Video", Video,
    "https://images.unsplash.com/photo-1511379938547-c1f69419868d?w=800&q=80",
    "Creative storytelling",
    "A visually stunning music video that tells a compelling story through creative cinematography and editing.")

  const BrandGuidelines := Sample("8", "Brand Guidelines", Branding,
    "https://images.unsplash.com/photo-1542744173-8e7e53415bb0?w=800&q=80",
    "Comprehensive brand book",
    "A detailed 50-page brand guidelines document covering typography, color usage, imagery, and tone of voice.")

  const SocialContentPack := Sample("9", "Social Content Pack", Social,
    "https://images.unsplash.com/photo-1611162616305-c69b3fa7fbe0?w=800&q=80",
    "Monthly content creation",
    "A complete monthly content package with 20+ posts, stories, and reels designed for consistent engagement.")

  /** The projects of the page: the fetched items, or the samples when there
      are none. */
  function Projects(r: FetchResult): seq<Project>
  {
    if |Items(r)| > 0 then Items(r) else SampleProjects
  }

  /** The samples fill exactly one page, with distinct ids. */
  lemma SampleProjectsFillOnePage()
    ensures |SampleProjects| == PageSize
    ensures DistinctIds(SampleProjects)
  {
  }

  /** There is always something to show: the page itself, or the samples
      while it is loading or empty. */
  lemma ProjectsNeverEmpty(r: FetchResult)
    ensures |Projects(r)| > 0
    ensures Items(r) != [] ==> Projects(r) == Items(r)
    ensures Items(r) == [] ==> Projects(r) == SampleProjects
    ensures Projects(Loading) == SampleProjects
  {
    SampleProjectsFillOnePage();
  }

  /** The projects of category c, in their original order. */
  function Matching(ps: seq<Project>, c: Category): seq<Project>
  {
    if ps == [] then []
    else if ps[0].category == c then [ps[0]] + Matching(ps[1..], c)
    else Matching(ps[1..], c)
  }

  /** The gallery: every project under "all", else those of the chosen category. */
  function FilteredProjects(ps: seq<Project>, f: Filter): seq<Project>
  {
    match f
    case All => ps
    case Only(c) => Matching(ps, c)
  }

  /** a can be obtained from b by deleting elements. */
  predicate IsSubsequence(a: seq<Project>, b: seq<Project>)
    decreases |b|
  {
    if a == [] then true
    else if b == [] then false
    else if a[0] == b[0] then IsSubsequence(a[1..], b[1..])
    else IsSubsequence(a, b[1..])
  }

  lemma {:induction false} MatchingSpec(ps: seq<Project>, c: Category)
    ensures forall p | p in Matching(ps, c) :: p.category == c
    ensures IsSubsequence(Matching(ps, c), ps)
    ensures forall p :: multiset(Matching(ps, c))[p] == if p.category == c then multiset(ps)[p] else 0
  {
    if ps != [] {
      MatchingSpec(ps[1..], c);
      assert ps == [ps[0]] + ps[1..];
      var m := Matching(ps[1..], c);
      if ps[0].category != c && m != [] {
        assert m[0] in m;
      }
    }
  }

  /** The gallery keeps the page's order and holds exactly the projects the
      filter shows, each as often as on the page. */
  lemma FilteredProjectsSpec(ps: seq<Project>, f: Filter)
    ensures IsSubsequence(FilteredProjects(ps, f), ps)
    ensures forall p :: multiset(FilteredProjects(ps, f))[p] == if f.Shows(p) then multiset(ps)[p] else 0
    ensures f == All ==> FilteredProjects(ps, f) == ps
  {
    match f
    case All =>
      IsSubsequenceRefl(ps);
    case Only(c) =>
      MatchingSpec(ps, c);
  }

  lemma {:induction false} IsSubsequenceRefl(ps: seq<Project>)
    ensures IsSubsequence(ps, ps)
  {
    if ps != [] {
      IsSubsequenceRefl(ps[1..]);
    }
  }

  /** The first project with the given id. */
  function FirstWithId(ps: seq<Project>, id: string): Option<Project>
  {
    if ps == [] then None
    else if ps[0].id == id then Some(ps[0])
    else FirstWithId(ps[1..], id)
  }

  lemma {:induction false} FirstWithIdSpec(ps: seq<Project>, id: string)
    ensures FirstWithId(ps, id).None? <==> forall p | p in ps :: p.id != id
    ensures FirstWithId(ps, id).Some? ==>
      exists i | 0 <= i < |ps| :: ps[i] == FirstWithId(ps, id).value && ps[i].id == id
        && forall j | 0 <= j < i :: ps[j].id != id
  {
    if ps != [] && ps[0].id != id {
      FirstWithIdSpec(ps[1..], id);
      assert ps == [ps[0]] + ps[1..];
      if FirstWithId(ps, id).Some? {
        var i :| 0 <= i < |ps[1..]| && ps[1..][i] == FirstWithId(ps, id).value && ps[1..][i].id == id
          && forall j | 0 <= j < i :: ps[1..][j].id != id;
        assert ps[i + 1] == ps[1..][i];
        forall j | 0 <= j < i + 1
          ensures ps[j].id != id
        {
          if j > 0 {
            assert ps[j] == ps[1..][j - 1];
          }
        }
      }
    } else if ps != [] {
      assert ps[0] == FirstWithId(ps, id).value;
    }
  }

  /** The project of the detail view: looked up among all projects of the
      page, not only the filtered ones; none without a selection. */
  function SelectedProjectData(ps: seq<Project>, selected: Option<string>): Option<Project>
  {
    match selected
    case None => None
    case Some(id) => FirstWithId(ps, id)
  }

  predicate DistinctIds(ps: seq<Project>)
  {
    forall i, j | 0 <= i < j < |ps| :: ps[i].id != ps[j].id
  }

  /** Clicking a project of the gallery opens a detail view for it: one with
      its id, and that very project when ids are distinct. */
  lemma SelectingShownProjectOpensIt(ps: seq<Project>, f: Filter, p: Project)
    requires p in FilteredProjects(ps, f)
    ensures SelectedProjectData(ps, Some(p.id)).Some?
    ensures SelectedProjectData(ps, Some(p.id)).value.id == p.id
    ensures DistinctIds(ps) ==> SelectedProjectData(ps, Some(p.id)) == Some(p)
  {
    FilteredProjectsSpec(ps, f);
    assert multiset(FilteredProjects(ps, f))[p] > 0;
    assert p in ps;
    FirstWithIdSpec(ps, p.id);
    var i :| 0 <= i < |ps| && ps[i] == FirstWithId(ps, p.id).value && ps[i].id == p.id
      && forall j | 0 <= j < i :: ps[j].id != p.id;
    if DistinctIds(ps) {
      var k :| 0 <= k < |ps| && ps[k] == p;
      assert k == i;
    }
  }

  /** Nothing is shown in detail without a selection. */
  lemma NoSelectionNoDetail(ps: seq<Project>)
    ensures SelectedProjectData(ps, None) == None
  {
  }

  /** The controller's state. */
  datatype ViewState = ViewState(
    filter: Filter,
    selected: Option<string>,
    cursor: Cursor,
    history: seq<Cursor>)

  /** The history is a stack of visited pages: it starts at the null cursor,
      each later entry is a truthy cursor, and the current cursor is its top. */
  predicate StateValid(s: ViewState)
  {
    |s.history| > 0 && s.history[0] == None && s.cursor == s.history[|s.history| - 1]
    && forall i | 1 <= i < |s.history| :: IsTruthy(s.history[i])
  }

  const InitialState := ViewState(All, None, None, [None])

  lemma InitialStateValid()
    ensures StateValid(InitialState)
  {
  }

  /** handleNextPage: when the page allows it, push its continuation cursor
      and move to it; otherwise nothing changes. */
  function NextPage(s: ViewState, r: FetchResult): ViewState
  {
    if CanAdvance(r) then s.(cursor := ContinueCursor(r), history := s.history + [ContinueCursor(r)])
    else s
  }

  /** handlePrevPage: pop the top cursor and move to the one below it, unless
      the history has one entry. */
  function PrevPage(s: ViewState): ViewState
  {
    if |s.history| > 1 then
      var h := s.history[..|s.history| - 1];
      s.(cursor := h[|h| - 1], history := h)
    else s
  }

  /** A filter button: choose it and go back to the first page. */
  function ChooseFilter(s: ViewState, f: Filter): ViewState
  {
    s.(filter := f, cursor := None, history := [None])
  }

  /** Clicking a project card. */
  function OpenDetail(s: ViewState, id: string): ViewState
  {
    s.(selected := Some(id))
  }

  /** The backdrop, the close button and "Start Similar Project". */
  function CloseDetail(s: ViewState): ViewState
  {
    s.(selected := None)
  }

  /** The page label. */
  function PageNumber(s: ViewState): nat
  {
    |s.history|
  }

  predicate PrevDisabled(s: ViewState)
  {
    |s.history| <= 1
  }

  predicate NextDisabled(r: FetchResult)
  {
    IsDone(r)
  }

  lemma NextPagePreservesValid(s: ViewState, r: FetchResult)
    requires StateValid(s)
    ensures StateValid(NextPage(s, r))
  {
  }

  lemma PrevPagePreservesValid(s: ViewState)
    requires StateValid(s)
    ensures StateValid(PrevPage(s))
  {
  }

  /** Choosing a filter always lands on a valid first page, whatever the
      state before, and choosing it again changes nothing. */
  lemma ChooseFilterResets(s: ViewState, f: Filter)
    ensures StateValid(ChooseFilter(s, f))
    ensures ChooseFilter(s, f).history == [None] && ChooseFilter(s, f).cursor == None
    ensures ChooseFilter(s, f).filter == f && PageNumber(ChooseFilter(s, f)) == 1
    ensures ChooseFilter(ChooseFilter(s, f), f) == ChooseFilter(s, f)
  {
  }

  /** Opening and closing the detail view leave the pages alone; once
      closed, no project is shown in detail. */
  lemma DetailKeepsPages(s: ViewState, id: string, ps: seq<Project>)
    requires StateValid(s)
    ensures StateValid(OpenDetail(s, id)) && StateValid(CloseDetail(s))
    ensures OpenDetail(s, id).history == s.history && CloseDetail(s).history == s.history
    ensures SelectedProjectData(ps, CloseDetail(s).selected) == None
  {
  }

  /** An enabled Next moves one page forward; a disabled one, or one while
      the result is loading, does nothing. */
  lemma NextPageMoves(s: ViewState, r: FetchResult)
    ensures CanAdvance(r) ==>
      && PageNumber(NextPage(s, r)) == PageNumber(s) + 1
      && NextPage(s, r).history == s.history + [ContinueCursor(r)]
      && NextPage(s, r).history[..|s.history|] == s.history
      && NextPage(s, r).cursor == Some(r.continueCursor)
    ensures !CanAdvance(r) ==> NextPage(s, r) == s
    ensures NextDisabled(r) ==> NextPage(s, r) == s
    ensures NextPage(s, Loading) == s
    ensures NextPage(s, r).filter == s.filter && NextPage(s, r).selected == s.selected
  {
  }

  /** Previous is disabled exactly on the first page, which is the page of the
      null cursor; there the handler does nothing. */
  lemma FirstPageIsNullCursor(s: ViewState)
    requires StateValid(s)
    ensures PrevDisabled(s) <==> s.cursor == None
    ensures PrevDisabled(s) ==> PrevPage(s) == s
  {
    if |s.history| > 1 {
      assert IsTruthy(s.history[|s.history| - 1]);
    }
  }

  /** Previous right after an enabled Next returns to the exact earlier state:
      the history is a stack. */
  lemma PrevUndoesNext(s: ViewState, r: FetchResult)
    requires StateValid(s) && CanAdvance(r)
    ensures PrevPage(NextPage(s, r)) == s
  {
    var t := NextPage(s, r);
    assert t.history[..|t.history| - 1] == s.history;
  }

  /** A run of Next clicks against successive results. */
  function NextPages(s: ViewState, rs: seq<FetchResult>): ViewState
    decreases |rs|
  {
    if rs == [] then s else NextPages(NextPage(s, rs[0]), rs[1..])
  }

  /** How many of the results let Next advance. */
  function AdvancingCount(rs: seq<FetchResult>): nat
  {
    if rs == [] then 0 else (if CanAdvance(rs[0]) then 1 else 0) + AdvancingCount(rs[1..])
  }

  /** After a run of Next clicks the page number has grown by the number of
      clicks that advanced, the old history is kept below the new entries, and
      the state is still valid. */
  lemma {:induction false} NextPagesCount(s: ViewState, rs: seq<FetchResult>)
    requires StateValid(s)
    ensures StateValid(NextPages(s, rs))
    ensures PageNumber(NextPages(s, rs)) == PageNumber(s) + AdvancingCount(rs)
    ensures NextPages(s, rs).history[..|s.history|] == s.history
    decreases |rs|
  {
    if rs != [] {
      var t := NextPage(s, rs[0]);
      NextPagePreservesValid(s, rs[0]);
      NextPagesCount(t, rs[1..]);
      var u := NextPages(t, rs[1..]);
      assert t.history[..|s.history|] == s.history;
      assert u.history[..|s.history|] == u.history[..|t.history|][..|s.history|];
    }
  }

  /** The portfolio page's state, updated in place by its handlers. */
  class PortfolioView {
    var filter: Filter
    var selectedProject: Option<string>
    var cursor: Cursor
    var pageHistory: seq<Cursor>

    function State(): ViewState
      reads this
    {
      ViewState(filter, selectedProject, cursor, pageHistory)
    }

    ghost predicate Valid()
      reads this
    {
      StateValid(State())
    }

    constructor ()
      ensures Valid()
      ensures State() == InitialState
    {
      filter := All;
      selectedProject := None;
      cursor := None;
      pageHistory := [None];
    }

    method HandleNextPage(r: FetchResult)
      requires Valid()
      modifies this`cursor, this`pageHistory
      ensures Valid()
      ensures State() == NextPage(old(State()), r)
    {
      var continueCursor := ContinueCursor(r);
      if !IsDone(r) && continueCursor.Some? && continueCursor.value != "" {
        pageHistory := pageHistory + [continueCursor];
        cursor := continueCursor;
      }
    }

    method HandlePrevPage()
      requires Valid()
      modifies this`cursor, this`pageHistory
      ensures Valid()
      ensures State() == PrevPage(old(State()))
    {
      if |pageHistory| > 1 {
        var newHistory := pageHistory[..|pageHistory| - 1];
        pageHistory := newHistory;
        cursor := newHistory[|newHistory| - 1];
      }
    }

    method HandleFilterClick(f: Filter)
      modifies this`filter, this`cursor, this`pageHistory
      ensures Valid()
      ensures State() == ChooseFilter(old(State()), f)
    {
      filter := f;
      cursor := None;
      pageHistory := [None];
    }

    method HandleOpenDetail(id: string)
      requires Valid()
      modifies this`selectedProject
      ensures Valid()
      ensures State() == OpenDetail(old(State()), id)
    {
      selectedProject := Some(id);
    }

    method HandleCloseDetail()
      requires Valid()
      modifies this`selectedProject
      ensures Valid()
      ensures State() == CloseDetail(old(State()))
    {
      selectedProject := None;
    }
  }

  /** Next followed by Previous on the page itself puts every field back:
      the current cursor is the page's original one again. */
  method NextThenPrev(v: PortfolioView, r: FetchResult)
    requires v.Valid() && CanAdvance(r)
    modifies v
    ensures v.Valid()
    ensures v.State() == old(v.State())
  {
    v.HandleNextPage(r);
    v.HandlePrevPage();
    PrevUndoesNext(old(v.State()), r);
  }
}
