/** The projects section: a row of filter tabs over a fixed list of project
    cards, and on each card at most five technology badges followed by a
    "+N" badge for the ones left out. */
module Projects {
  import Labels
  import Decimal

  datatype Option<T> = None | Some(value: T)

  /** The filter tabs. The tab buttons are the only callers of the setter,
      so no other value can be active. */
  datatype Tab = All | Web | Ai

  /** The tab buttons, in display order. */
  const Tabs: seq<Tab> := [All, Web, Ai]

  /** The key a tab is stored and compared as. */
  function Key(tab: Tab): string {
    match tab
    case All => "all"
    case Web => "web"
    case Ai => "ai"
  }

  /** A project card. Descriptions, images and links only feed the markup. */
  datatype Project = Project(id: nat, title: string, technologies: seq<string>, category: string)

  /** The projects the section lists, in order. */
  const Catalogue: seq<Project> := [SocialMediaAnalysis, ChatApplication, NaturalMilk]

  const SocialMediaAnalysis: Project :=
    Project(1, "Social Media Analysis & AI Content Generator",
      ["MERN Stack", "NLP", "AI", "Web Crawlers", "MongoDB", "Express.js", "React.js", "Node.js",
       "OpenAI API", "Selenium", "TensorFlow", "Firebase"],
      "ai")

  const ChatApplication: Project :=
    Project(2, "Real-Time Chat Application",
      ["MERN Stack", "WebSockets", "Authentication", "MongoDB", "Express.js", "React.js", "Node.js",
       "JWT", "Socket.io", "Tailwind CSS"],
      "web")

  const NaturalMilk: Project :=
    Project(3, "Natural Milk Product",
      ["React.js", "Node.js", "MongoDB", "Express.js", "Tailwind CSS", "Authentication"],
      "web")

  /** `a` is `b` with some elements dropped and the rest in their order. */
  predicate IsSubsequence<T(==)>(a: seq<T>, b: seq<T>)
    decreases |b|
  {
    if a == [] then true
    else if b == [] then false
    else if a[0] == b[0] then IsSubsequence(a[1..], b[1..])
    else IsSubsequence(a, b[1..])
  }

  lemma {:induction false} SubsequenceReflexive<T>(s: seq<T>)
    ensures IsSubsequence(s, s)
    decreases |s|
  {
    if s != [] {
      SubsequenceReflexive(s[1..]);
    }
  }

  lemma {:induction false} SubsequenceLength<T>(a: seq<T>, b: seq<T>)
    requires IsSubsequence(a, b)
    ensures |a| <= |b|
    decreases |b|
  {
    if a != [] {
      if a[0] == b[0] {
        SubsequenceLength(a[1..], b[1..]);
      } else {
        SubsequenceLength(a, b[1..]);
      }
    }
  }

  /** The projects of one category, in their order. */
  function WithCategory(ps: seq<Project>, category: string): (r: seq<Project>)
    ensures IsSubsequence(r, ps)
    ensures |r| <= |ps|
    ensures forall p :: p in r ==> p in ps && p.category == category
    ensures forall p :: p in ps && p.category == category ==> p in r
  {
    if ps == [] then []
    else if ps[0].category == category then [ps[0]] + WithCategory(ps[1..], category)
    else WithCategory(ps[1..], category)
  }

  /** The filter keeps every copy of a matching project: each project of the
      category occurs in the result as often as in the input. With
      `IsSubsequence` this leaves only one possible result. */
  lemma {:induction false} WithCategoryKeepsEveryCopy(ps: seq<Project>, category: string)
    ensures forall q :: multiset(WithCategory(ps, category))[q]
                     == if q.category == category then multiset(ps)[q] else 0
    decreases |ps|
  {
    if ps != [] {
      WithCategoryKeepsEveryCopy(ps[1..], category);
      assert ps == [ps[0]] + ps[1..];
    }
  }

  /** The cards shown under a tab: every project under `All`, otherwise
      those whose category is the tab's key. */
  function Visible(ps: seq<Project>, tab: Tab): (r: seq<Project>)
    ensures tab == All ==> r == ps
    ensures IsSubsequence(r, ps) && |r| <= |ps|
    ensures tab != All ==> forall p :: p in r <==> p in ps && p.category == Key(tab)
    ensures tab != All ==> forall q :: multiset(r)[q] == if q.category == Key(tab) then multiset(ps)[q] else 0
  {
    if tab == All then SubsequenceReflexive(ps); ps
    else WithCategoryKeepsEveryCopy(ps, Key(tab)); WithCategory(ps, Key(tab))
  }

  /** Filtering works project by project, so it distributes over concatenation. */
  lemma {:induction false} WithCategoryAppend(a: seq<Project>, b: seq<Project>, category: string)
    ensures WithCategory(a + b, category) == WithCategory(a, category) + WithCategory(b, category)
    decreases |a|
  {
    if a == [] {
      assert a + b == b;
    } else {
      assert (a + b)[1..] == a[1..] + b;
      WithCategoryAppend(a[1..], b, category);
    }
  }

  /** Filtering what a tab shows by the same tab changes nothing. */
  lemma {:induction false} VisibleIdempotent(ps: seq<Project>, tab: Tab)
    ensures Visible(Visible(ps, tab), tab) == Visible(ps, tab)
  {
    if tab != All {
      WithCategoryIdempotent(ps, Key(tab));
    }
  }

  lemma {:induction false} WithCategoryIdempotent(ps: seq<Project>, category: string)
    ensures WithCategory(WithCategory(ps, category), category) == WithCategory(ps, category)
    decreases |ps|
  {
    if ps != [] {
      WithCategoryIdempotent(ps[1..], category);
      if ps[0].category == category {
        var r := WithCategory(ps, category);
        assert r[0] == ps[0] && r[1..] == WithCategory(ps[1..], category);
      }
    }
  }

  /** When every project is a web or an AI project, each card shows under
      exactly one of those two tabs. */
  lemma {:induction false} WebAndAiSplitAll(ps: seq<Project>)
    requires forall i :: 0 <= i < |ps| ==> ps[i].category == "web" || ps[i].category == "ai"
    ensures |Visible(ps, Web)| + |Visible(ps, Ai)| == |Visible(ps, All)|
    decreases |ps|
  {
    if ps != [] {
      WebAndAiSplitAll(ps[1..]);
    }
  }

  function Ids(ps: seq<Project>): (ids: seq<nat>)
    ensures |ids| == |ps|
    ensures forall i :: 0 <= i < |ps| ==> ids[i] == ps[i].id
  {
    if ps == [] then [] else [ps[0].id] + Ids(ps[1..])
  }

  /** Filtering a list of one AI project followed by two web projects. */
  lemma FilterAiWebWeb(a: Project, b: Project, c: Project)
    requires a.category == "ai" && b.category == "web" && c.category == "web"
    ensures WithCategory([a, b, c], "web") == [b, c]
    ensures WithCategory([a, b, c], "ai") == [a]
  {
    assert [a, b, c][1..] == [b, c] && [b, c][1..] == [c] && [c][1..] == [];
    assert WithCategory([c], "web") == [c] && WithCategory([c], "ai") == [];
    assert WithCategory([b, c], "web") == [b, c] && WithCategory([b, c], "ai") == [];
  }

  /** What each tab shows of the section's own list. */
  lemma CatalogueByTab()
    ensures Ids(Visible(Catalogue, All)) == [1, 2, 3]
    ensures Ids(Visible(Catalogue, Web)) == [2, 3]
    ensures Ids(Visible(Catalogue, Ai)) == [1]
  {
    var ai, chat, milk := SocialMediaAnalysis, ChatApplication, NaturalMilk;
    FilterAiWebWeb(ai, chat, milk);
    assert Ids([ai, chat, milk]) == [1, 2, 3];
    assert Ids([chat, milk]) == [2, 3];
    assert Ids([ai]) == [1];
  }

  /** The cards are keyed by id, so the ids are distinct; every card is a
      web or an AI project, so the two category tabs split the list. */
  lemma CatalogueShape()
    ensures forall i, j :: 0 <= i < j < |Catalogue| ==> Catalogue[i].id != Catalogue[j].id
    ensures forall i :: 0 <= i < |Catalogue| ==> Catalogue[i].category == Key(Web) || Catalogue[i].category == Key(Ai)
    ensures |Visible(Catalogue, Web)| + |Visible(Catalogue, Ai)| == |Catalogue|
  {
    FilterAiWebWeb(SocialMediaAnalysis, ChatApplication, NaturalMilk);
  }

  /** How many technology badges a card shows before the overflow badge. */
  const MaxShownBadges: nat := 5

  /** `technologies.slice(0, 5)`. */
  function ShownTechnologies(techs: seq<string>): (shown: seq<string>)
    ensures |shown| == if |techs| < MaxShownBadges then |techs| else MaxShownBadges
    ensures shown == techs[..|shown|]
  {
    if |techs| <= MaxShownBadges then techs else techs[..MaxShownBadges]
  }

  /** The number on the "+N" badge, present only when some technology is not shown. */
  function OverflowCount(techs: seq<string>): (n: Option<nat>)
    ensures n.Some? <==> |techs| > MaxShownBadges
    ensures n.Some? ==> n.value >= 1 && |ShownTechnologies(techs)| + n.value == |techs|
  {
    if |techs| > MaxShownBadges then Some(|techs| - MaxShownBadges) else None
  }

  /** The badges of one card, in display order. */
  function Badges(techs: seq<string>): (badges: seq<string>)
    ensures |badges| <= MaxShownBadges + 1
    ensures |techs| <= MaxShownBadges ==> badges == techs
    ensures |techs| > MaxShownBadges ==>
              |badges| == MaxShownBadges + 1 && badges[..MaxShownBadges] == techs[..MaxShownBadges]
  {
    ShownTechnologies(techs) +
    match OverflowCount(techs)
    case Some(n) => ["+" + Decimal.DecimalString(n)]
    case None => []
  }

  /** The overflow badge reads as "+" followed by the number of technologies
      left out. */
  lemma OverflowBadgeText(techs: seq<string>)
    requires |techs| > MaxShownBadges
    ensures var text := Badges(techs)[MaxShownBadges];
            |text| >= 2 && text[0] == '+' &&
            (forall i :: 1 <= i < |text| ==> Decimal.IsDigit(text[i])) &&
            Decimal.DecimalValue(text[1..]) + MaxShownBadges == |techs|
  {
    var n := |techs| - MaxShownBadges;
    var text := Badges(techs)[MaxShownBadges];
    assert text == "+" + Decimal.DecimalString(n);
    assert text[1..] == Decimal.DecimalString(n);
    Decimal.DecimalRoundTrip(n);
  }

  /** The cards of the section's own list end in "+7", "+5" and "+1". */
  lemma CatalogueBadges()
    ensures Badges(Catalogue[0].technologies)[MaxShownBadges] == "+7"
    ensures Badges(Catalogue[1].technologies)[MaxShownBadges] == "+5"
    ensures Badges(Catalogue[2].technologies)[MaxShownBadges] == "+1"
  {
  }

  /** `tab.charAt(0).toUpperCase() + tab.slice(1) + " Projects"`. */
  function TabLabel(tab: Tab): (text: string)
    ensures |text| == |Key(tab)| + |" Projects"|
    ensures text[0] == Labels.UpperAscii(Key(tab)[0])
    ensures forall i :: 1 <= i < |Key(tab)| ==> text[i] == Key(tab)[i]
    ensures text[|Key(tab)|..] == " Projects"
  {
    Labels.Capitalize(Key(tab)) + " Projects"
  }

  lemma TabLabels()
    ensures TabLabel(All) == "All Projects"
    ensures TabLabel(Web) == "Web Projects"
    ensures TabLabel(Ai) == "Ai Projects"
  {
    TabLabelAll();
    TabLabelWeb();
    TabLabelAi();
  }

  /** The label of each tab, one tab at a time. */
  lemma TabLabelAll()
    ensures TabLabel(All) == "All Projects"
  {
    assert Labels.Capitalize("all") == "All";
  }

  lemma TabLabelWeb()
    ensures TabLabel(Web) == "Web Projects"
  {
    assert Labels.Capitalize("web") == "Web";
  }

  lemma TabLabelAi()
    ensures TabLabel(Ai) == "Ai Projects"
  {
    assert Labels.Capitalize("ai") == "Ai";
  }

  /** The section component, holding the active tab. */
  class ProjectFilter {
    var activeTab: Tab

    constructor ()
      ensures activeTab == All
    {
      activeTab := All;
    }

    method SetActiveTab(tab: Tab)
      modifies this
      ensures activeTab == tab
    {
      activeTab := tab;
    }

    /** The cards the section renders now. */
    function FilteredProjects(): (r: seq<Project>)
      reads this
      ensures IsSubsequence(r, Catalogue)
      ensures activeTab == All ==> r == Catalogue
      ensures activeTab != All ==> forall p :: p in r <==> p in Catalogue && p.category == Key(activeTab)
      ensures activeTab != All ==>
                forall q :: multiset(r)[q] == if q.category == Key(activeTab) then multiset(Catalogue)[q] else 0
    {
      Visible(Catalogue, activeTab)
    }
  }
}
