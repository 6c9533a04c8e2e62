/** The navigation bar: three flags the page renders from (mobile menu open,
    bar scrolled, scroll-to-top button shown), updated by the window's scroll
    events and by clicks on the menu toggle, the section buttons and the
    scroll-to-top controls. Clicks on section and top controls also command
    the viewport to scroll. */
module Navigation {
  import Labels

  /** Past this vertical offset the bar switches to its scrolled style. */
  const ScrolledThreshold: int := 10

  /** Past this vertical offset the scroll-to-top button is shown. */
  const ScrollTopThreshold: int := 500

  /** The sections offered by both the desktop and the mobile menu, in
      display order; each is also the id of its anchor on the page. */
  const Sections: seq<string> := ["about", "experience", "projects", "skills", "education", "contact"]

  datatype Flags = Flags(isOpen: bool, scrolled: bool, showScrollTop: bool)

  /** A command to the browser viewport. Both kinds scroll smoothly; the
      viewport gives up an unfinished scroll when a new command arrives. */
  datatype Command =
    | ScrollIntoView(section: string)
    | ScrollTo(top: int)

  /** What one handler leaves behind: the new flags and the commands it
      issued, in the order it issued them. */
  datatype Reaction = Reaction(flags: Flags, commands: seq<Command>)

  /** The flags when the bar is first rendered. */
  const Initial: Flags := Flags(false, false, false)

  /** The larger threshold implies the smaller one. */
  predicate Consistent(f: Flags) {
    f.showScrollTop ==> f.scrolled
  }

  /** The scroll listener, given the window's vertical offset. */
  function OnScroll(f: Flags, scrollY: int): (r: Flags)
    ensures r.scrolled <==> scrollY > ScrolledThreshold
    ensures r.showScrollTop <==> scrollY > ScrollTopThreshold
    ensures r.isOpen == f.isOpen
    ensures Consistent(r)
  {
    var f' := if scrollY > ScrolledThreshold then f.(scrolled := true) else f.(scrolled := false);
    if scrollY > ScrollTopThreshold then f'.(showScrollTop := true) else f'.(showScrollTop := false)
  }

  /** The mobile menu button. */
  function OnToggleMenu(f: Flags): (r: Flags)
    ensures r.isOpen == !f.isOpen
    ensures r.scrolled == f.scrolled && r.showScrollTop == f.showScrollTop
  {
    f.(isOpen := !f.isOpen)
  }

  /** A section button: when `document` holds an element with that id, the
      viewport is sent there and then the menu is closed; otherwise nothing
      happens. */
  function OnSectionClick(f: Flags, document: set<string>, id: string): (r: Reaction)
    ensures id in document ==> r.commands == [ScrollIntoView(id)]
    ensures id in document ==> !r.flags.isOpen
    ensures id in document ==> r.flags.scrolled == f.scrolled && r.flags.showScrollTop == f.showScrollTop
    ensures id !in document ==> r.flags == f && r.commands == []
  {
    if id in document then Reaction(f.(isOpen := false), [ScrollIntoView(id)])
    else Reaction(f, [])
  }

  /** The name in the bar and the scroll-to-top button: the viewport is sent
      to offset 0 and no flag changes. */
  function OnScrollTopClick(f: Flags): (r: Reaction)
    ensures r.flags == f
    ensures r.commands == [ScrollTo(0)]
  {
    Reaction(f, [ScrollTo(0)])
  }

  /** Everything the bar reacts to. */
  datatype Event =
    | Scroll(scrollY: int)
    | MenuButton
    | SectionButton(id: string)
    | ScrollTopButton

  function Step(f: Flags, document: set<string>, e: Event): (r: Reaction)
    ensures Consistent(f) ==> Consistent(r.flags)
    ensures |r.commands| <= 1
  {
    match e
    case Scroll(y) => Reaction(OnScroll(f, y), [])
    case MenuButton => Reaction(OnToggleMenu(f), [])
    case SectionButton(id) => OnSectionClick(f, document, id)
    case ScrollTopButton => OnScrollTopClick(f)
  }

  /** A run of events from flags `f`: the last flags and every command issued. */
  function Run(f: Flags, document: set<string>, events: seq<Event>): Reaction
    decreases |events|
  {
    if events == [] then Reaction(f, [])
    else
      var first := Step(f, document, events[0]);
      var rest := Run(first.flags, document, events[1..]);
      Reaction(rest.flags, first.commands + rest.commands)
  }

  /** The flags after each event of a run. */
  function Trace(f: Flags, document: set<string>, events: seq<Event>): (t: seq<Flags>)
    ensures |t| == |events|
    ensures events != [] ==> t[|t| - 1] == Run(f, document, events).flags
    decreases |events|
  {
    if events == [] then []
    else
      var next := Step(f, document, events[0]).flags;
      [next] + Trace(next, document, events[1..])
  }

  /** The scroll events a sequence of offsets produces. */
  function Scrolls(offsets: seq<int>): (events: seq<Event>)
    ensures |events| == |offsets|
    ensures forall i :: 0 <= i < |offsets| ==> events[i] == Scroll(offsets[i])
  {
    if offsets == [] then [] else [Scroll(offsets[0])] + Scrolls(offsets[1..])
  }

  /** Applying the same offset twice leaves the flags as applying it once. */
  lemma OnScrollIdempotent(f: Flags, scrollY: int)
    ensures OnScroll(OnScroll(f, scrollY), scrollY) == OnScroll(f, scrollY)
  {
  }

  /** Two menu clicks restore the flags. */
  lemma ToggleMenuInvolution(f: Flags)
    ensures OnToggleMenu(OnToggleMenu(f)) == f
  {
  }

  /** Whatever happened before, a run of scroll events leaves the scroll
      flags as the last offset says, leaves the menu as it was and issues no
      command. */
  lemma {:induction false} ScrollsForgetHistory(f: Flags, document: set<string>, offsets: seq<int>)
    requires offsets != []
    ensures Run(f, document, Scrolls(offsets)).flags
         == Flags(f.isOpen, offsets[|offsets| - 1] > ScrolledThreshold, offsets[|offsets| - 1] > ScrollTopThreshold)
    ensures Run(f, document, Scrolls(offsets)).commands == []
    decreases |offsets|
  {
    var events := Scrolls(offsets);
    assert events[1..] == Scrolls(offsets[1..]);
    if |offsets| > 1 {
      ScrollsForgetHistory(OnScroll(f, offsets[0]), document, offsets[1..]);
    }
  }

  /** No event breaks `showScrollTop ==> scrolled` once it holds. */
  lemma {:induction false} RunKeepsConsistent(f: Flags, document: set<string>, events: seq<Event>)
    requires Consistent(f)
    ensures Consistent(Run(f, document, events).flags)
    decreases |events|
  {
    if events != [] {
      RunKeepsConsistent(Step(f, document, events[0]).flags, document, events[1..]);
    }
  }

  /** Every state the bar can reach from its initial flags is consistent. */
  lemma ReachableConsistent(document: set<string>, events: seq<Event>)
    ensures Consistent(Run(Initial, document, events).flags)
  {
    RunKeepsConsistent(Initial, document, events);
  }

  /** The viewport is only ever sent to the top or to a section the document holds. */
  lemma {:induction false} CommandsTargetPresentSections(f: Flags, document: set<string>, events: seq<Event>)
    ensures forall c :: c in Run(f, document, events).commands ==>
              c == ScrollTo(0) || (c.ScrollIntoView? && c.section in document)
    decreases |events|
  {
    if events != [] {
      var first := Step(f, document, events[0]);
      CommandsTargetPresentSections(first.flags, document, events[1..]);
    }
  }

  /** A section button that finds its section closes the menu, whatever came before. */
  lemma SectionClickClosesMenu(f: Flags, document: set<string>, events: seq<Event>, id: string)
    requires id in document
    ensures !Run(f, document, events + [SectionButton(id)]).flags.isOpen
  {
    RunAppend(f, document, events, [SectionButton(id)]);
  }

  /** Running two runs one after the other is running their concatenation. */
  lemma {:induction false} RunAppend(f: Flags, document: set<string>, a: seq<Event>, b: seq<Event>)
    ensures Run(f, document, a + b)
         == var first := Run(f, document, a);
            var second := Run(first.flags, document, b);
            Reaction(second.flags, first.commands + second.commands)
    decreases |a|
  {
    if a == [] {
      assert a + b == b;
    } else {
      assert (a + b)[1..] == a[1..] + b;
      var s := Step(f, document, a[0]);
      RunAppend(s.flags, document, a[1..], b);
    }
  }

  /** Scrolling to offsets 0, 5, 15, 600 and 3 from the initial flags. */
  lemma ScrollScenario()
    ensures Trace(Initial, {}, Scrolls([0, 5, 15, 600, 3]))
         == [Flags(false, false, false), Flags(false, false, false), Flags(false, true, false),
             Flags(false, true, true), Flags(false, false, false)]
  {
  }

  /** Both menus key their buttons by section id, so the ids are distinct;
      each starts with a lower-case letter, so by `CapitalizeInjective` their
      labels are distinct too. */
  lemma SectionsShape()
    ensures forall i, j :: 0 <= i < j < |Sections| ==> Sections[i] != Sections[j]
    ensures forall i :: 0 <= i < |Sections| ==> Sections[i] != [] && Labels.IsLowerAscii(Sections[i][0])
  {
  }

  /** The button labels of both menus. */
  lemma MenuLabels()
    ensures Labels.CapitalizeAll(Sections)
         == ["About", "Experience", "Projects", "Skills", "Education", "Contact"]
  {
    assert Labels.Capitalize("about") == "About";
    assert Labels.Capitalize("experience") == "Experience";
    assert Labels.Capitalize("projects") == "Projects";
    assert Labels.Capitalize("skills") == "Skills";
    assert Labels.Capitalize("education") == "Education";
    assert Labels.Capitalize("contact") == "Contact";
  }

  /** The navigation bar component, its flags held as fields. `issued`
      records the viewport commands in the order they were issued; the
      viewport acts on the last one. */
  class Navbar {
    var isOpen: bool
    var scrolled: bool
    var showScrollTop: bool
    var issued: seq<Command>

    function State(): Flags
      reads this
    {
      Flags(isOpen, scrolled, showScrollTop)
    }

    constructor ()
      ensures State() == Initial
      ensures issued == []
    {
      isOpen, scrolled, showScrollTop := false, false, false;
      issued := [];
    }

    method HandleScroll(scrollY: int)
      modifies this
      ensures State() == OnScroll(old(State()), scrollY)
      ensures issued == old(issued)
    {
      if scrollY > ScrolledThreshold {
        scrolled := true;
      } else {
        scrolled := false;
      }
      if scrollY > ScrollTopThreshold {
        showScrollTop := true;
      } else {
        showScrollTop := false;
      }
    }

    method ToggleMenu()
      modifies this
      ensures State() == OnToggleMenu(old(State()))
      ensures issued == old(issued)
    {
      isOpen := !isOpen;
    }

    method ScrollToSection(document: set<string>, sectionId: string)
      modifies this
      ensures State() == OnSectionClick(old(State()), document, sectionId).flags
      ensures issued == old(issued) + OnSectionClick(old(State()), document, sectionId).commands
    {
      if sectionId in document {
        issued := issued + [ScrollIntoView(sectionId)];
        isOpen := false;
      }
    }

    method ScrollToTop()
      modifies this
      ensures State() == old(State())
      ensures issued == old(issued) + [ScrollTo(0)]
    {
      issued := issued + [ScrollTo(0)];
    }
  }
}
