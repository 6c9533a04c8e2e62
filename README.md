# Portfolio navigation, project filter and hero name — a Dafny model

A single-page portfolio site has three pieces of behaviour beyond static markup.
This project models them and proves properties of the models.

- **Navigation bar** (`navbar.dfy`, module `Navigation`). Three flags drive the rendering: `isOpen`, `scrolled` and `showScrollTop`.
  - The window's scroll listener sets `scrolled` when the vertical offset is above 10 and `showScrollTop` when it is above 500.
  - The menu button negates `isOpen`.
  - A section button looks the section's id up in the document. On a hit it smooth-scrolls the viewport there and closes the menu. On a miss it does nothing.
  - The name in the bar and the floating arrow button smooth-scroll the viewport to offset 0 and change no flag.
  - The handlers are pure step functions over a `Flags` value. They return a `Reaction`: the new flags and the viewport commands issued. `Run` and `Trace` replay a sequence of events.
  - The class `Navbar` holds the flags as fields, plus `issued`, the log of viewport commands. Each of its methods is proved equal to its step function.
- **Projects section** (`projects.dfy`, module `Projects`).
  - The active tab is one of `all`, `web` and `ai`, and starts as `all` (class `ProjectFilter`).
  - The visible cards are the whole list under `all`. Under the other tabs they are the order-preserving subsequence of the list whose category equals the tab's key.
  - Each card shows its first five technologies. When there are more, it adds a `+N` badge. The decimal text of `N` comes from `decimal.dfy` (module `Decimal`).
  - Tab labels are the key with its first letter upper-cased, followed by " Projects".
- **Hero heading** (`hero.dfy`, module `Hero`). The name is split into characters, one span each. A plain space is shown as U+00A0 NO-BREAK SPACE.
- **Labels** (`labels.dfy`, module `Labels`). The capitalisation `key.charAt(0).toUpperCase() + key.slice(1)`, shared by the two navigation menus and the filter tabs.

Functions and lemmas cannot call the class methods, so the lemmas are stated over the step functions. The methods' postconditions tie each method to its step function.

Choices the code makes that the model keeps:
- The handler compares `window.scrollY`, whatever its sign, with `> 10` and `> 500`, so the model takes any `int`.
- `scrollToSection` accepts any string and only asks the document, so the model takes any `string` and a `document: set<string>` of the ids present.
- `CatalogueByTab` proves what the section's own list gives: project 1 is `ai`, projects 2 and 3 are `web`.

## Model

| member | source | states |
|---|---|---|
| Navigation.OnScroll | src/components/Navbar.jsx:11-23 | after a scroll event `scrolled` is exactly `offset > 10` and `showScrollTop` exactly `offset > 500`, whatever the prior flags; `isOpen` is untouched; `showScrollTop` implies `scrolled` |
| Navigation.OnToggleMenu | src/components/Navbar.jsx:29-31 | the menu button negates `isOpen` and leaves both scroll flags as they were |
| Navigation.OnSectionClick | src/components/Navbar.jsx:33-39 | with the id in the document: exactly one smooth scroll to that section is issued, the menu ends closed whatever it was, the scroll flags are kept; with the id absent: no command and all three flags unchanged |
| Navigation.OnScrollTopClick | src/components/Navbar.jsx:41-43 | issues exactly one scroll to offset 0 and changes no flag |
| Navigation.Step | src/components/Navbar.jsx:10-43 | every handler keeps `showScrollTop ==> scrolled` and issues at most one viewport command |
| Navigation.OnScrollIdempotent | src/components/Navbar.jsx:11-23 | delivering the same offset twice gives the flags of delivering it once |
| Navigation.ToggleMenuInvolution | src/components/Navbar.jsx:29-31 | two menu clicks restore all three flags |
| Navigation.ScrollsForgetHistory | src/components/Navbar.jsx:11-23 | any non-empty run of scroll events leaves the scroll flags determined by the last offset alone, keeps `isOpen`, and issues no command |
| Navigation.RunKeepsConsistent | src/components/Navbar.jsx:12-22 | any run of events from a state where `showScrollTop ==> scrolled` ends in such a state |
| Navigation.ReachableConsistent | src/components/Navbar.jsx:6-22 | every state reachable from the initial all-false flags satisfies `showScrollTop ==> scrolled` |
| Navigation.CommandsTargetPresentSections | src/components/Navbar.jsx:33-43 | every viewport command of any run is a scroll to offset 0 or a scroll to a section present in the document |
| Navigation.SectionClickClosesMenu | src/components/Navbar.jsx:33-38 | after any history, a section click that finds its section leaves the menu closed |
| Navigation.Trace | src/components/Navbar.jsx:10-43 | the trace holds one flag state per event, and its last state is the one the whole run ends in |
| Navigation.RunAppend | src/components/Navbar.jsx:10-43 | handling two event sequences one after the other is handling their concatenation: the last flags come from the second, the commands are the first's followed by the second's |
| Navigation.ScrollScenario | src/components/Navbar.jsx:11-22 | offsets 0, 5, 15, 600, 3 give `scrolled` false, false, true, true, false and `showScrollTop` false, false, false, true, false, with the menu closed throughout |
| Navigation.SectionsShape | src/components/Navbar.jsx:83-85 | the six section ids are pairwise distinct (both menus key their buttons by them, lines 85 and 145) and each starts with a lower-case letter |
| Navigation.MenuLabels | src/components/Navbar.jsx:83-94 | the six menu buttons read About, Experience, Projects, Skills, Education, Contact, in that order (the mobile menu at lines 143-153 renders the same list the same way) |
| Navigation.Navbar.constructor | src/components/Navbar.jsx:6-8 | the bar starts with `isOpen`, `scrolled` and `showScrollTop` all false and no command issued |
| Navigation.Navbar.HandleScroll | src/components/Navbar.jsx:11-23 | the fields become `OnScroll` of their old values and no command is issued |
| Navigation.Navbar.ToggleMenu | src/components/Navbar.jsx:29-31 | the fields become `OnToggleMenu` of their old values and no command is issued |
| Navigation.Navbar.ScrollToSection | src/components/Navbar.jsx:33-39 | the fields become `OnSectionClick` of their old values and the command log grows by exactly that reaction's commands |
| Navigation.Navbar.ScrollToTop | src/components/Navbar.jsx:41-43 | the fields are unchanged and the log grows by one scroll to offset 0 |
| Labels.UpperAscii | src/components/Navbar.jsx:94 | maps a lower-case letter to its upper-case letter and leaves every other character alone; the result is never a lower-case letter |
| Labels.Capitalize | src/components/Project.jsx:114 | the label has the key's length, its first character is the key's first character upper-cased, every other character is the key's; the empty key gives the empty label |
| Labels.CapitalizeIdempotent | src/components/Navbar.jsx:94 | capitalising a label again changes nothing |
| Labels.CapitalizeInjective | src/components/Navbar.jsx:83-94 | two keys starting with a lower-case letter have the same label only when they are the same key |
| Labels.CapitalizeAll | src/components/Navbar.jsx:83-94 | the labels of a list of keys are, index by index and in the same order, the labels of the keys |
| Hero.Glyph | src/components/Hero.jsx:76 | a plain space is shown as U+00A0, every other character as itself; a span never shows a plain space |
| Hero.Glyphs | src/components/Hero.jsx:64-77 | the glyph sequence has the name's length; a plain space becomes U+00A0 at its index; every other character is kept at its index; no plain space is left |
| Hero.GlyphsConcat | src/components/Hero.jsx:64-77 | mapping a concatenation is concatenating the mappings |
| Hero.GlyphsIdempotent | src/components/Hero.jsx:76 | mapping the glyphs again changes nothing |
| Hero.HeroNameGlyphs | src/components/Hero.jsx:36-77 | the name "Bharat Kumar" renders as "Bharat", a non-breaking space, "Kumar" |
| Projects.SubsequenceReflexive | src/components/Project.jsx:43-44 | every list is an order-preserving subsequence of itself |
| Projects.SubsequenceLength | src/components/Project.jsx:45 | an order-preserving subsequence is no longer than the list it is taken from |
| Projects.WithCategory | src/components/Project.jsx:45 | the filtered list is an order-preserving subsequence of the input, no longer than it, holds only input projects of that category and every input project of that category |
| Projects.WithCategoryKeepsEveryCopy | src/components/Project.jsx:45 | every project of the category occurs in the filtered list exactly as often as in the input, and no other project occurs; with the subsequence property this fixes the result |
| Projects.Visible | src/components/Project.jsx:43-45 | under `all` the visible list is the input itself, element for element, the empty list included; under `web` or `ai` a project is visible iff it is in the input and its category is the tab's key, and each such project occurs as often as in the input; in every case an order-preserving subsequence |
| Projects.WithCategoryAppend | src/components/Project.jsx:45 | filtering a concatenation is concatenating the filtered parts |
| Projects.WithCategoryIdempotent | src/components/Project.jsx:45 | filtering an already filtered list by the same category changes nothing |
| Projects.VisibleIdempotent | src/components/Project.jsx:43-45 | filtering what a tab shows by the same tab changes nothing |
| Projects.WebAndAiSplitAll | src/components/Project.jsx:10-45 | when every project is `web` or `ai`, the `web` and `ai` tabs together show as many cards as `all` |
| Projects.CatalogueByTab | src/components/Project.jsx:10-45 | on the section's own list, `all` shows ids 1, 2, 3, `web` shows 2, 3 and `ai` shows 1 |
| Projects.CatalogueShape | src/components/Project.jsx:10-41 | the listed projects have pairwise distinct ids (the cards are keyed by id at line 132), each is `web` or `ai`, and the `web` and `ai` tabs together show every card |
| Projects.ShownTechnologies | src/components/Project.jsx:193 | the shown badges are the first `min(5, n)` technologies in order |
| Projects.OverflowCount | src/components/Project.jsx:201-203 | the overflow badge exists iff there are more than five technologies; its number is at least 1, and shown plus overflow equals the total |
| Projects.Badges | src/components/Project.jsx:193-205 | at most six badges; five or fewer technologies are shown as they are; otherwise the first five followed by one more badge |
| Projects.OverflowBadgeText | src/components/Project.jsx:201-203 | the overflow badge is "+" followed by decimal digits that read back as the number of technologies beyond five |
| Projects.CatalogueBadges | src/components/Project.jsx:16-36 | the three cards of the section's own list end in "+7", "+5" and "+1" |
| Projects.TabLabel | src/components/Project.jsx:114 | a tab's label is its key with the first letter upper-cased and the others kept, followed by " Projects" |
| Projects.TabLabels | src/components/Project.jsx:98-114 | the three tab buttons read "All Projects", "Web Projects" and "Ai Projects" |
| Projects.ProjectFilter.constructor | src/components/Project.jsx:8 | the active tab starts as `all` |
| Projects.ProjectFilter.SetActiveTab | src/components/Project.jsx:98-101 | the active tab becomes the clicked tab, one of the three |
| Projects.ProjectFilter.FilteredProjects | src/components/Project.jsx:43-45 | under `all` the rendered cards are the whole list; under another tab a card is rendered iff it is in the list with that category, each as often as in the list; always in list order |
| Decimal.DecimalString | src/components/Project.jsx:203 | the text of a count is at least one digit long and all digits; zero is exactly "0", and a longer text never starts with "0" |
| Decimal.DecimalRoundTrip | src/components/Project.jsx:203 | reading the text of a count back gives the count |
| Decimal.DecimalStringInjective | src/components/Project.jsx:203 | different counts get different texts |

## Left out

- Animation configuration is not modelled: motion variants, springs, delays, durations, stagger timings and hover scales. It is floating-point data consumed by an animation library.
- The random hover rotation of the hero letters is not modelled. It is nondeterministic floating-point arithmetic.
- Subscribing and unsubscribing the scroll listener (src/components/Navbar.jsx:25-26) is not modelled. The model takes each scroll event as a call with its offset, by order of arrival.
- The document lookup and the browser's scroll primitives are not modelled. The lookup is the `document` set of present ids. Each scroll command is appended to the `issued` log, and how the viewport animates it is not modelled.
- React rendering is not modelled: re-rendering, `AnimatePresence` mount and unmount, JSX markup, class strings, icons and external links. This includes the rule that the mobile menu shows while `isOpen` and the arrow button while `showScrollTop`.
- The model applies each state update immediately. React's batching of updates within one event is not modelled. Neither is `toggleMenu` reading the `isOpen` of the last render.
- Navigation.OnScroll: the offset is an integer, while `window.scrollY` can be fractional. The comparisons with 10 and 500 are the same on integers.
- Labels.UpperAscii: upper-cases the ASCII letters only. `toUpperCase` also maps other letters, sometimes to several characters. Every key the page capitalises is lower-case ASCII.
- Hero.Glyphs: works on Unicode scalar values. `split("")` splits into UTF-16 code units. The two agree on the hero name, which is ASCII.
- Projects.Project: keeps only id, title, technologies and category. Descriptions, images and links only feed the markup.
- src/App.jsx, src/components/Skills.jsx and src/components/AnimatedBackground.jsx are not part of this model. They compose and animate static content only.
