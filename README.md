# ASTC website: page logic in Dafny

This project models the behaviour in the pages and components of the ASTC (aerospace club) website. The site is a single-page React application. The following parts are modelled:

- **News carousel** (`NewsCarousel`). It shows one news slide at a time and has:
  - next and previous arrows that wrap around at either end;
  - indicator dots that jump to a slide;
  - a horizontal drag gesture with a ±50 threshold;
  - an autoplay timer that is paused while a drag is in progress.

  The transitions are pure functions on a `CarouselState` value. The class `Carousel` holds the component's three state cells, and each of its handlers is proved to perform exactly the matching transition while keeping `current` on a slide.
- **Events page** (`EventsPage`). It has:
  - the all/upcoming/past filter over the events table;
  - the "No events to display." branch;
  - the event-suggestion form. Its submit handler checks that the form is mounted, then that the three e-mail credentials are non-empty. It disables the button, calls the e-mail service, reports success (clearing the inputs) or failure (keeping them), and finally re-enables the button. The class `SuggestionForm` holds the handler's state. The outcome of the service call is unknown to the model: `SendForm` may return either value.
- **Projects page** (`ProjectsPage`). It has the category buttons, which are "All" followed by each distinct category in order of first use, and the filtered project grid.
- **Home page** (`HomePage`). It previews the first three upcoming events.
- **Header** (`Navbar`). It has the six-entry link table and the mobile menu's open/closed flag (class `Header`).
- **Footer** (`Footer`). The quick links derive their targets from their labels with `"/" + label.toLowerCase().replace(" ", "")`. For "Join Us" this gives `/joinus`. That is not the header's `/join`, and not a route that `src/App.tsx` declares (`Routes`). The model keeps this as written and proves the mismatch; see Findings.

`Seqs` holds the list operations the pages use:
- `filter`;
- `Array.from(new Set(xs))`, as `Dedup`, which keeps distinct values in first-occurrence order;
- the subsequence relation, together with the facts the pages rely on.

`Data` holds the tables the site ships with (`src/data/`). `Fixtures` proves what the pages show for those tables.

Three behaviours of the code a reader may not expect; the model keeps them as written:
- `goToSlide` on the slide already shown animates leftwards, because the test is `index > current`.
- With an empty news list, the autoplay effect is still installed, because the early `return null` comes after it.
- The footer link for "Join Us" is `/joinus`, not `/join`.

## Model

| member | source | states |
|---|---|---|
| NewsCarousel.Next | src/components/NewsCarousel.tsx:19-22 | nextSlide moves from slide i to (i+1) mod n, so the last slide wraps to the first; direction becomes "right"; dragging is unchanged |
| NewsCarousel.Prev | src/components/NewsCarousel.tsx:24-27 | prevSlide moves to (i-1+n) mod n, so the first slide goes to the last; direction becomes "left" |
| NewsCarousel.GoTo | src/components/NewsCarousel.tsx:29-32 | goToSlide sets the index; direction is "right" exactly when the target index is higher, so re-selecting the current slide gives "left" |
| NewsCarousel.DragStart | src/components/NewsCarousel.tsx:93 | onDragStart sets only the dragging flag |
| NewsCarousel.DragEnd | src/components/NewsCarousel.tsx:34-46 | an offset over 50 is prevSlide, under -50 is nextSlide, anything else keeps slide and direction; dragging is false afterwards; the range invariant is kept |
| NewsCarousel.Tick | src/components/NewsCarousel.tsx:48-56 | an autoplay firing is nextSlide when not dragging and changes nothing while dragging |
| NewsCarousel.Advance | src/components/NewsCarousel.tsx:19-22 | k nextSlide calls keep the range and the dragging flag and leave the direction "right" |
| NewsCarousel.NextPrevRoundTrip | src/components/NewsCarousel.tsx:19-27 | prevSlide undoes nextSlide and nextSlide undoes prevSlide |
| NewsCarousel.AdvanceIsRotation | src/components/NewsCarousel.tsx:19-22 | k nextSlide calls move the index k places round the ring: (i+k) mod n |
| NewsCarousel.AdvanceFullCycle | src/components/NewsCarousel.tsx:19-22 | n nextSlide calls return to the starting slide |
| NewsCarousel.Ticks | src/components/NewsCarousel.tsx:48-56 | k timer firings keep the dragging flag and keep current on a slide |
| NewsCarousel.TicksWhileDragging | src/components/NewsCarousel.tsx:48-56 | while a drag is in progress, any number of timer firings leaves the state unchanged |
| NewsCarousel.TicksWhileIdle | src/components/NewsCarousel.tsx:48-56 | outside a drag, k timer firings are k nextSlide calls |
| NewsCarousel.ShortDragKeepsSlide | src/components/NewsCarousel.tsx:34-56 | a drag that ends within the threshold leaves the slide and direction as they were before it started, whatever the timer did meanwhile |
| NewsCarousel.EmptyCarouselLeavesRange | src/components/NewsCarousel.tsx:48-58 | with no slides the timer still fires and moves current to 1, so the range invariant needs at least one slide |
| NewsCarousel.Carousel.constructor | src/components/NewsCarousel.tsx:11-17 | the component starts on slide 0, direction "right", not dragging |
| NewsCarousel.Carousel.NextSlide | src/components/NewsCarousel.tsx:19-22 | the handler performs Next and keeps current on a slide |
| NewsCarousel.Carousel.PrevSlide | src/components/NewsCarousel.tsx:24-27 | the handler performs Prev and keeps current on a slide |
| NewsCarousel.Carousel.GoToSlide | src/components/NewsCarousel.tsx:155-158 | an indicator dot performs GoTo with an index of the news list |
| NewsCarousel.Carousel.HandleDragStart | src/components/NewsCarousel.tsx:93 | the handler performs DragStart |
| NewsCarousel.Carousel.HandleDragEnd | src/components/NewsCarousel.tsx:34-46 | the handler performs DragEnd and keeps current on a slide |
| NewsCarousel.Carousel.AutoplayTick | src/components/NewsCarousel.tsx:48-56 | the interval callback performs Tick |
| NewsCarousel.Carousel.Render | src/components/NewsCarousel.tsx:58-119 | nothing is rendered exactly when the list is empty; otherwise the slide shown is news[current] |
| Seqs.Filter | src/pages/Events.tsx:16-21 | `filter` keeps exactly the elements satisfying the predicate, in order, as a subsequence |
| Seqs.FilterMultiset | src/pages/Events.tsx:16-21 | each kept element keeps its multiplicity and each dropped one has none |
| Seqs.FilterPartition | src/pages/Events.tsx:18-19 | filtering by a predicate and by its negation splits the list |
| Seqs.FilterPrefix | src/pages/Events.tsx:16-21 | a list whose passing elements all precede its failing ones filters to that prefix |
| Seqs.FilterSuffix | src/pages/Events.tsx:16-21 | a list whose failing elements all precede its passing ones filters to that suffix |
| Seqs.Dedup | src/pages/Projects.tsx:8 | `Array.from(new Set(xs))` has the same values as xs, without repeats, in first-occurrence order |
| Seqs.DedupOfDistinct | src/pages/Projects.tsx:8 | a list without repeats is unchanged by the Set round trip |
| EventsPage.Keeps | src/pages/Events.tsx:16-21 | the filter callback: "all" admits every event; "upcoming" admits exactly the upcoming ones and "past" exactly the others |
| EventsPage.FilteredEvents | src/pages/Events.tsx:16-21 | the shown events are a subsequence of the table, holding exactly the events the button admits; "all" shows the table unchanged |
| EventsPage.InitialShowsAllEvents | src/pages/Events.tsx:9-21 | `useState("all")`: the page opens on the whole table |
| EventsPage.FilteredEventsExact | src/pages/Events.tsx:16-21 | each admitted event appears as often as in the table, and the others not at all |
| EventsPage.UpcomingPastPartition | src/pages/Events.tsx:18-19 | the upcoming and past views together hold the table, with their lengths summing to its length |
| EventsPage.UpcomingFirst | src/pages/Events.tsx:16-21 | a table that lists upcoming before past events gives its two halves as the two views |
| EventsPage.ShowsNoEvents | src/pages/Events.tsx:154-164 | the "No events to display." branch is taken exactly when no event of the table passes the filter |
| EventsPage.CredentialOrEmpty | src/pages/Events.tsx:32-34 | a credential is empty exactly when the variable is unset or empty |
| EventsPage.CredentialsFrom | src/pages/Events.tsx:32-34 | each credential is empty exactly when its environment variable is unset or empty |
| EventsPage.Configured | src/pages/Events.tsx:49 | the credential guard, which rejects any empty credential, lets the handler through exactly when all three credentials are non-empty |
| EventsPage.ConfiguredFromEnvironment | src/pages/Events.tsx:32-49 | the credential guard passes exactly when all three variables are set and non-empty |
| EventsPage.GuardFailureIsError | src/pages/Events.tsx:43-58 | a failed guard shows the error message and changes neither the button nor the inputs |
| EventsPage.AttemptOutcome | src/pages/Events.tsx:60-88 | an attempt re-enables the button; success and input clearing happen exactly when the send succeeded, and on failure the inputs are kept |
| EventsPage.AfterSubmit | src/pages/Events.tsx:40-89 | after the handler a message is always shown (never idle); an attempt that reached the service leaves the button enabled; the inputs are either kept or cleared |
| EventsPage.SuccessOnlyFromDelivery | src/pages/Events.tsx:40-89 | from any state, a success message after the handler, or inputs that changed, come only from a delivered send |
| EventsPage.SubmitKeepsButtonEnabled | src/pages/Events.tsx:86-88 | no completed submission leaves the button disabled |
| EventsPage.SuggestionForm.constructor | src/pages/Events.tsx:24-34 | the form starts idle and enabled with blank inputs, with credentials read from the environment |
| EventsPage.SuggestionForm.SendForm | src/pages/Events.tsx:60-71 | `emailjs.sendForm` is called only with the form mounted, the credentials configured, the button disabled and the message cleared, and that state holds throughout the call; its outcome is either value |
| EventsPage.SuggestionForm.Fill | src/pages/Events.tsx:231-297 | typing into the inputs changes only their contents, not the button or the message |
| EventsPage.SuggestionForm.SendEventSuggestion | src/pages/Events.tsx:40-89 | the service is called exactly when both guards pass, and the new state is AfterSubmit of the old state and the call's outcome |
| ProjectsPage.CategoryOf | src/pages/Projects.tsx:8 | `projects.map(p => p.category)`, position by position |
| ProjectsPage.Categories | src/pages/Projects.tsx:8 | "All" first, then each category used by a project exactly once, in order of first use, and nothing else |
| ProjectsPage.CategoriesOfDistinct | src/pages/Projects.tsx:8 | when no two projects share a category, the buttons are "All" followed by the categories in table order |
| ProjectsPage.InCategory | src/pages/Projects.tsx:13 | the filter callback admits exactly the projects of the given category |
| ProjectsPage.FilteredProjects | src/pages/Projects.tsx:11-13 | "All" shows the table; any other button shows exactly the projects of that category, in table order |
| ProjectsPage.FilteredProjectsExact | src/pages/Projects.tsx:11-13 | a category view holds each project of that category with its multiplicity |
| ProjectsPage.InitialShowsAll | src/pages/Projects.tsx:9-13 | the page opens on the whole table |
| ProjectsPage.CategoryViewsPartition | src/pages/Projects.tsx:8-13 | over the category buttons, every project is shown exactly once, unless a project is filed under "All" |
| HomePage.UpcomingEvents | src/pages/Home.tsx:13 | at most three events, all upcoming: the first min(3, #upcoming) of the upcoming view, in table order |
| HomePage.TeaserOfOrderedTable | src/pages/Home.tsx:13 | a table with at least three upcoming events listed first previews its first three rows |
| Navbar.PathFor | src/components/Navbar.tsx:16-23 | the path of a label is found exactly when some entry has that label, and belongs to such an entry |
| Navbar.PathForEntry | src/components/Navbar.tsx:16-23 | looking up an entry's label finds that entry's path when no earlier entry shares the label |
| Navbar.NavItemsWellFormed | src/components/Navbar.tsx:16-23 | six entries with distinct labels, each leading to a route of src/App.tsx; "Join Us" leads to "/join" |
| Navbar.Header.constructor | src/components/Navbar.tsx:11 | the mobile menu starts closed |
| Navbar.Header.ToggleMenu | src/components/Navbar.tsx:13 | toggleMenu flips the flag |
| Navbar.Header.CloseMenu | src/components/Navbar.tsx:14 | closeMenu leaves the menu closed |
| Navbar.Header.ClickLogo | src/components/Navbar.tsx:35-38 | the logo leads to "/" and closes the menu |
| Navbar.Header.ClickMobileLink | src/components/Navbar.tsx:86-97 | a mobile link leads to its entry's declared route and closes the menu |
| Navbar.Header.ClickDesktopLink | src/components/Navbar.tsx:47-50 | a desktop link leads to its entry's declared route |
| Navbar.ToggleTwiceRestores | src/components/Navbar.tsx:13 | toggling twice restores the menu flag |
| Navbar.CloseMenuIdempotent | src/components/Navbar.tsx:14 | two closes leave the menu closed, as one close does |
| Footer.LowerChar | src/components/Footer.tsx:38 | lowercasing a letter shifts it into a-z; other characters are unchanged |
| Footer.ToLower | src/components/Footer.tsx:38 | `toLowerCase()` keeps the length, leaves no capital, and changes only capitals |
| Footer.RemoveFirstSpace | src/components/Footer.tsx:38 | `replace(" ", "")` removes at most one character |
| Footer.RemoveFirstSpaceKeeps | src/components/Footer.tsx:38 | `replace(" ", "")` adds no character and changes nothing in a string without a space |
| Footer.RemoveFirstSpaceAfter | src/components/Footer.tsx:38 | `replace(" ", "")` removes the first space only, keeping what comes after it, including later spaces |
| Footer.QuickLinkPath | src/components/Footer.tsx:37-39 | every derived target starts with "/", "Home" gives "/", and no capital letter follows the slash |
| Footer.SpacedLabelPath | src/components/Footer.tsx:37-39 | a label lowercasing to a, a space, then b (no space in a) derives "/" followed by a and b |
| Footer.OnlyFirstSpaceRemoved | src/components/Footer.tsx:38 | a label with two spaces keeps its second space: "Join Us Now" gives "/joinus now" |
| Footer.PathWithoutSpace | src/components/Footer.tsx:37-39 | a label without a space gives "/" and its lowercase form |
| Footer.PlainLabelPath | src/components/Footer.tsx:27-39 | "About", "Events", "Projects" and "Contact" derive "/about", "/events", "/projects" and "/contact" |
| Footer.QuickLinksMatchHeader | src/components/Footer.tsx:27-39 | the footer lists the header's six labels in order, and every label except "Join Us" derives the header's path |
| Footer.JoinUsLinkIsBroken | src/components/Footer.tsx:32-39 | "Join Us" derives "/joinus", while the header has "/join" and no route "/joinus" exists |
| Footer.IntendedQuickLinkPath | src/components/Footer.tsx:37-39 | the corrected target is the header's path for the label, falling back to the derived path only for a label the header lacks |
| Footer.QuickLinksReachPages | src/components/Footer.tsx:27-39 | with the corrected target, every quick link leads where the header's link does, which is a declared route |
| Fixtures.EventViews | src/data/events.ts:3-52 | the shipped table: "Upcoming" shows events 1 to 3, "Past" events 4 and 5, "All" all five |
| Fixtures.HomeTeaser | src/pages/Home.tsx:13 | the landing page previews events 1, 2 and 3 |
| Fixtures.ProjectCategories | src/data/projects.ts:3-36 | the four shipped projects have the categories Satellites, Atmospheric Research, Aeronautics and Robotics |
| Fixtures.ProjectButtons | src/pages/Projects.tsx:8 | the shipped gallery shows the buttons "All" and the four categories in table order |
| Fixtures.NewsIdsCollide | src/data/news.ts:3-32 | two different shipped news items share id 1, which the carousel uses as its slide key |

## Left out

- Timing: the 5000 ms interval, `setInterval` and `clearInterval` are not modelled. One firing is `Tick`. The effect's restart on every change of `current` or `dragging` only shifts when the next firing happens.
- Drag offset: the pointer offset is a floating-point number in the browser. The model takes an integer that lies on the same side of 50 and of -50 as the real offset (its ceiling above 50, its floor below -50). Rounding to the nearest integer would not do: an offset of 50.4 moves the slide, while 50 does not.
- Animations: framer-motion animations, the slide variants and the opacity of controls while dragging are presentation only, so they are not modelled. The effect of the colliding news ids (see `Fixtures.NewsIdsCollide`) on `AnimatePresence` is therefore not modelled either.
- Ticks on an empty list: the autoplay timer fires with an empty news list but nothing is shown, so `Carousel.Valid` asks for the range only when there is a slide.
- E-mail service: `emailjs.sendForm` is a network call. It is modelled as `SuggestionForm.SendForm`, whose outcome may be either value. The status code and text of its result are not modelled.
- Environment and diagnostics: the environment variables are constructor parameters. `console` logging and the configuration `alert` are left out, because they have no effect on state.
- EventsPage.SuggestionForm.SendEventSuggestion: this member requires the button to be enabled (no send in flight). The page disables the submit button while sending, so a second submission cannot start. React's batching of state updates and the interleaving of renders with the awaited call are not modelled.
- Browser form behaviour: `preventDefault` is not modelled, and neither are the browser's `required` check on the title and description inputs or the format check on the e-mail input. When either check fails, the handler never runs. The name input has no check. The model takes the inputs as given.
- Footer.LowerChar: lowers A to Z only, while JavaScript's `toLowerCase` also lowers non-ASCII capitals ('É' becomes 'é'). The quick-link labels contain none.
- Footer.ToLower: covers ASCII capitals only. JavaScript's `toLowerCase` also folds non-ASCII letters, and the quick-link labels contain none.
- Team data: the shipped projects have no `team` field. The model gives them an empty team, which no modelled page reads.
- Other pages: About, Join and Contact, plus ParticleBackground, EventCard, ProjectCard, SectionTitle, Button and TeamCard. They are presentational, or their forms have no submit handler, so they are not modelled.
- Scroll: the `window.scrollTo(0, 0)` scroll effect on page load is not modelled.

## Findings

| source | as written | input that shows it | evidently intended | confidence | as-written member | corrected member |
|---|---|---|---|---|---|---|
| src/components/Footer.tsx:37-39 | the quick-link target is `"/" + item.toLowerCase().replace(" ", "")` | the label "Join Us" gives "/joinus", which the router does not declare (the header and the router use "/join") | each quick link leads where the header's link of the same label leads | high (not executed) | Footer.JoinUsLinkIsBroken | Footer.QuickLinksReachPages |
