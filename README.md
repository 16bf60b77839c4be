# Portfolio site: a Dafny model

This project models the portfolio site's front end and its backend API. The front end is a React single-page site with these parts:

- a typewriter hero banner;
- a skills section grouped by category;
- a filterable projects grid;
- a contact form that writes to the data store;
- a navigation bar that follows the section in view;
- a custom cursor and an animated particle background;
- an admin dashboard that lists, creates, edits and deletes projects through a modal form.

The backend is a FastAPI service. Its routes read and write the Supabase REST and storage endpoints, and its admin routes are guarded by a token check against the Supabase auth service.

The model has one Dafny module per source file (`Common` holds values several of them share):

- **Values.** A component's pure logic becomes functions on datatypes. The state transitions are one example: a `Next` or `Step` function on a snapshot of the component's `useState` cells.
- **State cells.** The cells become the fields of a class. Each handler and each timer callback becomes a method whose `ensures` ties the new state to the pure transition of the old one.
- **Loops.** Loops the source runs (`forEach` over fetched rows, the particle update and connection loops, the IntersectionObserver batch) become `while` loops with invariants, each proved against a function.
- **Outside effects.** Network calls, timers, animation frames, the browser's `Math.sqrt` and `Math.random`, and events are parameters. Each handler receives the outcome of the call or the event it reacts to.
- **Backend.** The API is modelled on values. A route, the caller's `Authorization` header and the two remote services (as functions from request to response) give the exact sequence of outgoing requests and the reply.

## Model

| member | source | states |
|---|---|---|
| Common.OrDefault | frontend/src/components/ProjectFormModal.jsx:19-25 | `x \|\| d` for a string that may be missing: the value itself when present and non-empty, otherwise the default |
| Common.ListOrEmpty | frontend/src/components/AdminDashboard.jsx:115 | `xs \|\| []`: the list when present, the empty list when missing |
| Hero.Substring | frontend/src/components/Hero.jsx:21-27 | `substring(0, end)` is a prefix of the role whose length is `end` clamped to 0 and the role's length |
| Hero.Delay | frontend/src/components/Hero.jsx:15-28 | the wait before the next step: 2000 ms at a complete word, 0 when the index advances (no timer), 80 ms while typing and 40 ms while deleting; each phase has its own delay |
| Hero.NextPreservesInv | frontend/src/components/Hero.jsx:11-31 | every step keeps the shown text a prefix of the current role |
| Hero.HoldOnlyStartsDeleting | frontend/src/components/Hero.jsx:15-16 | at a complete word the only change is that deleting starts |
| Hero.IndexAdvancesOnlyWhenEmptied | frontend/src/components/Hero.jsx:17-19 | the role index changes exactly when deleting has emptied the text; it then moves to the next role modulo 4, with typing restarted |
| Hero.StepChangesLengthByOne | frontend/src/components/Hero.jsx:21-27 | a typing step adds one character of the role and a deleting step removes the last one |
| Hero.ReachableInv | frontend/src/components/Hero.jsx:7-31 | the invariant holds in every state reachable from the initial one |
| Hero.TypingPhase | frontend/src/components/Hero.jsx:20-27 | k typing steps from empty show the role's first k characters |
| Hero.DeletingPhase | frontend/src/components/Hero.jsx:20-27 | k deleting steps from the full role leave all but its last k characters |
| Hero.RoleCycle | frontend/src/components/Hero.jsx:11-31 | from empty text, the role is typed out in as many steps as it has characters; one more step starts deleting, and after twice its length plus two steps the next role starts |
| Hero.FullCycle | frontend/src/components/Hero.jsx:4-31 | after one step count covering all four roles, the banner is back at its initial state |
| Hero.Typewriter.constructor | frontend/src/components/Hero.jsx:7-9 | index 0, empty text, not deleting, no timer |
| Hero.Typewriter.RunEffect | frontend/src/components/Hero.jsx:11-31 | the effect either advances the index at once, or schedules a timer whose callback performs the step |
| Hero.Typewriter.FireTimeout | frontend/src/components/Hero.jsx:16-27 | a pending timer performs exactly the next step; with none, nothing changes |
| Hero.Typewriter.Tick | frontend/src/components/Hero.jsx:11-31 | effect plus callback: the state moves to its successor, and the delay returned is that step's delay |
| ProjectFormModal.TrimStart | frontend/src/components/ProjectFormModal.jsx:40 | the input with its leading white space removed and nothing else: a suffix that does not start with white space, preceded in the input only by white space |
| ProjectFormModal.TrimEnd | frontend/src/components/ProjectFormModal.jsx:40 | the input with its trailing white space removed and nothing else: a prefix that does not end with white space, followed in the input only by white space |
| ProjectFormModal.Trim | frontend/src/components/ProjectFormModal.jsx:40 | `s.trim()` is a piece of the input with no white space at either end, and only white space before and after it in the input |
| ProjectFormModal.TrimStartPadded | frontend/src/components/ProjectFormModal.jsx:40 | after any run of white space, a string not starting with white space is left whole |
| ProjectFormModal.TrimEndPadded | frontend/src/components/ProjectFormModal.jsx:40 | before any run of white space, a string not ending with white space is left whole |
| ProjectFormModal.TrimPadded | frontend/src/components/ProjectFormModal.jsx:40 | `trim` undoes any white-space padding: `(w1 + t + w2).trim()` is `t` for all-white-space `w1`, `w2` and trimmed `t` |
| ProjectFormModal.Split | frontend/src/components/ProjectFormModal.jsx:40 | `split(',')` yields at least one part and no part contains a comma |
| ProjectFormModal.TrimAll | frontend/src/components/ProjectFormModal.jsx:40 | `map((s) => s.trim())` trims every part and keeps their number and order |
| ProjectFormModal.NonEmptyKeeps | frontend/src/components/ProjectFormModal.jsx:40 | `filter(Boolean)` keeps only non-empty parts, and they keep any property every input part has |
| ProjectFormModal.ParsedEntriesAreTags | frontend/src/components/ProjectFormModal.jsx:40 | every parsed tech-stack entry is non-empty, trimmed and comma-free |
| ProjectFormModal.SplitNoComma | frontend/src/components/ProjectFormModal.jsx:40 | a string without a comma splits into itself alone |
| ProjectFormModal.SplitAtComma | frontend/src/components/ProjectFormModal.jsx:40 | splitting at a first comma gives the part before it, followed by the split of the rest |
| ProjectFormModal.SplitJoin | frontend/src/components/ProjectFormModal.jsx:21-40 | splitting a `join(', ')` of comma-free tags gives the first tag, then each later tag preceded by one space |
| ProjectFormModal.TrimTag | frontend/src/components/ProjectFormModal.jsx:40 | trimming a tag, or a tag after one space, gives the tag |
| ProjectFormModal.NonEmptyOfTags | frontend/src/components/ProjectFormModal.jsx:40 | filtering a list of non-empty entries changes nothing |
| ProjectFormModal.TrimSplitJoin | frontend/src/components/ProjectFormModal.jsx:21-40 | trimming the split of joined tags restores the tags |
| ProjectFormModal.ParseJoin | frontend/src/components/ProjectFormModal.jsx:21-40 | round trip: the tech-stack text shown for a list of tags parses back to exactly that list |
| ProjectFormModal.ParseIdempotent | frontend/src/components/ProjectFormModal.jsx:21-40 | parsing, joining for display and parsing again gives the first parse |
| ProjectFormModal.OpenForEdit | frontend/src/components/ProjectFormModal.jsx:17-26 | editing fills each field from the project; a missing or empty value gives `''`, and `'frontend'` for the category; a missing tech stack gives `''` |
| ProjectFormModal.OpenForNew | frontend/src/components/ProjectFormModal.jsx:27-31 | a new project gets the blank form with category `frontend` |
| ProjectFormModal.EditRoundTrip | frontend/src/components/ProjectFormModal.jsx:17-41 | for a project with every field present, a non-empty category and tags that are trimmed, comma-free and non-empty, submitting the unchanged edit form sends back exactly the project's values, tag list included |
| ProjectFormModal.SubmitLabel | frontend/src/components/ProjectFormModal.jsx:152-158 | the button reads "Saving..." exactly while saving; otherwise it reads "Update" exactly when editing |
| ProjectFormModal.FormModal.constructor | frontend/src/components/ProjectFormModal.jsx:5-14 | the blank form, not saving |
| ProjectFormModal.FormModal.Reset | frontend/src/components/ProjectFormModal.jsx:16-33 | the effect replaces the form with the one for the project being edited, or the blank form |
| ProjectFormModal.FormModal.Change | frontend/src/components/ProjectFormModal.jsx:76 | an input's `onChange` sets that one field |
| ProjectFormModal.FormModal.BeginSubmit | frontend/src/components/ProjectFormModal.jsx:35-42 | saving starts; the payload is the form with the tech stack parsed, and the id is the edited project's id or none |
| ProjectFormModal.FormModal.EndSubmit | frontend/src/components/ProjectFormModal.jsx:43-44 | saving ends, and the form is left as it was |
| Skills.InheritedCategoryThrows | frontend/src/components/Skills.jsx:104-106 | a row with category `toString` makes any fetch throw, wherever it sits; a missing category goes to `Other`, which never throws |
| Skills.GroupingStep | frontend/src/components/Skills.jsx:103-107 | one row appends its skill to its category's group and leaves every other group as it was |
| Skills.GroupSkills | frontend/src/components/Skills.jsx:102-107 | the `forEach` loop throws exactly when some row's category is a property every object inherits (`toString`, `constructor`, `__proto__`, ...), since `grouped[cat]` is then already truthy and has no `push`; otherwise it computes exactly the category order and the grouping |
| Skills.KeysDistinct | frontend/src/components/Skills.jsx:105 | no category appears twice among the keys |
| Skills.KeysAreCategories | frontend/src/components/Skills.jsx:104-105 | a key exists exactly when some row has that category, with `'Other'` for a missing one |
| Skills.KeysGrowByPrefix | frontend/src/components/Skills.jsx:102-107 | the keys from a prefix of the rows are a prefix of the keys |
| Skills.FirstKeyIsFirstRow | frontend/src/components/Skills.jsx:109 | the category selected after a fetch is that of the first row |
| Skills.MembersGrowByPrefix | frontend/src/components/Skills.jsx:106 | a group built from a prefix of the rows is a prefix of the full group |
| Skills.MembersAreRowsOfCategory | frontend/src/components/Skills.jsx:103-107 | a skill is in a category's group exactly when some row of that category carries it |
| Skills.TotalOutside | frontend/src/components/Skills.jsx:103-107 | a row whose category is outside the counted keys leaves the counted total unchanged |
| Skills.TotalInside | frontend/src/components/Skills.jsx:103-107 | a row whose category is among the counted keys adds one to the total |
| Skills.GroupSizesSumToRows | frontend/src/components/Skills.jsx:102-107 | every row lands in exactly one group: the group sizes add up to the number of rows |
| Skills.CategoryColor | frontend/src/components/Skills.jsx:173 | an unknown category falls back to the Frontend colours |
| Skills.VisibleSkills | frontend/src/components/Skills.jsx:168 | the active category's group, or nothing when it has none |
| Skills.SkillsSection.constructor | frontend/src/components/Skills.jsx:91-92 | the default skills, with Frontend selected |
| Skills.SkillsSection.ApplyFetch | frontend/src/components/Skills.jsx:94-116 | a fetch with rows that group without throwing replaces the groups and selects the first category; an error, no data, a thrown call or a throwing grouping (caught at lines 111-113) keeps the defaults |
| Skills.SkillsSection.SelectCategory | frontend/src/components/Skills.jsx:148 | a tab click selects that category and nothing else changes |
| Projects.AllShowsEverything | frontend/src/components/Projects.jsx:72-74 | the `all` filter shows every project in order |
| Projects.FilterKeepsExactlyCategory | frontend/src/components/Projects.jsx:75 | any other filter keeps exactly the projects of that category, in their order |
| Projects.EmptyMessageIffNoMatch | frontend/src/components/Projects.jsx:125-127 | the empty message shows exactly when the filter is not `all` and no project has that category, or there are no projects |
| Projects.AfterFetch | frontend/src/components/Projects.jsx:55-70 | rows from the fetch replace the list; an error, no data, no rows or a thrown call keep it |
| Projects.DefaultFilterCounts | frontend/src/components/Projects.jsx:6-49 | the defaults hold two frontend, one backend and one fullstack project, so `other` shows the empty message |
| Projects.ProjectsSection.constructor | frontend/src/components/Projects.jsx:52-53 | filter `all`, with the default projects |
| Projects.ProjectsSection.ApplyFetch | frontend/src/components/Projects.jsx:62-64 | the list after a fetch settles, with the filter unchanged |
| Projects.ProjectsSection.SetFilter | frontend/src/components/Projects.jsx:105 | a filter click sets the filter and keeps the list |
| ParticleBackground.SpawnRanges | frontend/src/components/ParticleBackground.jsx:26-34 | a new particle lies inside the canvas, with speeds in [-0.25, 0.25), radius in [0.5, 2.5), opacity in [0.1, 0.6) and one of the two colours |
| ParticleBackground.ScaledBelow | frontend/src/components/ParticleBackground.jsx:27-28 | `Math.random() * n` lies in [0, n) |
| ParticleBackground.UpdateKeepsSpeeds | frontend/src/components/ParticleBackground.jsx:36-53 | an update changes each speed at most in sign, never its magnitude |
| ParticleBackground.SpeedsNeverChangeMagnitude | frontend/src/components/ParticleBackground.jsx:36-53 | over any number of frames, each speed keeps its magnitude |
| ParticleBackground.ForceInRange | frontend/src/components/ParticleBackground.jsx:44-45 | inside the 120-pixel radius the repulsion force lies in (0, 1] |
| ParticleBackground.RepulsionPointsAway | frontend/src/components/ParticleBackground.jsx:40-49 | inside the radius and off the pointer, the particle moves straight away from the pointer (its offset from the pointer is stretched by a factor above 1); at 120 or more it does not move |
| ParticleBackground.PointerOnParticleGivesNaN | frontend/src/components/ParticleBackground.jsx:40-49 | a pointer exactly on a particle divides by a zero distance, so its position becomes NaN |
| ParticleBackground.NaNIsAbsorbing | frontend/src/components/ParticleBackground.jsx:36-53 | a NaN coordinate stays NaN forever, and its speed no longer reflects |
| ParticleBackground.RepulsionExample | frontend/src/components/ParticleBackground.jsx:40-49 | a particle 50 pixels right of the pointer has force 7/12 and moves 0.875 further right |
| ParticleBackground.ParticleCount | frontend/src/components/ParticleBackground.jsx:63 | `min(floor(w*h/8000), 150)`: at most 150, exactly 150 when the canvas is large enough, otherwise the floor |
| ParticleBackground.CountExamples | frontend/src/components/ParticleBackground.jsx:63 | 800×600 gives 60 particles and 4000×3000 gives 150 |
| ParticleBackground.Row | frontend/src/components/ParticleBackground.jsx:70 | the inner loop visits (i, j) for every j after i, in order |
| ParticleBackground.RowsBelowSize | frontend/src/components/ParticleBackground.jsx:69-70 | the first i rows hold i·n − i(i+1)/2 pairs |
| ParticleBackground.RowsBelowMembers | frontend/src/components/ParticleBackground.jsx:69-70 | the first i rows hold exactly the pairs whose first index is below i |
| ParticleBackground.RowsBelowOrdered | frontend/src/components/ParticleBackground.jsx:69-70 | those pairs come in lexicographic order |
| ParticleBackground.PairsEachOnce | frontend/src/components/ParticleBackground.jsx:69-70 | the nested loops test each unordered pair of distinct particles exactly once: n(n−1)/2 pairs, none repeated |
| ParticleBackground.LinkIffClose | frontend/src/components/ParticleBackground.jsx:71-82 | a line is drawn exactly when both positions are numbers and the distance is below 130; its opacity lies in (0, 0.15] |
| ParticleBackground.LinkSymmetric | frontend/src/components/ParticleBackground.jsx:71-75 | whether a line is drawn, and its opacity, do not depend on which particle comes first |
| ParticleBackground.NoLinkAtRadius | frontend/src/components/ParticleBackground.jsx:74 | the test is strict: particles exactly 130 apart are not linked |
| ParticleBackground.LinksOverSnoc | frontend/src/components/ParticleBackground.jsx:69-76 | testing one more pair appends that pair's line, if any |
| ParticleBackground.LinksOverAppend | frontend/src/components/ParticleBackground.jsx:69-76 | the lines for two runs of pairs are those of each, concatenated |
| ParticleBackground.UpdatedAll | frontend/src/components/ParticleBackground.jsx:90-93 | the frame updates every particle, each against the same pointer and canvas size |
| ParticleBackground.Dots | frontend/src/components/ParticleBackground.jsx:89-92 | one dot per particle, in order |
| ParticleBackground.LinksAreLines | frontend/src/components/ParticleBackground.jsx:68-85 | connections draw only lines, at most one per tested pair |
| ParticleBackground.FrameOrder | frontend/src/components/ParticleBackground.jsx:87-96 | a frame clears the canvas, then draws every dot, then the lines |
| ParticleBackground.Particle.constructor | frontend/src/components/ParticleBackground.jsx:26-34 | the particle's fields are the spawn draws scaled to the canvas |
| ParticleBackground.Particle.Update | frontend/src/components/ParticleBackground.jsx:36-53 | the fields become the moved, repelled and reflected agent |
| ParticleBackground.Snapshots | frontend/src/components/ParticleBackground.jsx:87-96 | the agents the particles currently hold, in order |
| ParticleBackground.ConnectRow | frontend/src/components/ParticleBackground.jsx:70-84 | the inner loop tests exactly row i and emits exactly that row's lines |
| ParticleBackground.ParticleField.constructor | frontend/src/components/ParticleBackground.jsx:13-96 | the canvas is sized to the window; the count follows the area; particle k gets draw k; both listeners are added and the first frame is scheduled |
| ParticleBackground.ParticleField.Resize | frontend/src/components/ParticleBackground.jsx:13-18 | while its listener is registered, the canvas takes the new window size |
| ParticleBackground.ParticleField.MouseMove | frontend/src/components/ParticleBackground.jsx:20-23 | while its listener is registered, the pointer is recorded |
| ParticleBackground.ParticleField.DrawConnections | frontend/src/components/ParticleBackground.jsx:68-85 | tests every pair exactly once and draws the lines `LinksOver` gives for them |
| ParticleBackground.ParticleField.UpdateAndDraw | frontend/src/components/ParticleBackground.jsx:90-93 | every particle is updated in place, and one dot each is returned |
| ParticleBackground.ParticleField.Frame | frontend/src/components/ParticleBackground.jsx:87-96 | one animation frame: update, then clear, dots and lines, with the next frame scheduled |
| ParticleBackground.ParticleField.Unmount | frontend/src/components/ParticleBackground.jsx:98-101 | the frame is cancelled and the resize listener removed; the mousemove listener stays registered |
| CallToAction.Edited | frontend/src/components/CallToAction.jsx:141-163 | an input changes only its own field |
| CallToAction.ButtonLook | frontend/src/components/CallToAction.jsx:171-176 | green exactly after success, red exactly after failure |
| CallToAction.LabelsDistinguishStatuses | frontend/src/components/CallToAction.jsx:170-195 | every status has its own label, and the button is disabled exactly while "Sending..." shows |
| CallToAction.SubmitSendsForm | frontend/src/components/CallToAction.jsx:34-40 | submitting shows `sending`, keeps the form, inserts its three fields and disables the button |
| CallToAction.OutcomeEffects | frontend/src/components/CallToAction.jsx:41-47 | success clears the form and shows `sent`, failure keeps it and shows `error`; both schedule a reset |
| CallToAction.StepPreservesInv | frontend/src/components/CallToAction.jsx:31-49 | `sending` always has a request in flight, and `sent` or `error` always has a reset pending |
| CallToAction.ReachableInv | frontend/src/components/CallToAction.jsx:31-49 | that invariant holds after every enabled trace |
| CallToAction.SendCycle | frontend/src/components/CallToAction.jsx:34-49 | submit, settle and timer return to `idle`, with the form cleared only on success |
| CallToAction.StaleTimerEndsSending | frontend/src/components/CallToAction.jsx:44 | the reset timer is never cancelled: a second message sent within 4 s shows `idle` while its request is still in flight |
| CallToAction.ContactSection.constructor | frontend/src/components/CallToAction.jsx:31-32 | empty form, `idle` |
| CallToAction.ContactSection.Change | frontend/src/components/CallToAction.jsx:141-163 | the cells after `onChange` |
| CallToAction.ContactSection.Submit | frontend/src/components/CallToAction.jsx:34-40 | the cells after the synchronous part, and the row inserted |
| CallToAction.ContactSection.Settle | frontend/src/components/CallToAction.jsx:41-47 | the cells after the insert settles, and the 4000 ms delay |
| CallToAction.ContactSection.FireTimer | frontend/src/components/CallToAction.jsx:44-47 | the cells after the reset timer |
| AdminDashboard.Stored | frontend/src/components/AdminDashboard.jsx:31-38 | the stored row carries each payload field in its column |
| AdminDashboard.SaveUpdatesOrInserts | frontend/src/components/AdminDashboard.jsx:31-38 | with a truthy id only that row changes and none is added; otherwise exactly one row is added under the new id |
| AdminDashboard.EmptyIdInserts | frontend/src/components/AdminDashboard.jsx:32 | an empty-string id is falsy, so saving inserts a new row |
| AdminDashboard.SavedRowIsListed | frontend/src/components/AdminDashboard.jsx:31-38 | once the table is fetched again after a save, the saved row is listed, under the edited id or the new one |
| AdminDashboard.DeleteRemovesOnly | frontend/src/components/AdminDashboard.jsx:40-44 | deleting removes exactly the row with that id |
| AdminDashboard.DeletedRowIsGone | frontend/src/components/AdminDashboard.jsx:40-44 | after a delete the refetch lists no row under the deleted id |
| AdminDashboard.TagsAccountForAll | frontend/src/components/AdminDashboard.jsx:115-119 | at most three tags show, as a prefix; "+n" appears exactly when more exist, and they add up to all the tags |
| AdminDashboard.ListView | frontend/src/components/AdminDashboard.jsx:81-89 | a spinner exactly while loading, the empty message exactly when loaded and empty, else one row per project in order |
| AdminDashboard.AtMostOneConfirming | frontend/src/components/AdminDashboard.jsx:138-159 | at most one row shows Confirm and Cancel, and one does exactly when the pending id is listed |
| AdminDashboard.ModalSaveDispatch | frontend/src/components/AdminDashboard.jsx:31-38 | saving from Edit rewrites that row; saving from Add New inserts |
| AdminDashboard.Dashboard.constructor | frontend/src/components/AdminDashboard.jsx:11-29 | empty list, loading, no modal, nothing pending |
| AdminDashboard.Dashboard.FetchCompleted | frontend/src/components/AdminDashboard.jsx:17-25 | the list is the rows received (exactly the rows of the table), or empty for null data, and loading ends |
| AdminDashboard.Dashboard.HandleSave | frontend/src/components/AdminDashboard.jsx:31-38 | the table after the save call (unchanged on failure), then a refetch |
| AdminDashboard.Dashboard.HandleDelete | frontend/src/components/AdminDashboard.jsx:40-44 | the table after the delete call; nothing is pending; a refetch starts |
| AdminDashboard.Dashboard.AskDelete | frontend/src/components/AdminDashboard.jsx:155 | the trash button makes that row pending |
| AdminDashboard.Dashboard.CancelDelete | frontend/src/components/AdminDashboard.jsx:147 | Cancel clears the pending row |
| AdminDashboard.Dashboard.AddNew | frontend/src/components/AdminDashboard.jsx:73 | the modal opens with no project |
| AdminDashboard.Dashboard.Edit | frontend/src/components/AdminDashboard.jsx:133 | the modal opens on that project |
| AdminDashboard.Dashboard.Close | frontend/src/components/AdminDashboard.jsx:171 | the modal closes and forgets the project |
| Navbar.Slice1 | frontend/src/components/Navbar.jsx:87 | `href.slice(1)` is everything after the first character, and `''` for `''` |
| Navbar.ActiveIffHashOfSection | frontend/src/components/Navbar.jsx:87-140 | a `#` link is highlighted exactly when it is `#` followed by the active section |
| Navbar.AtMostOneActive | frontend/src/components/Navbar.jsx:7-18 | no two links are highlighted at once, and Home starts highlighted |
| Navbar.LastIntersectingWins | frontend/src/components/Navbar.jsx:33-39 | a batch leaves the section unchanged when nothing intersects, and otherwise sets it to the id of the last intersecting entry |
| Navbar.NavActions | frontend/src/components/Navbar.jsx:49-59 | a click always ends by scrolling to the section: at once on `/`, otherwise after navigating home and waiting 100 ms |
| Navbar.AdminLabel | frontend/src/components/Navbar.jsx:148-154 | the label reads "Dashboard" exactly when signed in |
| Navbar.NavigationBar.constructor | frontend/src/components/Navbar.jsx:16-31 | not scrolled, menu closed, Home active; observers connect only on `/` |
| Navbar.NavigationBar.OnScroll | frontend/src/components/Navbar.jsx:24-28 | `scrolled` follows the threshold |
| Navbar.NavigationBar.OnIntersect | frontend/src/components/Navbar.jsx:33-39 | the loop over entries computes `LastIntersecting`, and only while observing |
| Navbar.NavigationBar.OnLocation | frontend/src/components/Navbar.jsx:30-47 | a route change reconnects the observers only on `/` |
| Navbar.NavigationBar.NavClick | frontend/src/components/Navbar.jsx:49-59 | the menu closes, and the actions are those of `NavActions` |
| Navbar.NavigationBar.Toggle | frontend/src/components/Navbar.jsx:124 | the menu flips |
| Navbar.NavigationBar.MobileAdminClick | frontend/src/components/Navbar.jsx:148-154 | the menu closes |
| CustomCursor.HandlerEffects | frontend/src/components/CustomCursor.jsx:12-19 | each handler sets only its own cells |
| CustomCursor.CoarseNeverVisible | frontend/src/components/CustomCursor.jsx:10-36 | on a coarse pointer no event changes anything, so nothing is drawn |
| CustomCursor.UntouchedByOtherEvents | frontend/src/components/CustomCursor.jsx:12-25 | visibility changes only on move, enter and leave; `clicking` only on press and release |
| CustomCursor.VisibleFollowsLastEvent | frontend/src/components/CustomCursor.jsx:12-36 | the cursor shows exactly when the last show-or-hide event was not `mouseleave` |
| CustomCursor.ClickingFollowsLastEvent | frontend/src/components/CustomCursor.jsx:16-17 | `clicking` holds exactly when the last press-or-release was a press |
| CustomCursor.ShapesAreCentred | frontend/src/components/CustomCursor.jsx:36-58 | drawn exactly when visible; ring and dot are centred on the pointer, and the ring shrinks and the dot grows while clicking |
| CustomCursor.Cursor.constructor | frontend/src/components/CustomCursor.jsx:4-25 | initial cells; all five listeners, or none on a coarse pointer |
| CustomCursor.Cursor.Dispatch | frontend/src/components/CustomCursor.jsx:12-19 | an event reaches its handler only while it is registered |
| CustomCursor.Cursor.Unmount | frontend/src/components/CustomCursor.jsx:27-33 | the cleanup removes the five listeners |
| Api.PlaceholdersOnlyWhenUnset | backend/api/index.py:13-15 | each placeholder is used only when its variable is absent; a variable set to `""` is kept |
| Api.SupabaseHeaders | backend/api/index.py:28-34 | the helper's headers carry exactly the four keys |
| Api.ServiceHeaders | backend/api/index.py:89-92 | the two key headers (`apikey` and a bearer, both the service key) that the list, show, skill-list and both delete routes send (index.py lines 89-92, 103-106, 118-121, 173-176, 200-203), and that the upload sends with a `Content-Type` added (lines 216-220); they agree with `supabase_headers()` on both keys |
| Api.HeadersCarryServiceKey | backend/api/index.py:28-34 | `apikey` is the service key; the bearer is the token when it is non-empty, else the service key; an empty token equals none |
| Api.RemoveAll | backend/api/index.py:40 | `str.replace` removing a pattern never lengthens the string |
| Api.UnchangedWithoutOccurrence | backend/api/index.py:40 | a header without the prefix is left as it is |
| Api.ShrinksWhenOccurs | backend/api/index.py:40 | a header containing the prefix strictly shrinks |
| Api.RemoveAllIffOccurs | backend/api/index.py:40 | the header is unchanged exactly when the prefix does not occur in it |
| Api.BearerRoundTrip | backend/api/index.py:40-46 | `"Bearer " + t` yields `t` whenever `t` does not contain the prefix |
| Api.RepeatedPrefixRemoved | backend/api/index.py:40 | every occurrence is removed, not only the leading one |
| Api.PrefixAloneRemoved | backend/api/index.py:38-40 | `"Bearer "` alone passes the missing-header test and yields the empty token |
| Api.TrailingOccurrenceRemoved | backend/api/index.py:40 | an occurrence at the end is removed too |
| Api.ReplaceIsNotIdempotent | backend/api/index.py:40 | one removal can create a new occurrence, so applying it twice differs from once |
| Api.DefaultsWhenOmitted | backend/api/index.py:54-75 | omitted fields take the model defaults; given ones are kept |
| Api.Strings | backend/api/index.py:57 | a list of strings encodes as the JSON array of those strings, in order |
| Api.DropNulls | backend/api/index.py:157 | keeps exactly the entries whose value is not null |
| Api.UpdateKeepsGivenValues | backend/api/index.py:63-157 | every field given in an update is sent with its value, and nothing null is sent |
| Api.SentIfGiven | backend/api/index.py:157 | a given field is sent |
| Api.GivenIfSent | backend/api/index.py:157 | only given fields are sent |
| Api.UpdateSendsExactlyGivenFields | backend/api/index.py:155-163 | the PATCH body holds exactly the given fields, and is empty when none is given |
| Api.SamePrefix | backend/api/index.py:215-225 | a common prefix is cancellable |
| Api.UploadUrlsShareObjectPath | backend/api/index.py:212-225 | the public URL is the upload URL with `public/` inserted; two uploads share a URL exactly when their names print the same; a missing filename collides with `"None"` |
| Api.StoreRequestsUseServiceKey | backend/api/index.py:84-226 | every store call authenticates with the service key; `Prefer` is sent exactly with the JSON-body routes; an upload's type defaults to `image/png` |
| Api.StatusAcceptance | backend/api/index.py:84-224 | writes fail with 500 exactly outside their accepted codes; lists relay any non-200; `get_project` ignores the status and gives 404 exactly for a falsy body |
| Api.Decoded | backend/api/index.py:96 | `res.json()` succeeds exactly on a JSON body and yields that document; an empty body or one that is not JSON raises, which the framework answers with a 500 |
| Api.NoContentIsSuccess | backend/api/index.py:152-180 | a 204 without a body gives the fixed status objects |
| Api.UnparsableBodyIsServerError | backend/api/index.py:84-193 | a body that is not JSON gives a 500 on every route that decodes it once its status is accepted, `update_project` included because such a body is not empty (line 166); the routes that never decode answer the same whatever the body holds |
| Api.MissingHeaderRefused | backend/api/index.py:36-39 | an admin route without a header answers 401 and calls nothing |
| Api.RefusedTokenStops | backend/api/index.py:41-50 | a token the auth service rejects answers 401 after exactly one call |
| Api.StoreOnlyAfterApproval | backend/api/index.py:36-51 | an admin route reaches the store only after the auth service answered 200 |
| Api.PublicRoutesUnguarded | backend/api/index.py:84-235 | public routes never call the auth service |
| Api.ClientTokenReachesAuthService | backend/api/index.py:40-48 | the client's bearer token is forwarded unchanged, with the anon key |

## Left out

- Skills.GroupSkills, Skills.SkillsSection.ApplyFetch and Skills.FirstKeyIsFirstRow: `Object.keys` lists integer-like keys (such as `"2024"`) first, in ascending numeric order, and only then the other keys in insertion order; the model keeps first-occurrence order for every key, so with such category names the tab order and the tab opened after a fetch can differ.
- AdminDashboard.Dashboard.FetchCompleted: the list is taken as any listing of the store's rows; the order the data store returns them in is not modelled.
- Network, data store and auth service: each remote call is a parameter. A front-end handler receives the call's outcome; an API route receives functions from request to response. Ordering by `created_at`, query-string escaping of ids and JSON serialisation are not modelled.
- Timers and animation frames are events. A handler schedules one, and a later method call fires it. Real time and interleaving with rendering are not modelled.
- Browser functions: `Math.sqrt` is an abstract distance function, constrained only to be the non-negative square root. `Math.random` draws are parameters.
- ParticleBackground.PairLink: a line's colour and width are constants of the drawing code and are not part of `DrawOp`. Canvas drawing itself is a list of operations.
- Floating point: coordinates are reals, plus an explicit NaN that comes from dividing by a zero distance. Rounding is not modelled.
- Rendering markup, styling and animation (framer-motion, the skills progress-ring SVG arithmetic, the scroll-progress hook) are not part of the model. The same holds for the static components (About, Footer, LoadingScreen, ProjectCard, App routing) and the admin login page.
- Browser form validation (`required`, `type="email"`) is not modelled. The contact handler runs on whatever the fields hold.
- Api request models: Pydantic's type validation, and its 422 replies for malformed bodies, are not modelled. Request bodies arrive already typed.
- Api.Decoded: a body that cannot be decoded raises in `res.json()`; the model answers it with the framework's 500 reply and does not model the exception's trace.
- The CORS middleware, the FastAPI app object and `load_dotenv` are configuration, with no logic to model. The environment is a map.
- Whether the storage service overwrites an existing object is the service's own behaviour, so it is not modelled.

Where the model follows the code rather than the description of the system:

- The particle repulsion does not guard against a zero distance, so a pointer exactly on a particle makes its position NaN for good; the model includes that path.
- The mousemove listener is an anonymous function that the cleanup never removes, so it stays registered after unmount.
- The contact form's reset timer is never cancelled.
- A project whose id is the empty string is inserted again rather than updated.
- Dashboard store errors are ignored.
- `get_project` ignores the status code and looks only at the body.
- The `token` parameter of `supabase_headers` is never passed by any route, so every store call uses the service key.
- Uploads without a filename are stored under `projects/None`.
- The first `animate()` call is modelled as a scheduled frame.
