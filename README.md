# Portfolio website: verified model of its interactive logic

The portfolio site is a single page of display sections. Four of them hold
state that changes in response to timers or clicks. This project models that
state and proves what the components promise about it:

- **Home** (`home.dfy`): the typewriter effect in the hero line. It types one
  of three role titles a character at a time (100 ms per tick), pauses for
  2000 ms, deletes the title a character at a time (50 ms per tick), then
  moves on to the next title, wrapping from the last to the first. The
  transition function `Step` is stated for any non-empty list of roles. The
  class `Typewriter` holds the component's three state variables, and its
  `Tick` method is proved against `Step`. The invariant says that the
  displayed text is always a prefix of the current role and that the index is
  always in range. A lemma shows that a full cycle returns to the empty text
  of the next role and says how long the cycle takes.
- **Projects** (`projects.dfy`): a fixed list of five project records and
  four category buttons. "All" passes the list through unchanged. Any other
  category keeps exactly the records of that category, in their original
  order. Unless "View All" was pressed, only the first three matches are
  shown. Choosing a category collapses the list again. The button is rendered
  only when more than three records match.
- **Experience** (`experience.dfy`): six fixed records. The first four are
  shown until the reveal button is pressed.
- **Contact** (`contact.dfy`): three controlled form fields and the submit
  handler. The handler first checks the mail service's three settings. If
  any setting is missing or empty, it reports a configuration error and sends
  nothing. Otherwise it makes one send attempt. The browser runs the
  handler only when all three required fields are filled in and the email is
  well formed. The form is cleared only if
  the message was delivered.

Two helper modules hold logic the sections share. `Reveal` (`reveal.dfy`)
shows either all items or the first N. `Text` (`text.dfy`) renders a count
in decimal for the "View All N …" labels.

The mail service is not modelled. Its answer is a parameter of
`HandleSubmit` (`Delivered` or `Rejected`). Each call the component makes
is recorded in the form's `sent` list. The build-time settings and whether
the form element is mounted are parameters too. Browser alerts become the
returned `Notice`.

## Model

| member | source | states |
|---|---|---|
| Home.Slice | src/components/HomeSection.tsx:30 | `slice(0, end)` returns a prefix of the role whose length is `end` clamped to the role's length |
| Home.Delay | src/components/HomeSection.tsx:25-32 | the wait before a transition is the effect's timer (50 ms while deleting, 100 ms otherwise), plus the 2000 ms pause exactly on the transition that starts deleting |
| Home.Step | src/components/HomeSection.tsx:23-42 | one timer transition keeps the role index in range and preserves the invariant: the text is a prefix of `roles[currentRoleIndex]` |
| Home.Run | src/components/HomeSection.tsx:17-45 | any number of transitions keeps the index in range and preserves the prefix invariant |
| Home.InitialValid | src/components/HomeSection.tsx:17-21 | the initial state (index 0, empty text, typing) satisfies the invariant |
| Home.TypeTick | src/components/HomeSection.tsx:25-30 | a typing tick on an unfinished role appends exactly the role's next character, never passes the role's length, and runs after 100 ms |
| Home.PauseWhenComplete | src/components/HomeSection.tsx:31-32 | once typing has produced the whole role, the text is unchanged and the only transition sets `isDeleting`, after 100 ms plus the 2000 ms pause |
| Home.DeleteTick | src/components/HomeSection.tsx:25-36 | a deleting tick on a non-empty text removes exactly its last character, keeps the index, and runs after 50 ms |
| Home.AdvanceWhenEmpty | src/components/HomeSection.tsx:37-39 | deleting down to "" clears `isDeleting`, keeps the text "" and moves to the next of the three roles, wrapping from 2 to 0 |
| Home.TypingPhase | src/components/HomeSection.tsx:28-30 | k typing ticks from the first j characters give the first j+k characters, taking 100 ms each |
| Home.DeletingPhase | src/components/HomeSection.tsx:34-36 | k deleting ticks from the first j characters leave the first j-k characters, taking 50 ms each |
| Home.FullCycle | src/components/HomeSection.tsx:23-42 | from (i, "", typing), |role| typing ticks, the pause, |role| deleting ticks and the advance reach ((i+1) mod |roles|, "", typing), taking 150 ms per character plus 2150 ms |
| Home.TwoRoleScenario | src/components/HomeSection.tsx:23-42 | with the roles ["A", "BB"], the displayed text runs "A", "A" (pause), "", "" (advance), "B", "BB" |
| Home.Typewriter.constructor | src/components/HomeSection.tsx:17-19 | the hook starts at role 0 with the empty text, typing, which satisfies the invariant |
| Home.Typewriter.Tick | src/components/HomeSection.tsx:23-42 | the callback body updates the three state variables exactly as `Step` does, keeps the invariant, and reports the delay that elapsed before it ran |
| Projects.FilterByCategorySpec | src/components/ProjectsSection.tsx:63 | the category filter keeps exactly the records of that category, each as often as in the input, as a subsequence of the input (the original order is kept) |
| Projects.FilterByCategory | src/components/ProjectsSection.tsx:63 | the filter never lengthens the list and every record it returns has the requested category |
| Projects.Filtered | src/components/ProjectsSection.tsx:61-63 | `filteredProjects` is no longer than the full list, and under any category but "All" holds only records of that category |
| Projects.FilteredSpec | src/components/ProjectsSection.tsx:61-63 | under "All" the list is returned unchanged; under any other category the result is exactly its records in their original order |
| Projects.ProjectsView.constructor | src/components/ProjectsSection.tsx:6-7 | the section starts on "All" with the list collapsed |
| Projects.ProjectsView.DisplayedProjects | src/components/ProjectsSection.tsx:65 | the shown cards are a prefix of the filtered list, with length min(3, matches) when collapsed and all matches when expanded; without the button (three or fewer matches) they are all the matches |
| Projects.ProjectsView.ButtonVisible | src/components/ProjectsSection.tsx:290 | the reveal button is rendered exactly when the collapsed view would hide some matching projects |
| Projects.ButtonLabel | src/components/ProjectsSection.tsx:304 | the label is "Show Less" when expanded; otherwise it is "View All ", a decimal numeral without a leading zero that reads back as the count, and " Projects" |
| Projects.ProjectsView.Label | src/components/ProjectsSection.tsx:304 | the section's label is "Show Less" when expanded; otherwise its numeral has no leading zero and reads back as the number of matching projects |
| Projects.ProjectsView.SelectCategory | src/components/ProjectsSection.tsx:265-268 | a category button makes its category the active one, always resets `showAll` to false, and keeps the active category one of the four buttons |
| Projects.ProjectsView.ToggleShowAll | src/components/ProjectsSection.tsx:290-299 | the reveal button, which exists only while more than three records match, flips `showAll`, leaves the category alone and keeps it one of the four buttons |
| Projects.ToggleTwiceRestores | src/components/ProjectsSection.tsx:299 | pressing the reveal button twice restores the flag and the same displayed cards |
| Projects.FixedCategoryCounts | src/components/ProjectsSection.tsx:11-63 | with the fixed data, "All" has 5 projects, "Full Stack" 3, "AI" 1 and "Data Analysis" 1 |
| Projects.FixedRevealButton | src/components/ProjectsSection.tsx:290-304 | of the four categories only "All" renders the reveal button, and its label is "View All 5 Projects" |
| Projects.ButtonOnlyUnderAll | src/components/ProjectsSection.tsx:290-304 | in every reachable state of the section the button is rendered exactly under "All", and there, collapsed, it reads "View All 5 Projects" |
| Reveal.Shown | src/components/ProjectsSection.tsx:65 | `showAll ? items : items.slice(0, limit)` is a prefix of the items, of length min(limit, n) when collapsed and n when expanded |
| Reveal.ToggleVisible | src/components/ExperienceSection.tsx:358 | the reveal button is rendered exactly when the collapsed view would hide some items |
| Reveal.HiddenToggleShowsAll | src/components/ProjectsSection.tsx:290 | when the button is absent (n <= limit), the shown items are all the items, whatever the flag |
| Reveal.VisibleToggleMatters | src/components/ExperienceSection.tsx:358 | when the button is present (n > limit), the collapsed view shows exactly `limit` items and differs from the expanded view |
| Text.DecimalString | src/components/ProjectsSection.tsx:304 | a count is rendered as a non-empty string of decimal digits with no leading zero |
| Text.DecimalRoundTrip | src/components/ProjectsSection.tsx:304 | reading the rendered digits back gives the count |
| Experience.IdsDistinct | src/components/ExperienceSection.tsx:8-93 | the six records' ids, used as list keys, are pairwise distinct |
| Experience.ExperienceView.constructor | src/components/ExperienceSection.tsx:6 | the section starts collapsed |
| Experience.ExperienceView.DisplayedExperiences | src/components/ExperienceSection.tsx:95 | the shown records are a prefix of the six records in order: the first four when collapsed, all six when expanded |
| Experience.ExperienceView.ButtonVisible | src/components/ExperienceSection.tsx:358 | the reveal button is rendered, as the six records exceed the limit of four |
| Experience.ExperienceView.Label | src/components/ExperienceSection.tsx:372 | the label is "Show Less" when expanded, otherwise "View All 6 Experiences" |
| Experience.ExperienceView.ToggleShowAll | src/components/ExperienceSection.tsx:367 | the reveal button flips `showAll` |
| Experience.ToggleTwiceRestores | src/components/ExperienceSection.tsx:367 | pressing the reveal button twice restores the flag and the same displayed records |
| Contact.WithInput | src/components/ContactSection.tsx:29-35 | an input change sets the field named by the event and leaves the other two fields unchanged |
| Contact.InputChanges | src/components/ContactSection.tsx:29-35 | a later change of a field overrides an earlier one, and changes to different fields commute |
| Contact.FillForm | src/components/ContactSection.tsx:13-35 | typing into the three fields of the initially empty form yields exactly the three typed values |
| Contact.CheckConfig | src/components/ContactSection.tsx:40-48 | the configuration passes iff the service, template and user id are all set and non-empty, and then yields exactly those three values |
| Contact.AlertText | src/components/ContactSection.tsx:45-57 | both failure alerts end with the invitation " Please try again later."; the success alert does not |
| Contact.AlertsDistinct | src/components/ContactSection.tsx:45-57 | the configuration-error, success and failure alerts are three different messages |
| Contact.ContactForm.constructor | src/components/ContactSection.tsx:13-17 | the form starts with name, email and message all empty and nothing sent |
| Contact.ContactForm.HandleInputChange | src/components/ContactSection.tsx:29-35 | the change handler updates the form as `WithInput` and sends nothing |
| Contact.ContactForm.HandleSubmit | src/components/ContactSection.tsx:37-60 | incomplete configuration: configuration-error alert, nothing sent, form unchanged; form element absent: no effect; otherwise exactly one send carrying the current form, then on success the success alert and an empty form, on failure the failure alert and an unchanged form |
| Contact.ContactForm.SubmitForm | src/components/ContactSection.tsx:82-126 | the browser runs the submit handler only when all three `required` fields are non-empty and the email is well formed; otherwise nothing changes, no alert is raised and nothing is sent; when it runs, the outcome is that of `HandleSubmit` |
| Contact.SubmitScenario | src/components/ContactSection.tsx:29-126 | filling the three fields with non-empty values, with an address the browser accepts, and submitting with a complete configuration sends one request with the typed values; a delivered message empties the form, a rejected one keeps the values |
| Contact.MissingConfigScenario | src/components/ContactSection.tsx:40-126 | with all three settings absent, a submit of a filled-in form with an address the browser accepts sends nothing and shows the configuration-error alert |
| Contact.EmptyFormScenario | src/components/ContactSection.tsx:82-126 | submitting the untouched empty form never reaches the handler: no alert and nothing sent, whatever the configuration |

## Left out

- Animations, floating particles, gradient orbs, hover glows and the 3D tilt are not modelled. They are cosmetic, randomised or use floating-point DOM geometry.
- Resize listeners and the section-height tracking are not modelled. They are DOM input and output.
- Timer scheduling and React re-rendering are not modelled. `Tick` is one timer callback, and the 2000 ms pause timer is folded into the transition from a fully typed role. That pause timer is never cancelled by the effect's cleanup; this only matters on unmount, which a sequential model does not have.
- Home.Typewriter.Tick: the fully typed case sets `isDeleting` directly. In the component, the callback only schedules the pause timer, and that timer sets the flag 2000 ms later. The two are the same transition; the 2000 ms is accounted for in the returned delay.
- Project and experience records keep only their id, title and category or company. Descriptions, images, technology tags and links are display-only.
- Contact.Field: the change event's `name` attribute is modelled as one of the three field names, because the form has exactly three inputs. An event with any other name would add an extra key to the state object; no input of the form produces one.
- `emailjs.init`, `emailjs.sendForm`, `alert` and `console.error` are not modelled. A send is recorded as a `SendRequest` and its result is a `SendOutcome` parameter; alerts are returned as a `Notice`; log entries are dropped.
- Contact.ContactForm.SubmitForm: whether the email field holds a well-formed address is the browser's verdict, a parameter here; the address syntax the browser checks is not modelled.
- Overlapping submissions are not modelled. The send is awaited asynchronously, but `HandleSubmit` is atomic.
- The skills section, the navigation menu, the page composition and the section wrapper are not modelled. They hold static data, a single menu toggle and markup.
