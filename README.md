# Portfolio site: content store, admin panels and section logic

This project is a Dafny model of the logic behind a personal portfolio site. The site has public sections and an admin area, and keeps its content in a hosted document database.

It covers:

- **The content store** (`PortfolioStore.Store`):
  - five content slices: site configuration, projects, skills, experiences and certificates;
  - the session and loading flags;
  - the database listeners, which seed an empty database;
  - the actions the pages and panels call.
- **The database**, as the ordered log of writes the store issues (`Remote`).
  - Every write call sits inside `safeFbCall`, which swallows the error.
  - So a failure only shows in which later writes of the same call are skipped.
- **The default content** the database is seeded with (`DefaultData`).
- **The admin projects panel** (`AdminProjects`):
  - the form, which edits the two lists as text;
  - the filtered, sorted and draggable list with its renumbering;
  - the save and delete handlers.
- **The admin certificates panel** (`AdminCertificates`):
  - the form and the save handler, which numbers a new certificate after the others;
  - the up/down buttons, which swap two orders.
  - The swap happens in place on objects the sorted copy shares with the store. The model follows it through the sorting permutation.
- **The public projects grid** (`ProjectsSection`): category buttons with counts, the order sort, first-page paging and the empty state.
- **The hero banner** (`HeroSection`): the typing words, the typewriter step machine, and the name split.
- **The about heading and fallbacks** (`AboutSection`).
- **The admin shell** (`AdminPanel`): navigation, tab dispatch, initials, sidebar width and logout.
- **The toast queue** (`Toast`).

Shared pieces:

- `Strings` models the JavaScript string operations the code uses:
  - `split`, `join`, `trim`, `indexOf` and `slice` with a negative end;
  - `||` on strings, ASCII `toUpperCase`, and decimal `toString`.
- `Ordering` models `Array.prototype.sort` with a numeric comparator. It is a stable insertion sort on an integer key. It also provides the permutation from sorted positions back to the input.

Two behaviours of the code follow from the model's lemmas:

- A one-letter typing word never hands over to the next word (`HeroSection.OneLetterWordStalls`).
- Two neighbouring certificates that share an order value cannot be swapped (`AdminCertificates.EqualOrdersSwapNothing`).

## Model

| member | source | states |
|---|---|---|
| Remote.Issued | src/store/portfolioStore.ts:59-66 | The writes one `safeFbCall` batch issues are a prefix of the batch. They are the whole batch exactly when nothing fails before the last write. Otherwise they run up to and including the failing write. |
| Remote.IssuedConcat | src/store/portfolioStore.ts:284-290 | In a batch made of two runs, the second run starts only after the first completes. It then stops at its own failure. |
| Remote.SetEach | src/store/portfolioStore.ts:136 | Seeding writes one whole document per item, to the item's id, in list order. |
| Remote.SetEachDistinctTargets | src/store/portfolioStore.ts:136 | Items with distinct ids are written to distinct documents. |
| Remote.ProjectOrderMerges | src/store/portfolioStore.ts:195-197 | `reorderProjects` merges each listed project's `order` alone, in list order. |
| Remote.CertificateOrderMerges | src/store/portfolioStore.ts:247-249 | `reorderCertificates` merges each listed certificate's `order` alone, in list order. |
| Remote.ResetWritesInOrder | src/store/portfolioStore.ts:284-290 | The reset writes the config document first, then every project, skill, experience and certificate. The collections come in that order, one document per seed item, and every write is a full-document write. |
| Remote.ResetWrites | src/store/portfolioStore.ts:284-290 | The reset issues one write per seed item plus the config document, and the config write comes first. |
| Remote.ResetStopsInOrder | src/store/portfolioStore.ts:284-290 | A reset stopped by a failure has issued every write of an earlier collection before any write of a later one. |
| PortfolioStore.Store.constructor | src/store/portfolioStore.ts:89-99 | The store starts with empty slices, `EMPTY_SITE_CONFIG`, every flag false, no listeners and nothing written. |
| PortfolioStore.EmptySiteConfig | src/store/portfolioStore.ts:68-87 | Before the config arrives, every text is empty, the accent is "#6366f1", the theme dark, and no categories, navbar name or hero image are set. |
| PortfolioStore.Store.InitFirebase | src/store/portfolioStore.ts:101-103 | The six listeners are attached on the first call only. Later calls change nothing. The latched flags never drop. |
| PortfolioStore.Store.OnAuthStateChanged | src/store/portfolioStore.ts:107-109 | The admin is logged in exactly when a user is present, and auth counts as initialized. |
| PortfolioStore.Store.OnConfigSnapshot | src/store/portfolioStore.ts:112-122 | A present document replaces the configuration. A missing one keeps it, and is seeded only when the server reported it missing. The config counts as loaded either way. |
| PortfolioStore.Store.OnProjectsSnapshot | src/store/portfolioStore.ts:129-139 | Non-empty documents replace the projects. An empty snapshot keeps them, and from the server it seeds every default project. The projects count as loaded. |
| PortfolioStore.Store.OnSkillsSnapshot | src/store/portfolioStore.ts:146-152 | The same rule for skills, without a loading flag. |
| PortfolioStore.Store.OnExperiencesSnapshot | src/store/portfolioStore.ts:156-162 | The same rule for experiences. |
| PortfolioStore.Store.OnCertificatesSnapshot | src/store/portfolioStore.ts:166-172 | The same rule for certificates. |
| PortfolioStore.Store.OnSnapshotError | src/store/portfolioStore.ts:123-143 | A failing config or projects listener marks exactly its own slice as loaded. |
| PortfolioStore.Store.Issue | src/store/portfolioStore.ts:59-66 | A single write in its own `safeFbCall` is issued whether or not it fails. |
| PortfolioStore.Store.IssueEach | src/store/portfolioStore.ts:136 | Writes each in their own `safeFbCall` are all issued, in order. |
| PortfolioStore.Store.IssueBatch | src/store/portfolioStore.ts:194-198 | The awaited loop inside one `safeFbCall` appends exactly `Issued(ws, failAt)` to the log. |
| PortfolioStore.Store.AddProject | src/store/portfolioStore.ts:180-182 | One full-document write of the project under its id. |
| PortfolioStore.Store.UpdateProject | src/store/portfolioStore.ts:184-186 | One merge of the record into the document with that id. |
| PortfolioStore.Store.DeleteProject | src/store/portfolioStore.ts:188-190 | One delete of that id. |
| PortfolioStore.Store.ReorderProjects | src/store/portfolioStore.ts:192-199 | The order merges of the list, up to the first failure. |
| PortfolioStore.Store.UpdateSiteConfig | src/store/portfolioStore.ts:202-204 | One merge into the `config/siteConfig` document. |
| PortfolioStore.Store.AddSkill | src/store/portfolioStore.ts:207-209 | One full-document write of the skill. |
| PortfolioStore.Store.UpdateSkill | src/store/portfolioStore.ts:211-213 | One merge into the skill's document. |
| PortfolioStore.Store.DeleteSkill | src/store/portfolioStore.ts:215-217 | One delete. |
| PortfolioStore.Store.AddExperience | src/store/portfolioStore.ts:220-222 | One full-document write of the experience. |
| PortfolioStore.Store.UpdateExperience | src/store/portfolioStore.ts:224-226 | One merge into the experience's document. |
| PortfolioStore.Store.DeleteExperience | src/store/portfolioStore.ts:228-230 | One delete. |
| PortfolioStore.Store.AddCertificate | src/store/portfolioStore.ts:233-235 | One full-document write of the certificate. |
| PortfolioStore.Store.UpdateCertificate | src/store/portfolioStore.ts:237-239 | One merge into the certificate's document. |
| PortfolioStore.Store.DeleteCertificate | src/store/portfolioStore.ts:241-243 | One delete. |
| PortfolioStore.Store.ReorderCertificates | src/store/portfolioStore.ts:245-251 | The order merges of the list, up to the first failure. |
| PortfolioStore.Store.LoginAdmin | src/store/portfolioStore.ts:254-262 | Reports whether sign-in succeeded. The session flag is left to the auth listener. |
| PortfolioStore.Store.LogoutAdmin | src/store/portfolioStore.ts:264-271 | The session flag drops exactly when sign-out succeeds. |
| PortfolioStore.Store.ResetToDefaults | src/store/portfolioStore.ts:274-291 | The five slices become the seed. The seed's writes are issued, config first, up to the first failure. |
| DefaultData.SeedProjects | src/data/defaultData.ts:5-169 | Eight projects with distinct ids. The i-th has order i+1, and every category is "web" or "mobile". |
| DefaultData.DefaultProjects | src/data/defaultData.ts:5-169 | The site's default projects are eight. |
| DefaultData.SeedSiteConfig | src/data/defaultData.ts:173-192 | The default configuration sets no project categories, navbar name or hero image. |
| DefaultData.DefaultSiteConfig | src/data/defaultData.ts:173-192 | The site's default configuration sets no categories, navbar name or hero image, and carries the default biography and about text. |
| DefaultData.DefaultSkills | src/data/defaultData.ts:196-209 | Twelve skills with distinct ids. |
| DefaultData.SeedExperiences | src/data/defaultData.ts:213-244 | Three experiences with ids "exp1", "exp2", "exp3", all distinct, of kinds work, freelance and work. |
| DefaultData.DefaultExperiences | src/data/defaultData.ts:213-244 | The site's default experiences are three. |
| DefaultData.DefaultExperienceKinds | src/data/defaultData.ts:213-244 | The site's default experiences are work, freelance and work, in that order. |
| DefaultData.SeedCertificates | src/data/defaultData.ts:248-279 | Three certificates with distinct ids and orders 1, 2, 3. |
| DefaultData.DefaultCertificates | src/data/defaultData.ts:248-279 | The site's three default certificates have distinct ids and orders 1, 2, 3. |
| Toast.Without | src/components/ui/Toast.tsx:29-31 | The filter keeps exactly the toasts whose id differs. |
| Toast.WithoutConcat | src/components/ui/Toast.tsx:30 | The filter keeps relative order: filtering a concatenation filters each part. |
| Toast.WithoutAbsent | src/components/ui/Toast.tsx:30 | Removing an id no toast carries leaves the list unchanged. |
| Toast.ShowThenExpire | src/components/ui/Toast.tsx:21-26 | The expiry of a just-shown toast removes exactly it when its millisecond is unique, restoring the earlier list. |
| Toast.SameInstantRemovedTogether | src/components/ui/Toast.tsx:22-25 | Toasts shown in the same millisecond share an id and are removed together. |
| Toast.ToastQueue.constructor | src/components/ui/Toast.tsx:11-19 | The queue starts empty, with or without an enclosing provider. |
| Toast.NewToasts | src/components/ui/Toast.tsx:11-13 | One `showToast` call adds at most one toast, exactly when a provider encloses the caller. The toast carries the kind, the message and the millisecond id. |
| Toast.ToastQueue.ShowToast | src/components/ui/Toast.tsx:21-23 | Under a provider, exactly one toast with the given kind, message and millisecond id is appended after the others. The default context adds nothing. |
| Toast.ToastQueue.RemoveToast | src/components/ui/Toast.tsx:29-31 | The list becomes the id filter of the old list. |
| Toast.ToastQueue.Expire | src/components/ui/Toast.tsx:24-26 | The timer applies the same filter as `removeToast`. |
| ProjectsSection.Categories | src/components/sections/ProjectsSection.tsx:106 | 'all' comes first, followed by exactly the configured categories, if any. |
| ProjectsSection.ProjectKey | src/components/sections/ProjectsSection.tsx:114 | A missing or zero order sorts as 99. Any other order sorts as itself. |
| ProjectsSection.OfCategory | src/components/sections/ProjectsSection.tsx:112 | Each project of that category keeps its multiplicity, and every other project is dropped. |
| ProjectsSection.Filtered | src/components/sections/ProjectsSection.tsx:110-112 | 'all' keeps the list as is. Any other category keeps exactly its projects. |
| ProjectsSection.SortedProjects | src/components/sections/ProjectsSection.tsx:114 | A permutation of the filtered projects, in non-decreasing `order \|\| 99`. |
| ProjectsSection.CategoryCount | src/components/sections/ProjectsSection.tsx:177 | The badge is the length of the filtered list, and never more than the number of projects. |
| ProjectsSection.CountIsWhatIsShown | src/components/sections/ProjectsSection.tsx:177 | A button's badge equals the number of projects selecting it lists before paging. |
| ProjectsSection.Shown | src/components/sections/ProjectsSection.tsx:219 | The grid shows a prefix of the sorted list: all of it when expanded, otherwise at most six. |
| ProjectsSection.ShownProjects | src/components/sections/ProjectsSection.tsx:219 | The grid shows a prefix of the active category's sorted list: all of it when expanded, at most six otherwise. |
| ProjectsSection.ViewMoreVisible | src/components/sections/ProjectsSection.tsx:238 | The view-more button shows exactly when the collapsed grid hides some project. |
| ProjectsSection.PagingHidesOnlyWithButton | src/components/sections/ProjectsSection.tsx:238 | Without the view-more button nothing is hidden. With it, the collapsed grid shows exactly six of more. |
| ProjectsSection.EmptyState | src/components/sections/ProjectsSection.tsx:250 | The empty-state message shows exactly when projects have loaded and the grid is empty, expanded or not. |
| ProjectsSection.EmptyStateUnderAll | src/components/sections/ProjectsSection.tsx:250 | Under 'all' the empty-state message shows exactly when projects are loaded and there are none. |
| ProjectsSection.SelectCategory | src/components/sections/ProjectsSection.tsx:182 | Choosing a category makes it active and collapses the grid. |
| ProjectsSection.ToggleShowAll | src/components/sections/ProjectsSection.tsx:241 | The toggle flips expansion and keeps the category. |
| ProjectsSection.SelectShowsFirstPage | src/components/sections/ProjectsSection.tsx:182-219 | Right after a category is chosen, at most six projects show. They are the first of that category in sort order, and each belongs to the store and the category. |
| AdminProjects.InitForm | src/components/admin/panels/AdminProjects.tsx:39-47 | A new form has the `EMPTY_PROJECT` defaults (blank texts and lists, not featured, order 999, the given year), no id, and the first configured category ('web' when none is configured, '' for an empty list). An edited project keeps its id and category. |
| AdminProjects.FormCategories | src/components/admin/panels/AdminProjects.tsx:39 | The form offers the configured categories, even an empty list, and 'web', 'mobile' when none are configured. |
| AdminProjects.HandleSubmit | src/components/admin/panels/AdminProjects.tsx:49-58 | The saved project has the form's id, or `project-<now>` when there is none. Its lists hold only non-empty, trimmed, separator-free entries. Every other field is copied from the form, with featured, order, status and role present. |
| AdminProjects.SubmitUnchanged | src/components/admin/panels/AdminProjects.tsx:41-56 | Opening a project and submitting it unchanged gives it back, with its missing optional fields defaulted, when its list entries are editable as text. |
| AdminProjects.TechnologiesRoundTrip | src/components/admin/panels/AdminProjects.tsx:45-54 | Technologies joined with ", " and parsed back on commas give the same list, when each is non-empty, trimmed and comma-free. |
| AdminProjects.FeaturesRoundTrip | src/components/admin/panels/AdminProjects.tsx:46-55 | Features joined with newlines and parsed back on newlines give the same list, when each is non-empty, trimmed and newline-free. |
| AdminProjects.FindById | src/components/admin/panels/AdminProjects.tsx:310 | `find` returns the first project with that id, and nothing exactly when none has it. |
| AdminProjects.UnchangedMeansSameIds | src/components/admin/panels/AdminProjects.tsx:289 | A drag counts as unchanged exactly when the dragged ids equal, position by position, the start of the sorted ids. |
| AdminProjects.LongerHasChanged | src/components/admin/panels/AdminProjects.tsx:289 | A dragged list longer than the sorted one always counts as changed. |
| AdminProjects.Renumber | src/components/admin/panels/AdminProjects.tsx:291 | Every project keeps its fields, except that its order becomes its position plus one. |
| AdminProjects.RenumberKeepsDraggedOrder | src/components/admin/panels/AdminProjects.tsx:279-291 | The renumbered list is sorted, so sorting it again gives the dragged order back. |
| AdminProjects.RenumberSpansAll | src/components/admin/panels/AdminProjects.tsx:278-292 | Under 'all' the drag writes exactly one order merge per store project, and every id is covered in both directions. |
| AdminProjects.ProjectsPanel.constructor | src/components/admin/panels/AdminProjects.tsx:273-281 | The panel opens under 'all', with the sorted projects as the local list and no form open. |
| AdminProjects.ProjectsPanel.Sync | src/components/admin/panels/AdminProjects.tsx:284-286 | The local list becomes the filtered, sorted projects, so it holds exactly the filtered projects. |
| AdminProjects.ProjectsPanel.SetFilter | src/components/admin/panels/AdminProjects.tsx:275-286 | The filter changes, and the local list re-sorts for it. |
| AdminProjects.ProjectsPanel.Reorder | src/components/admin/panels/AdminProjects.tsx:366 | A drag replaces the local list with the same projects in a new order, and stays in sync with the store. |
| AdminProjects.ProjectsPanel.DragEnd | src/components/admin/panels/AdminProjects.tsx:288-295 | When the order changed, it writes the renumbered orders up to the first failure and shows "Order updated". Otherwise it writes and shows nothing. |
| AdminProjects.ProjectsPanel.HandleSave | src/components/admin/panels/AdminProjects.tsx:297-307 | A new project is added and an edited one merged. The matching toast names the title, and the form closes. |
| AdminProjects.ProjectsPanel.HandleDelete | src/components/admin/panels/AdminProjects.tsx:309-314 | The id is deleted. The toast names the project found, or "undefined" when there is none. |
| AdminCertificates.SortedCerts | src/components/admin/panels/AdminCertificates.tsx:112 | A permutation of the certificates, in non-decreasing `order \|\| 0`. |
| AdminCertificates.CertKey | src/components/admin/panels/AdminCertificates.tsx:112 | A missing order sorts as 0. Any other order sorts as itself. |
| AdminCertificates.InitCertForm | src/components/admin/panels/AdminCertificates.tsx:13 | A new form is blank with order 0. An edited certificate keeps its id, title, issuer, date, image and order, with a missing description or link shown as empty. |
| AdminCertificates.SubmitCert | src/components/admin/panels/AdminCertificates.tsx:15-18 | The saved certificate has the form's id, or `cert-<now>` when there is none. Every other field is copied from the form, with description, link and order present. |
| AdminCertificates.CertSubmitUnchanged | src/components/admin/panels/AdminCertificates.tsx:13-17 | Opening a certificate and submitting it unchanged gives it back, with its missing fields defaulted. |
| AdminCertificates.SwapOrders | src/components/admin/panels/AdminCertificates.tsx:117-119 | The two order values trade places, and nothing else changes. |
| AdminCertificates.SwapKeepsOrderValues | src/components/admin/panels/AdminCertificates.tsx:117-119 | A swap keeps the multiset of order values and the ids. |
| AdminCertificates.EqualOrdersSwapNothing | src/components/admin/panels/AdminCertificates.tsx:117-119 | Swapping two equal orders leaves the list unchanged. |
| AdminCertificates.SwapThroughCopy | src/components/admin/panels/AdminCertificates.tsx:116-119 | Writing the swap into the store's objects at the permuted positions leaves the shared copy equal to the sorted list with the two orders swapped. |
| AdminCertificates.NewCertificateSortsLast | src/components/admin/panels/AdminCertificates.tsx:101-112 | With orders at most the count, a new certificate numbered count+1 sorts after all the others. |
| AdminCertificates.CertificatesPanel.constructor | src/components/admin/panels/AdminCertificates.tsx:94-95 | No form is open. |
| AdminCertificates.CertificatesPanel.HandleSave | src/components/admin/panels/AdminCertificates.tsx:99-110 | A new certificate is numbered count+1 and added. An edited one is merged. The matching toast shows, and the form closes. |
| AdminCertificates.CertificatesPanel.HandleDelete | src/components/admin/panels/AdminCertificates.tsx:200 | The id is deleted, and "Deleted" shows. |
| AdminCertificates.CertificatesPanel.MoveCert | src/components/admin/panels/AdminCertificates.tsx:114-122 | With the neighbour out of range nothing happens. Otherwise the store's certificates at the two permuted positions trade orders, the swapped sorted list's orders are written up to the first failure, and "Order updated" shows. |
| HeroSection.TypingWords | src/components/sections/HeroSection.tsx:14-17 | An empty title gives ['Developer']. Otherwise every word is non-empty, trimmed and comma-free. |
| HeroSection.TypingWordsOfJoined | src/components/sections/HeroSection.tsx:14-17 | A title written as words joined by ", " gives back exactly those words. |
| HeroSection.Current | src/components/sections/HeroSection.tsx:21 | The current word is one of the words, or empty when there are none. |
| HeroSection.Step | src/components/sections/HeroSection.tsx:20-47 | An empty current word means no step. Otherwise the typed text is a prefix of the word: while typing, the word up to one past the position; while deleting, the word up to one before it. The word index moves only on the last delete, which resets the state for the next word. |
| HeroSection.TypeOut | src/components/sections/HeroSection.tsx:27-33 | Typing from position c takes `len - c` ticks and ends holding the whole word, at position len-1, ready to delete. |
| HeroSection.EraseWord | src/components/sections/HeroSection.tsx:34-42 | Deleting from position c ≥ 1 takes c ticks and ends on the next word (mod n), blank, at position 0. |
| HeroSection.WordCycle | src/components/sections/HeroSection.tsx:27-42 | A word of length L ≥ 2 is typed and deleted in 2L-1 ticks, and the next word starts from scratch. |
| HeroSection.OneLetterWordStalls | src/components/sections/HeroSection.tsx:34-42 | For a one-letter word, deleting drives the position below 0. The screen stays blank, and the word index never moves. |
| HeroSection.Typewriter.constructor | src/components/sections/HeroSection.tsx:8-11 | The typewriter starts blank, at word 0, position 0, typing. |
| HeroSection.Typewriter.Tick | src/components/sections/HeroSection.tsx:20-47 | One timer callback changes the state exactly as `Step` does. |
| HeroSection.NameSplit | src/components/sections/HeroSection.tsx:53-55 | An empty name gives 'PHYO' / 'MIN THEIN'. The first word is never empty. |
| HeroSection.NameSplitAtFirstSpace | src/components/sections/HeroSection.tsx:53-55 | A name splits at its first space, and first + ' ' + rest rebuilds the name. |
| HeroSection.OneWordName | src/components/sections/HeroSection.tsx:53-55 | A one-word name keeps the word, and its rest is 'MIN THEIN'. |
| AboutSection.AboutHeading | src/components/sections/AboutSection.tsx:51-89 | An empty title greets "Hi, I'm " and highlights the name, or "Phyo Min Thein" when the name is empty. Any other title is cut into plain and highlighted parts that concatenate back to it. |
| AboutSection.ImRuleFirst | src/components/sections/AboutSection.tsx:61-67 | With "I'm " present, the cut falls right after its first occurrence, whether or not "am " occurs. |
| AboutSection.AmRule | src/components/sections/AboutSection.tsx:70-76 | Without "I'm ", a title with "am " is cut right after the first "am ". |
| AboutSection.LastWordRule | src/components/sections/AboutSection.tsx:79-86 | Without either phrase, `a + ' ' + w` highlights the last word w after the plain `a + ' '`. |
| AboutSection.SingleWordRule | src/components/sections/AboutSection.tsx:88 | A one-word title is highlighted whole, with no plain part. |
| AboutSection.Texts | src/components/sections/AboutSection.tsx:92-120 | Each text is never empty. A non-empty configured value is shown as is, and an empty one is replaced by its fixed default: the about text, "Phyo Min Thein", "Thailand 🇹🇭" or the contact address. |
| AboutSection.TextsOfShownTexts | src/components/sections/AboutSection.tsx:92-120 | Writing the shown texts back into the configuration shows the same texts: the fallbacks are a fixed point. |
| AdminPanel.Flatten | src/components/admin/AdminPanel.tsx:41 | Every item of every group is in the flat list, and nothing else. |
| AdminPanel.NavIdsExact | src/components/admin/AdminPanel.tsx:18-41 | The flat ids are exactly dashboard, projects, skills, certificates, settings, in that order, and distinct. |
| AdminPanel.ActiveTab | src/components/admin/AdminPanel.tsx:45 | A missing or empty `tab` means 'dashboard'. |
| AdminPanel.RenderPanel | src/components/admin/AdminPanel.tsx:59-68 | The panel shown is the one the id names, or the dashboard. |
| AdminPanel.RenderPanelRoundTrip | src/components/admin/AdminPanel.tsx:59-68 | Each panel's id renders that panel. An id outside the sidebar renders the dashboard. |
| AdminPanel.FindItem | src/components/admin/AdminPanel.tsx:70 | The header item has the active id, and is missing exactly when no item has it. |
| AdminPanel.ActiveItemLabel | src/components/admin/AdminPanel.tsx:70 | Every panel id has a header item ('skills' reads "Tech Stack"). An unknown tab has none. |
| AdminPanel.SidebarWidth | src/components/admin/AdminPanel.tsx:71 | 80 when collapsed, 240 otherwise. |
| AdminPanel.HeadsSkipEmpty | src/components/admin/AdminPanel.tsx:74 | An empty word (a double space) contributes nothing to the initials. |
| AdminPanel.HeadsOfWords | src/components/admin/AdminPanel.tsx:74 | Non-empty words each contribute their first letter, in order. |
| AdminPanel.Initials | src/components/admin/AdminPanel.tsx:73-75 | 'AD' for an empty name, and never more than two characters. |
| AdminPanel.InitialsOfName | src/components/admin/AdminPanel.tsx:73-75 | A name of single-spaced words gets the upper-cased first letters of its first two words. |
| AdminPanel.HandleLogout | src/components/admin/AdminPanel.tsx:53-57 | It signs out, shows "Logged out successfully.", and goes to /admin. |

## Left out

- The database and auth SDKs are not modelled.
  - Listeners are methods the environment calls with the snapshot's content.
  - A write's failure is an input (`failAt`).
  - Merge semantics beyond "the merge carries these fields" are not modelled.
- An exception while attaching the listeners is not modelled (the `catch` at src/store/portfolioStore.ts:174-176).
- Timers are not modelled:
  - Each typing callback is one `Tick`.
  - The 1.8-second pause before deleting is folded into the tick that finishes a word.
  - A toast's four-second expiry is the `Expire` event.
- The clock is not modelled. `Date.now()` is the `now` parameter, written in decimal.
- React re-render timing and zustand reactivity are not modelled. Panel state lives in small classes whose methods are the handlers.
- Rendering, styling, animation, routing, scrolling, the image upload and the contact form are not modelled.
- Dashboard, settings, skills-panel and login components are not modelled.
- AdminCertificates.CertificatesPanel.HandleSave: the source assigns `c.order` on the object it receives. That object is fresh from the form, so the model updates a value.
- PortfolioStore.Store.UpdateProject, UpdateSkill, UpdateExperience and UpdateCertificate accept whole records. The source's `Partial<...>` payloads are not modelled.
- AdminProjects.HandleSubmit: the saved project drops the `technologiesStr` and `featuresStr` keys, which the source also stores.
- AdminProjects.InitForm: the form's `year` default is a parameter rather than the current year.
- DefaultData: the facts about the default content are proved on the `Seed*` functions, which take the long texts as parameters.
  - `DefaultProjects()`, `DefaultExperiences()`, `DefaultCertificates()` and `DefaultSiteConfig()` are those functions applied to the literal texts.
  - DefaultData.DefaultProjects states only its length: its ids, orders and categories, stated together with the long literal texts in scope, exceed the verifier's resource limit. Those facts are stated on `SeedProjects`.
  - DefaultData.DefaultExperiences states its length, and `DefaultExperienceKinds` its kinds; its distinct ids are stated on `SeedExperiences` for the same reason.
  - The literals are kept out of proof obligations because they make the solver slow.
- PortfolioStore.Store.constructor: the store takes its seed as a parameter. The site's seed is `DefaultData.Defaults()`.
- Strings are sequences of code points, not UTF-16 units. Upper-casing covers ASCII letters only.
- HeroSection.Step does not model the case where the words change under a running typewriter, other than through the `% n` of the word index.
