# Snippet dashboard and cards: a Dafny model

This project models the client-side logic of a code-snippet sharing site. An admin uploads
general and web-scraping snippets to a managed document store. Visitors browse them as cards.
The admin manages the snippets from a dashboard with a delete-confirmation table.

The model covers four React components:

- **The two listing cards** (`PostCard`, `ScrapingPostCard`). These are pure functions of their
  properties. They censor the author's address, build the detail-page link, and show or hide
  the plugin-type badge, the watermark line and the external-link buttons.
- **The delete-confirmation table** (`CodeManagementTable`). This is a class over `deleteId`
  and `isDeleting`. The trash button arms a row and the dialog closes without deleting. A
  confirmed delete calls the parent's callback with the row's type and always ends disarmed.
- **The admin dashboard** (`AdminDashboard`). This is a class over the two upload drafts, the
  upload flags, the active tab, the selected file and the listed snippets. Drafts are maps
  from property names to strings, so the extra properties an edited snippet brings along are
  kept. Around the class sit pure functions for:
    - each draft updater;
    - the document a submit writes;
    - the edit pre-fill;
    - the snapshot-to-list mapping;
    - the session guard.
  Lemmas state the plugin-type rule ("a plugin type is chosen exactly when the category is
  PLUGINS") and prove that every draft the form can reach obeys it.

Some things become inputs: the store's answer (a `stored` or `rejected` flag, or the list of
stored documents a snapshot delivers), the session address, the ISO timestamp and the text of
a loaded file. Notifications, navigation, store calls and callback calls are appended to an
`effects` log, in the order the handler emits them.

Files: `js.dfy` (JavaScript string and property semantics), `ui.dfy` (the effect log's
entries), `post_card.dfy`, `scraping_post_card.dfy`, `code_management_table.dfy`,
`dashboard.dfy`.

## Model

| member | source | states |
|---|---|---|
| Js.Split | app/components/PostCard.tsx:36 | Splitting on `@` yields one more piece than there are `@`s. No piece contains `@`, and joining the pieces with `@` gives back the address. |
| Js.SplitAtFirst | app/components/PostCard.tsx:36 | The first piece is the text before the first `@`. With no `@` there is one piece. Otherwise the remaining pieces are the split of the text after the first `@`. |
| Js.Slice | app/components/PostCard.tsx:37 | `slice(begin, end)` clamps both ends to the length. Its length is the clamped distance, or 0 when the end falls before the beginning. |
| Js.IndexOf | app/components/PostCard.tsx:36 | The first position of the separator, or the length when there is none. Nothing before it is the separator. |
| PostCard.CensorEmail | app/components/PostCard.tsx:35-38 | `censorEmail`: split on `@`, take the first piece and the second piece (or `undefined`), and join `slice(0, 3)` of the first, "...@" and the second. Its meaning is stated by CensorEmailByFirstAt and the lemmas after it. |
| PostCard.CensorEmailByFirstAt | app/components/PostCard.tsx:35-38 | The censored address is up to 3 characters of the text before the first `@`, then "...@", then the text between the first and second `@`, or "undefined" when there is no `@`. |
| PostCard.CensorEmailMarker | app/components/PostCard.tsx:37 | "...@" always appears, after exactly min(3, local length) characters, which are the start of the local part. |
| PostCard.CensorEmailShortLocal | app/components/PostCard.tsx:37 | A local part shorter than 3 characters is shown whole. |
| PostCard.CensorEmailWellFormed | app/components/PostCard.tsx:35-38 | For `local@domain` with no other `@`, the result is the first 3 characters of local, then "...@", then domain. |
| PostCard.CensorEmailDropsAfterSecondAt | app/components/PostCard.tsx:36 | Everything from a second `@` on is dropped. |
| PostCard.CensorEmailNoAt | app/components/PostCard.tsx:36-37 | With no `@`, the output ends in "...@undefined". |
| PostCard.DetailHref | app/components/PostCard.tsx:65 | The link is "/posts/" followed by the id, and the id can be read back from it. |
| PostCard.DetailHrefInjective | app/components/PostCard.tsx:65 | Different ids give different links. |
| PostCard.Links | app/components/PostCard.tsx:71-94 | The button group is present iff either link is truthy. Each button is present iff its own link is truthy, and then it holds that link. |
| PostCard.Render | app/components/PostCard.tsx:40-98 | Badges are language and category, plus the plugin type iff it is non-empty. The watermark line is shown iff the watermark is non-empty. The link group is shown iff either link is non-empty, and it is never empty. Each button is shown iff its own link is non-empty and points to that link. |
| ScrapingPostCard.CensorEmail | app/components/ScrapingPostCard.tsx:33-36 | This card's own copy of `censorEmail`. CensorEmailAgrees proves it equal to the general card's; CensorEmailMarker restates the marker property for it. |
| ScrapingPostCard.CensorEmailAgrees | app/components/ScrapingPostCard.tsx:33-36 | This card's `censorEmail` gives the same output as the general card's for every address. |
| ScrapingPostCard.CensorEmailMarker | app/components/ScrapingPostCard.tsx:35 | The censored author always contains "...@", with at most 3 characters before it. |
| ScrapingPostCard.DetailHref | app/components/ScrapingPostCard.tsx:62 | The link is the general card's link for the same id, followed by "?type=scraping". |
| ScrapingPostCard.DetailHrefCollision | app/components/ScrapingPostCard.tsx:62 | A general id ending in "?type=scraping" links to the same page as the scraping card of the shorter id. |
| ScrapingPostCard.DetailHrefsDistinct | app/components/ScrapingPostCard.tsx:62 | When the general id has no `?`, its link differs from every scraping link. |
| ScrapingPostCard.Render | app/components/ScrapingPostCard.tsx:38-95 | Badges are language and category only. The watermark line is shown iff the watermark is non-empty. The link group is shown iff either link is non-empty. Each button is shown iff its own link is non-empty. |
| ManagementTable.RowOf | app/components/CodeManagementTable.tsx:72-80 | One row: keyed by the snippet's id, showing title, language, author, category and type ("" for a missing property), and carrying the snippet. Rows states the whole table. |
| ManagementTable.Rows | app/components/CodeManagementTable.tsx:71-97 | There is one row per snippet, in the same order. Each row carries its snippet unchanged and is keyed by the snippet's id. Its title, language, author, category and type cells are the snippet's properties, "" where one is missing. |
| ManagementTable.FindById | app/components/CodeManagementTable.tsx:45 | `find` returns the first snippet whose id is strictly equal to the armed id, or none when no snippet matches. |
| ManagementTable.DeleteType | app/components/CodeManagementTable.tsx:45 | The type of the first snippet whose id is the armed id, falling back to "regular" when there is none or its type is falsy. DeleteTypeOfFirstMatch and DeleteTypeNoMatch state its value. |
| ManagementTable.DeleteTypeOfFirstMatch | app/components/CodeManagementTable.tsx:45 | The delete callback gets the type of the first matching snippet. It gets "regular" when that type is missing or empty. |
| ManagementTable.DeleteTypeNoMatch | app/components/CodeManagementTable.tsx:45 | When no snippet matches, the type is "regular". |
| ManagementTable.SettleToast | app/components/CodeManagementTable.tsx:46-48 | The table's own notification: success when the callback's promise resolved, failure when it rejected. |
| ManagementTable.DeleteEffects | app/components/CodeManagementTable.tsx:45-48 | What a confirmed delete emits: the callback call with the armed id and its looked-up type, then the table's one notification. HandleDelete is stated with it. |
| ManagementTable.CodeManagementTable.DialogOpen | app/components/CodeManagementTable.tsx:102 | `open={!!deleteId}`: the dialog is open iff the armed id is truthy. ClickTrash, DialogOpenChange and HandleDelete state how it changes. |
| ManagementTable.CodeManagementTable.constructor | app/components/CodeManagementTable.tsx:37-38 | The table starts with nothing armed, no delete in flight and nothing emitted. |
| ManagementTable.CodeManagementTable.Rerender | app/components/CodeManagementTable.tsx:36 | A re-render with a new list replaces the rows and nothing else. |
| ManagementTable.CodeManagementTable.ClickTrash | app/components/CodeManagementTable.tsx:90 | The trash button only sets `deleteId` to the row's id. No callback is called and no notification is emitted. The dialog opens when that id is non-empty. |
| ManagementTable.CodeManagementTable.ClickEdit | app/components/CodeManagementTable.tsx:83 | The edit callback receives the row's snippet unchanged, and no state changes. |
| ManagementTable.CodeManagementTable.DialogOpenChange | app/components/CodeManagementTable.tsx:102 | Dismissing the dialog clears `deleteId` and calls nothing, so the dialog is closed. |
| ManagementTable.CodeManagementTable.HandleDelete | app/components/CodeManagementTable.tsx:40-53 | With nothing armed (null, undefined or ""), nothing changes and nothing is emitted. Otherwise the table calls the callback with the id and its looked-up type, then emits the success or failure notification. In both cases it ends disarmed with `isDeleting` false. |
| Dashboard.InitialDraftsDefaults | app/admin/dashboard/page.tsx:46-68 | About the constants `InitialForm` and `InitialScrapingForm`, which are also the drafts the submits reset to (142-153, 175-185). Every text input starts empty. The general draft starts in JavaScript under CASE with plugin type "". The scraping draft starts in Python under Web Scraping and has no plugin-type property. |
| Dashboard.PluginSelectorShown | app/admin/dashboard/page.tsx:358 | The plugin-type selector exists exactly while the category is PLUGINS. ChangePluginType and Offered require it. |
| Dashboard.RequiredFilled | app/admin/dashboard/page.tsx:301-319 | The `required` attributes on title, description and code: all three are non-empty. The submits and Offered require it. |
| Dashboard.WithText | app/admin/dashboard/page.tsx:299-394 | A text input sets its own property. Every other property, including category and plugin type, is as before. |
| Dashboard.WithCategory | app/admin/dashboard/page.tsx:341-346 | Choosing a category sets the plugin type to "ESM" for PLUGINS and to "" otherwise. Every other property is unchanged, and the result obeys the plugin-type rule. |
| Dashboard.WithPluginType | app/admin/dashboard/page.tsx:362 | The plugin-type selector changes only the plugin type. |
| Dashboard.ReselectingPluginsRestoresEsm | app/admin/dashboard/page.tsx:341-362 | Going PLUGINS, then CASE, then PLUGINS gives the same draft as choosing PLUGINS directly, with plugin type "ESM", whatever was picked before. |
| Dashboard.AcceptsFile | app/admin/dashboard/page.tsx:120-121 | A file is accepted iff one was selected and its type is `application/javascript`. WithLoadedCode and HandleFileChange state what follows. |
| Dashboard.WithLoadedCode | app/admin/dashboard/page.tsx:119-127 | A file of type `application/javascript` replaces `code` with its whole text and changes nothing else. Any other file, or none, leaves the draft as it was. |
| Dashboard.BuildDocument | app/admin/dashboard/page.tsx:134-138 | The document is the draft plus `author` = session address and `date` = timestamp. These two override draft properties of the same names. Every other draft property is carried over. |
| Dashboard.DocumentRecoversDraft | app/admin/dashboard/page.tsx:134-138 | Removing `author` and `date` from the document gives the draft without them. |
| Dashboard.DocumentKeepsDraftRules | app/admin/dashboard/page.tsx:134-140 | A written general document keeps the plugin-type rule and the required fields. Under PLUGINS its plugin type is ESM or CJS. |
| Dashboard.EditDraft | app/admin/dashboard/page.tsx:212-219 | The edit pre-fill keeps every property of the snippet, including id, author, date and type. code2, watermark, githubLink and whatsappLink are always present, and "" when the snippet lacks them. |
| Dashboard.SnippetEntry | app/admin/dashboard/page.tsx:99 | `{ id: doc.id, ...doc.data() }`: the keys are the data's plus `id`. Every data property is carried over, and the document id shows only when the data has no `id`. |
| Dashboard.ScrapingEntry | app/admin/dashboard/page.tsx:108 | `{ id: doc.id, ...doc.data(), type: "scraping" }`. ScrapingEntryTagged and EntryIdComesFromData state its properties. |
| Dashboard.ScrapingEntryTagged | app/admin/dashboard/page.tsx:108 | Every listed scraping entry has type "scraping" and otherwise carries the stored data and the id. |
| Dashboard.EntryIdComesFromData | app/admin/dashboard/page.tsx:99-108 | The data is spread after the id, so a stored `id` property replaces the document's id in both listings. |
| Dashboard.ResubmittedEditListsOldId | app/admin/dashboard/page.tsx:108 | Editing a listed scraping snippet and submitting it writes a document that is listed under the old document's id, and so not under its own new id when the two differ. |
| Dashboard.ScrapingEntryKeepingStoreId | app/admin/dashboard/page.tsx:108 | Corrected mapping: the listed id is always the document's own id. Type is "scraping" and the other data is carried over. |
| Dashboard.ResubmittedEditListsNewId | app/admin/dashboard/page.tsx:108 | With the corrected mapping, a resubmitted edit is listed under its own new id. |
| Dashboard.CollectSnippets | app/admin/dashboard/page.tsx:96-101 | The `forEach` loop gives one entry per snapshot document, in snapshot order, each the document's id merged with its data. |
| Dashboard.CollectScrapingSnippets | app/admin/dashboard/page.tsx:105-110 | The same loop for the scraping collection. Every entry is tagged "scraping". |
| Dashboard.GuardRedirect | app/admin/dashboard/page.tsx:72-76 | The page redirects to "/admin/login" iff the session has resolved and there is no user. |
| Dashboard.GuardView | app/admin/dashboard/page.tsx:223-236 | The page shows the loading view iff loading, nothing iff resolved without a user, and the dashboard iff resolved with a user. |
| Dashboard.RedirectExactlyWhenBlank | app/admin/dashboard/page.tsx:72-76 | The redirect happens exactly when the page renders nothing. |
| Dashboard.InitialFormObeysPluginRule | app/admin/dashboard/page.tsx:46-57 | The initial draft (CASE, "") obeys the plugin-type rule and has the ten form properties. |
| Dashboard.Offered | app/admin/dashboard/page.tsx:299-400 | The events the general form offers: any text edit, category choice or file load; a plugin-type choice of ESM or CJS only while the selector is shown (358-369); a submit only with the required fields filled (301, 310, 319). |
| Dashboard.Step | app/admin/dashboard/page.tsx:299-394 | Each event applies its input's updater. A stored submit resets the draft to the initial one (142-153), and a failed one keeps it. StepKeepsPluginRule states what it preserves. |
| Dashboard.Run | app/admin/dashboard/page.tsx:299-400 | The draft after a sequence of events, where an event the page does not offer never arrives. RunKeepsPluginRule and ReachableDraftsObeyPluginRule state what it preserves. |
| Dashboard.StepKeepsPluginRule | app/admin/dashboard/page.tsx:299-397 | Every draft transition the page offers keeps the plugin-type rule and the draft's properties: text edits, category and plugin-type choices, file loads and submit outcomes. |
| Dashboard.RunKeepsPluginRule | app/admin/dashboard/page.tsx:339-373 | Any sequence of offered events keeps the plugin-type rule. |
| Dashboard.ReachableDraftsObeyPluginRule | app/admin/dashboard/page.tsx:46-57 | Every draft reachable from the initial draft has a non-empty plugin type iff its category is PLUGINS, and that type is ESM or CJS. |
| Dashboard.SubmitEffects | app/admin/dashboard/page.tsx:129-192 | What a submit emits: the write, then a success notification and the move to "/posts", or an error notification. HandleSubmit and HandleScrapingSubmit are stated with it. |
| Dashboard.CodeDeleteEffects | app/admin/dashboard/page.tsx:194-201 | What `handleDelete` emits: the delete of the id from "snippets", then its success or failure notification. |
| Dashboard.ScrapingDeleteEffects | app/admin/dashboard/page.tsx:203-210 | The same for `handleScrapingDelete` and "scraping_snippets". |
| Dashboard.DeleteCallbackRejects | app/admin/dashboard/page.tsx:194-210 | Both dashboard callbacks catch every store failure, so their promise never rejects, whatever the store did. |
| Dashboard.ConfirmedDelete | app/components/CodeManagementTable.tsx:45-48 | A confirmed delete in a table: the callback call with the looked-up type, what the callback emits, then the table's own notification. |
| Dashboard.ConfirmedCodeDelete | app/admin/dashboard/page.tsx:425 | The general table wired to `handleDelete`. |
| Dashboard.ConfirmedScrapingDelete | app/admin/dashboard/page.tsx:436-440 | The scraping table wired to `handleScrapingDelete`. |
| Dashboard.FailedCodeDeleteAlsoReportedAsSuccess | app/admin/dashboard/page.tsx:194-201 | As written, a failed general delete emits both the dashboard's failure notification and the table's success notification. |
| Dashboard.FailedDeleteAlsoReportedAsSuccess | app/admin/dashboard/page.tsx:203-210 | As written, a failed scraping delete emits both the dashboard's failure notification and the table's success notification. |
| Dashboard.DeleteCallbackRejectsOnFailure | app/admin/dashboard/page.tsx:203-210 | Corrected callback: its promise rejects iff the store failed. |
| Dashboard.ConfirmedDeleteReportsOutcome | app/admin/dashboard/page.tsx:203-210 | With the corrected callback, the scraping table reports success iff the store deleted, and its own failure iff it did not. |
| Dashboard.ConfirmedCodeDeleteReportsOutcome | app/admin/dashboard/page.tsx:194-201 | With the corrected callback, the general table reports success iff the store deleted, and its failure iff it did not. |
| Dashboard.AdminDashboard.constructor | app/admin/dashboard/page.tsx:41-70 | The page starts with the initial drafts, tab "upload", no file, empty lists, no upload in flight, and the plugin-type rule holding. |
| Dashboard.AdminDashboard.EditField | app/admin/dashboard/page.tsx:299-394 | A general-form text input updates the draft by `WithText` and keeps the invariant. |
| Dashboard.AdminDashboard.EditScrapingField | app/admin/dashboard/page.tsx:523-574 | A scraping-form text input updates the scraping draft by `WithText`. |
| Dashboard.AdminDashboard.ChangeCategory | app/admin/dashboard/page.tsx:341-346 | The category selector updates the draft by `WithCategory` and keeps the invariant. |
| Dashboard.AdminDashboard.ChangePluginType | app/admin/dashboard/page.tsx:358-373 | The plugin-type selector, rendered only under PLUGINS and offering ESM or CJS, updates the draft by `WithPluginType` and keeps the invariant. |
| Dashboard.AdminDashboard.HandleFileChange | app/admin/dashboard/page.tsx:119-127 | Only for a JavaScript file: records the file, replaces `code` and emits the success notification. Otherwise nothing changes. |
| Dashboard.AdminDashboard.HandleSubmit | app/admin/dashboard/page.tsx:129-160 | Writes the stamped draft to "snippets". On success it resets the draft to exactly the initial defaults, notifies and navigates to "/posts". On failure it keeps the draft and emits the failure notification. The upload flag always ends false. |
| Dashboard.AdminDashboard.HandleScrapingSubmit | app/admin/dashboard/page.tsx:162-192 | The same for the scraping draft, collection "scraping_snippets" and the scraping defaults. |
| Dashboard.AdminDashboard.HandleScrapingEdit | app/admin/dashboard/page.tsx:212-221 | The scraping draft becomes `EditDraft(snippet)` and the active tab becomes "scraping". |
| Dashboard.AdminDashboard.OnSnapshot | app/admin/dashboard/page.tsx:95-102 | A general snapshot replaces the listed snippets with one entry per document, in order. |
| Dashboard.AdminDashboard.OnScrapingSnapshot | app/admin/dashboard/page.tsx:104-111 | A scraping snapshot replaces the listed scraping snippets with one tagged entry per document, in order. |
| Dashboard.AdminDashboard.HandleDelete | app/admin/dashboard/page.tsx:194-201 | Deletes from "snippets" and emits the success or failure notification. Its promise never rejects. |
| Dashboard.AdminDashboard.HandleScrapingDelete | app/admin/dashboard/page.tsx:203-210 | Deletes from "scraping_snippets" and emits the success or failure notification. Its promise never rejects. |

## Findings

| source | as written | input that shows it | evidently intended | confidence | as-written member | corrected member |
|---|---|---|---|---|---|---|
| app/admin/dashboard/page.tsx:108 | The scraping listing spreads the stored data after the document id. The edit pre-fill copies the listed entry's `id` into the draft, and the submit writes it into the new document. So the new document is listed under the old document's id, and deleting its row deletes the old document. | Reachable only once `TableHeader` is imported in the table (see "## Left out"). Edit the listed entry with id "A" and submit it. The store gives the new document id "B", and its stored data holds `id` = "A". It is then listed with id "A". | A listed entry's id is the id of the document it lists. | not executed; high | Dashboard.ResubmittedEditListsOldId | Dashboard.ResubmittedEditListsNewId |
| app/admin/dashboard/page.tsx:203-210 | Both of the dashboard's delete callbacks (`handleDelete` at 194-201 and `handleScrapingDelete` at 203-210) catch every store failure, so their promise always resolves. The table's failure branch (app/components/CodeManagementTable.tsx:47-48) therefore never runs, and a failed delete in either tab is also reported as a success. FailedCodeDeleteAlsoReportedAsSuccess and ConfirmedCodeDeleteReportsOutcome are the same pair for the general tab. | Reachable only once `TableHeader` is imported in the table (see "## Left out"). The store rejects the delete of "A". The effects include both "Failed to delete scraping snippet" and "Code snippet deleted successfully". | One delete reports one outcome, and the table's notification matches it. | not executed; medium | Dashboard.FailedDeleteAlsoReportedAsSuccess | Dashboard.ConfirmedDeleteReportsOutcome |

In both rows the corrected definition is proved beside the as-written one. The dashboard class
still uses the as-written behaviour, because it models the page as it is:
`CollectScrapingSnippets` uses `ScrapingEntry`, and `HandleScrapingDelete` never rejects.

## Left out

- The document store (writes, deletes, live queries, counts) is external. Each call is an
  outcome parameter or a given list of documents, and each request is recorded as an effect.
- The stats counts and the visitor chart are left out. The counts are remote results and the
  chart is fixed sample data.
- Handlers run to completion in one step, with no interleaving during an `await`. So
  `isDeleting` and the upload flags are true only inside a handler. The disabled buttons that
  rely on them, and edits made while a request is in flight, are not modelled.
- In the real dialog, the confirm button's click also closes the dialog and fires
  `onOpenChange`. This ordering is not modelled. `HandleDelete` reads the armed id before
  anything clears it.
- Subscription teardown, notifications and navigation as behaviour are left out. They appear
  only as effect-log entries.
- The file's text, the clock's ISO timestamp and the localised date shown on cards and rows
  are inputs or left out, because they depend on foreign, clock or locale code.
- The session user is an optional record holding an address. A user whose address is null is
  not modelled, so `author` is always a string.
- Dafny strings are sequences of Unicode characters, and JavaScript's `slice` counts UTF-16
  code units. The two differ only for characters outside the Basic Multilingual Plane.
- Js.Slice: models non-negative arguments only, the only kind the cards use.
- JSX layout, styling, icons and the chart and dialog libraries are left out.
- The tab strip is left out. `Tabs` is given `defaultValue` and never reads `activeTab`, so
  the model keeps `activeTab` as page state only. The tab the strip shows is not modelled.
- The general management tab passes no edit callback to its table. This wiring gap is not
  modelled.
- The portfolio page, the root layout and the detail pages are not part of this model.
- ManagementTable.CodeManagementTable: app/components/CodeManagementTable.tsx:59-69 renders `TableHeader`, but line 4 does not import it. As written, the table throws a `ReferenceError` when it renders, so neither management tab shows rows, buttons or the dialog. The model assumes the import is there and describes the table as its author evidently intended.
