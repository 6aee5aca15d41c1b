/** The admin dashboard page: the two upload drafts and the rules that update them, the
    documents a submit writes, the edit path that pre-fills the scraping draft, the mapping
    from store snapshots to listed snippets, the session guard, and the delete callbacks it
    hands to the management tables. */
module Dashboard {
  import opened Js
  import opened Ui
  import ManagementTable

  /** The inputs that each edit one text property of a draft. */
  datatype TextField = Title | Description | Code | Code2 | Watermark | GithubLink | WhatsappLink
  {
    function Key(): (k: string)
      ensures k in InitialForm && k in InitialScrapingForm
      ensures k != "category" && k != "pluginType" && k != "language"
    {
      match this
      case Title => "title"
      case Description => "description"
      case Code => "code"
      case Code2 => "code2"
      case Watermark => "watermark"
      case GithubLink => "githubLink"
      case WhatsappLink => "whatsappLink"
    }
  }

  /** The general draft when the page mounts and after a successful submit. */
  const InitialForm: Doc := map[
    "title" := "", "description" := "", "code" := "", "code2" := "",
    "language" := "JavaScript", "category" := "CASE", "pluginType" := "",
    "watermark" := "", "githubLink" := "", "whatsappLink" := ""]

  /** The scraping draft when the page mounts and after a successful submit. */
  const InitialScrapingForm: Doc := map[
    "title" := "", "description" := "", "code" := "", "code2" := "",
    "language" := "Python", "category" := "Web Scraping",
    "watermark" := "", "githubLink" := "", "whatsappLink" := ""]

  /** Both drafts start with every text input empty. The general draft starts in JavaScript
      under CASE with no plugin type; the scraping draft starts in Python under Web Scraping and
      has no plugin-type property at all. */
  lemma InitialDraftsDefaults()
    ensures forall f: TextField :: InitialForm[f.Key()] == "" && InitialScrapingForm[f.Key()] == ""
    ensures InitialForm["language"] == "JavaScript" && InitialForm["category"] == "CASE"
    ensures InitialForm["pluginType"] == ""
    ensures InitialScrapingForm["language"] == "Python" && InitialScrapingForm["category"] == "Web Scraping"
    ensures "pluginType" !in InitialScrapingForm
  {
  }

  /** The general draft has exactly the properties of the initial draft. */
  predicate GeneralShape(d: Doc)
  {
    d.Keys == InitialForm.Keys
  }

  /** A plugin type, ESM or CJS, is chosen exactly when the category is PLUGINS. */
  predicate PluginRule(d: Doc)
  {
    && "category" in d && "pluginType" in d
    && (d["pluginType"] == "" || d["pluginType"] == "ESM" || d["pluginType"] == "CJS")
    && (d["pluginType"] != "" <==> d["category"] == "PLUGINS")
  }

  /** The plugin-type selector is rendered only while the category is PLUGINS. */
  predicate PluginSelectorShown(d: Doc)
  {
    Get(d, "category") == Some("PLUGINS")
  }

  /** The browser's `required` check on title, description and code. */
  predicate RequiredFilled(d: Doc)
  {
    Truthy(Get(d, "title")) && Truthy(Get(d, "description")) && Truthy(Get(d, "code"))
  }

  /** A text input's updater `prev => ({ ...prev, [field]: value })`. */
  function WithText(d: Doc, field: TextField, value: string): (r: Doc)
    ensures r.Keys == d.Keys + {field.Key()}
    ensures r[field.Key()] == value
    ensures forall k :: k in d && k != field.Key() ==> r[k] == d[k]
  {
    d[field.Key() := value]
  }

  /** The category selector's updater: the new category, and the plugin type forced to ESM
      for PLUGINS and cleared otherwise; every other property as it was. */
  function WithCategory(d: Doc, value: string): (r: Doc)
    ensures r.Keys == d.Keys + {"category", "pluginType"}
    ensures r["category"] == value
    ensures r["pluginType"] == if value == "PLUGINS" then "ESM" else ""
    ensures forall k :: k in d && k != "category" && k != "pluginType" ==> r[k] == d[k]
    ensures PluginRule(r)
  {
    d["category" := value]["pluginType" := if value == "PLUGINS" then "ESM" else ""]
  }

  /** The plugin-type selector's updater: only the plugin type changes. */
  function WithPluginType(d: Doc, value: string): (r: Doc)
    ensures r.Keys == d.Keys + {"pluginType"}
    ensures r["pluginType"] == value
    ensures forall k :: k in d && k != "pluginType" ==> r[k] == d[k]
  {
    d["pluginType" := value]
  }

  /** Leaving PLUGINS and coming back forgets an earlier CJS choice: the draft is the one
      that choosing PLUGINS directly would give, with plugin type ESM. */
  lemma ReselectingPluginsRestoresEsm(d: Doc, choice: string)
    ensures WithCategory(WithCategory(WithPluginType(d, choice), "CASE"), "PLUGINS") == WithCategory(d, "PLUGINS")
    ensures WithCategory(WithCategory(WithPluginType(d, choice), "CASE"), "PLUGINS")["pluginType"] == "ESM"
  {
    var back := WithCategory(WithCategory(WithPluginType(d, choice), "CASE"), "PLUGINS");
    assert back.Keys == WithCategory(d, "PLUGINS").Keys;
  }

  /** What the file input hands over: the first selected file, if any. */
  datatype FileInfo = FileInfo(name: string, mimeType: string)

  predicate AcceptsFile(file: Option<FileInfo>)
  {
    file.Some? && file.value.mimeType == "application/javascript"
  }

  /** `handleFileChange`'s draft update: a JavaScript file's whole text replaces the code;
      any other file, or none, leaves the draft alone. */
  function WithLoadedCode(d: Doc, file: Option<FileInfo>, text: string): (r: Doc)
    ensures !AcceptsFile(file) ==> r == d
    ensures AcceptsFile(file) ==> r.Keys == d.Keys + {"code"} && r["code"] == text
    ensures forall k :: k in d && k != "code" ==> r[k] == d[k]
  {
    if AcceptsFile(file) then d["code" := text] else d
  }

  /** The document a submit writes: the draft spread first, then `author` and `date`, which
      therefore override draft properties of the same names. */
  function BuildDocument(d: Doc, email: string, now: string): (doc: Doc)
    ensures doc.Keys == d.Keys + {"author", "date"}
    ensures doc["author"] == email && doc["date"] == now
    ensures forall k :: k in d && k != "author" && k != "date" ==> doc[k] == d[k]
  {
    d["author" := email]["date" := now]
  }

  /** Taking the stamp off a written document gives back the draft, stamp-free. */
  lemma DocumentRecoversDraft(d: Doc, email: string, now: string)
    ensures BuildDocument(d, email, now) - {"author", "date"} == d - {"author", "date"}
  {
    var doc := BuildDocument(d, email, now);
    assert (doc - {"author", "date"}).Keys == (d - {"author", "date"}).Keys;
  }

  /** A written general document keeps the plugin-type rule and the required fields. */
  lemma DocumentKeepsDraftRules(d: Doc, email: string, now: string)
    requires PluginRule(d) && RequiredFilled(d)
    ensures PluginRule(BuildDocument(d, email, now)) && RequiredFilled(BuildDocument(d, email, now))
    ensures BuildDocument(d, email, now)["category"] == "PLUGINS" ==>
              BuildDocument(d, email, now)["pluginType"] in {"ESM", "CJS"}
  {
  }

  /** `handleScrapingEdit`'s new scraping draft: every property of the snippet, with the four
      optional ones present and "" where the snippet lacks them. */
  function EditDraft(snippet: Doc): (r: Doc)
    ensures r.Keys == snippet.Keys + {"code2", "watermark", "githubLink", "whatsappLink"}
    ensures r["code2"] == TextOf(snippet, "code2")
    ensures r["watermark"] == TextOf(snippet, "watermark")
    ensures r["githubLink"] == TextOf(snippet, "githubLink")
    ensures r["whatsappLink"] == TextOf(snippet, "whatsappLink")
    ensures forall k :: k in snippet ==> r[k] == snippet[k]
  {
    snippet
      ["code2" := OrElse(Get(snippet, "code2"), "")]
      ["watermark" := OrElse(Get(snippet, "watermark"), "")]
      ["githubLink" := OrElse(Get(snippet, "githubLink"), "")]
      ["whatsappLink" := OrElse(Get(snippet, "whatsappLink"), "")]
  }

  /** A stored document as a snapshot delivers it: its id and its data. */
  datatype StoredDoc = StoredDoc(id: string, data: Doc)

  /** `{ id: doc.id, ...doc.data() }` */
  function SnippetEntry(d: StoredDoc): (r: Doc)
    ensures r.Keys == d.data.Keys + {"id"}
    ensures forall k :: k in d.data ==> r[k] == d.data[k]
    ensures "id" !in d.data ==> r["id"] == d.id
  {
    map["id" := d.id] + d.data
  }

  /** `{ id: doc.id, ...doc.data(), type: "scraping" }` */
  function ScrapingEntry(d: StoredDoc): Doc
  {
    (map["id" := d.id] + d.data)["type" := "scraping"]
  }

  /** Every listed scraping snippet carries the scraping tag and the stored data otherwise. */
  lemma ScrapingEntryTagged(d: StoredDoc)
    ensures ScrapingEntry(d).Keys == d.data.Keys + {"id", "type"}
    ensures ScrapingEntry(d)["type"] == "scraping"
    ensures forall k :: k in d.data && k != "type" ==> ScrapingEntry(d)[k] == d.data[k]
  {
  }

  /** Because the data is spread after the id, a stored `id` property wins over the
      document's own id. */
  lemma EntryIdComesFromData(d: StoredDoc)
    ensures SnippetEntry(d)["id"] == (if "id" in d.data then d.data["id"] else d.id)
    ensures ScrapingEntry(d)["id"] == (if "id" in d.data then d.data["id"] else d.id)
  {
  }

  /** Editing a listed scraping snippet and submitting it writes a new document that still
      carries the old id, so the new document is listed under the old one's id. */
  lemma ResubmittedEditListsOldId(entry: Doc, newId: string, email: string, now: string)
    requires "id" in entry
    ensures var doc := BuildDocument(EditDraft(entry), email, now);
            ScrapingEntry(StoredDoc(newId, doc))["id"] == entry["id"]
    ensures var doc := BuildDocument(EditDraft(entry), email, now);
            entry["id"] != newId ==> ScrapingEntry(StoredDoc(newId, doc))["id"] != newId
  {
    var doc := BuildDocument(EditDraft(entry), email, now);
    assert doc["id"] == entry["id"];
  }

  /** The same mapping with the document's id spread last, so that it always wins. */
  function ScrapingEntryKeepingStoreId(d: StoredDoc): (r: Doc)
    ensures r.Keys == d.data.Keys + {"id", "type"}
    ensures r["id"] == d.id && r["type"] == "scraping"
    ensures forall k :: k in d.data && k != "id" && k != "type" ==> r[k] == d.data[k]
  {
    (d.data + map["id" := d.id])["type" := "scraping"]
  }

  /** With the store's id winning, a resubmitted edit is listed under its own new id. */
  lemma ResubmittedEditListsNewId(entry: Doc, newId: string, email: string, now: string)
    ensures ScrapingEntryKeepingStoreId(StoredDoc(newId, BuildDocument(EditDraft(entry), email, now)))["id"] == newId
  {
  }

  /** The general snapshot handler's `forEach` loop. */
  method CollectSnippets(docs: seq<StoredDoc>) returns (entries: seq<Doc>)
    ensures |entries| == |docs|
    ensures forall i :: 0 <= i < |docs| ==> entries[i] == SnippetEntry(docs[i])
  {
    entries := [];
    var i := 0;
    while i < |docs|
      invariant 0 <= i <= |docs|
      invariant |entries| == i
      invariant forall j :: 0 <= j < i ==> entries[j] == SnippetEntry(docs[j])
    {
      entries := entries + [SnippetEntry(docs[i])];
      i := i + 1;
    }
  }

  /** The scraping snapshot handler's `forEach` loop: the entries in snapshot order, each
      tagged as a scraping snippet. */
  method CollectScrapingSnippets(docs: seq<StoredDoc>) returns (entries: seq<Doc>)
    ensures |entries| == |docs|
    ensures forall i :: 0 <= i < |docs| ==> entries[i] == ScrapingEntry(docs[i])
    ensures forall i :: 0 <= i < |docs| ==> "type" in entries[i] && entries[i]["type"] == "scraping"
  {
    entries := [];
    var i := 0;
    while i < |docs|
      invariant 0 <= i <= |docs|
      invariant |entries| == i
      invariant forall j :: 0 <= j < i ==> entries[j] == ScrapingEntry(docs[j])
    {
      entries := entries + [ScrapingEntry(docs[i])];
      i := i + 1;
    }
  }

  /** The signed-in identity, as far as the page uses it. */
  datatype User = User(email: string)

  datatype PageView = LoadingView | NoView | DashboardView

  /** The redirect effect: to the login page once the session has resolved without a user. */
  function GuardRedirect(loading: bool, user: Option<User>): (r: Option<string>)
    ensures r.Some? <==> !loading && user.None?
    ensures r.Some? ==> r.value == "/admin/login"
  {
    if !loading && user.None? then Some("/admin/login") else None
  }

  /** What the page renders: a loading view while the session resolves, nothing without a
      user, the dashboard otherwise. */
  function GuardView(loading: bool, user: Option<User>): (v: PageView)
    ensures v == LoadingView <==> loading
    ensures v == NoView <==> !loading && user.None?
    ensures v == DashboardView <==> !loading && user.Some?
  {
    if loading then LoadingView else if user.None? then NoView else DashboardView
  }

  /** The page redirects exactly when it renders nothing: never while loading, and never
      away from a rendered dashboard. */
  lemma RedirectExactlyWhenBlank(loading: bool, user: Option<User>)
    ensures GuardRedirect(loading, user).Some? <==> GuardView(loading, user) == NoView
  {
  }

  /** The initial general draft obeys the plugin-type rule. */
  lemma InitialFormObeysPluginRule()
    ensures GeneralShape(InitialForm) && PluginRule(InitialForm)
  {
  }

  /** The events the general draft receives from its inputs. */
  datatype FormEvent =
    | EditText(field: TextField, value: string)
    | PickCategory(category: string)
    | PickPluginType(pluginType: string)
    | LoadFile(file: Option<FileInfo>, text: string)
    | Submit(stored: bool)

  /** Whether the page offers an event for draft `d`: the plugin-type selector exists only
      under PLUGINS and lists only ESM and CJS; the browser submits only with the required
      fields filled; the other inputs are always there. */
  predicate Offered(d: Doc, e: FormEvent)
  {
    match e
    case PickPluginType(v) => PluginSelectorShown(d) && (v == "ESM" || v == "CJS")
    case Submit(_) => RequiredFilled(d)
    case _ => true
  }

  /** The draft after one event. */
  function Step(d: Doc, e: FormEvent): Doc
  {
    match e
    case EditText(f, v) => WithText(d, f, v)
    case PickCategory(c) => WithCategory(d, c)
    case PickPluginType(v) => WithPluginType(d, v)
    case LoadFile(file, text) => WithLoadedCode(d, file, text)
    case Submit(stored) => if stored then InitialForm else d
  }

  /** The draft after a sequence of events; an event the page does not offer never arrives. */
  function Run(d: Doc, events: seq<FormEvent>): Doc
    decreases |events|
  {
    if events == [] then d
    else Run(if Offered(d, events[0]) then Step(d, events[0]) else d, events[1..])
  }

  lemma StepKeepsPluginRule(d: Doc, e: FormEvent)
    requires GeneralShape(d) && PluginRule(d) && Offered(d, e)
    ensures GeneralShape(Step(d, e)) && PluginRule(Step(d, e))
  {
  }

  lemma {:induction false} RunKeepsPluginRule(d: Doc, events: seq<FormEvent>)
    requires GeneralShape(d) && PluginRule(d)
    ensures GeneralShape(Run(d, events)) && PluginRule(Run(d, events))
    decreases |events|
  {
    if events != [] {
      var next := if Offered(d, events[0]) then Step(d, events[0]) else d;
      if Offered(d, events[0]) {
        StepKeepsPluginRule(d, events[0]);
      }
      RunKeepsPluginRule(next, events[1..]);
    }
  }

  /** Every draft the general form can reach obeys the plugin-type rule. */
  lemma ReachableDraftsObeyPluginRule(events: seq<FormEvent>)
    ensures GeneralShape(Run(InitialForm, events)) && PluginRule(Run(InitialForm, events))
  {
    RunKeepsPluginRule(InitialForm, events);
  }

  /** The two store collections, the listing page a successful upload moves to, and the
      dashboard's notifications. */
  const CodeCollection := "snippets"
  const ScrapingCollection := "scraping_snippets"
  const ListingPath := "/posts"
  const FileLoaded := "JavaScript file loaded successfully"
  const CodeUploaded := "Code snippet uploaded successfully!"
  const CodeUploadFailed := "Failed to upload code snippet"
  const ScrapingUploaded := "Scraping snippet uploaded successfully!"
  const ScrapingUploadFailed := "Failed to upload scraping snippet"
  const CodeDeleted := "Code snippet deleted successfully!"
  const CodeDeleteFailed := "Failed to delete code snippet"
  const ScrapingDeleted := "Scraping snippet deleted successfully!"
  const ScrapingDeleteFailed := "Failed to delete scraping snippet"

  /** What a submit emits: the write, then on success a notification and the move to the
      listing, on failure an error notification. */
  function SubmitEffects(collection: string, doc: Doc, stored: bool, okMessage: string, failMessage: string): seq<Effect>
  {
    [AddDoc(collection, doc)] +
    (if stored then [Toast(Success, okMessage), Navigate(ListingPath)] else [Toast(Error, failMessage)])
  }

  /** What `handleDelete` / `handleScrapingDelete` emit. */
  function StoreDeleteEffects(collection: string, id: string, stored: bool, okMessage: string, failMessage: string): seq<Effect>
  {
    [DeleteDoc(collection, id), if stored then Toast(Success, okMessage) else Toast(Error, failMessage)]
  }

  function CodeDeleteEffects(id: string, stored: bool): seq<Effect>
  {
    StoreDeleteEffects(CodeCollection, id, stored, CodeDeleted, CodeDeleteFailed)
  }

  function ScrapingDeleteEffects(id: string, stored: bool): seq<Effect>
  {
    StoreDeleteEffects(ScrapingCollection, id, stored,
                       ScrapingDeleted, ScrapingDeleteFailed)
  }

  /** Whether the promise of the dashboard's delete callbacks rejects: they catch every store
      failure, so it never does. */
  function DeleteCallbackRejects(stored: bool): bool
  {
    false
  }

  /** A confirmed delete in a management table, from the table's callback call to its
      notification: the callback emits `callback`, and its promise rejects exactly when
      `rejected`. */
  function ConfirmedDelete(snippets: seq<Doc>, id: string, callback: seq<Effect>, rejected: bool): seq<Effect>
  {
    [OnDeleteCalled(id, ManagementTable.DeleteType(snippets, id))] + callback + [ManagementTable.SettleToast(rejected)]
  }

  /** The same in the general table, wired to `handleDelete`. */
  function ConfirmedCodeDelete(snippets: seq<Doc>, id: string, stored: bool, rejected: bool): seq<Effect>
  {
    ConfirmedDelete(snippets, id, CodeDeleteEffects(id, stored), rejected)
  }

  /** The same in the scraping table, wired to `handleScrapingDelete`. */
  function ConfirmedScrapingDelete(snippets: seq<Doc>, id: string, stored: bool, rejected: bool): seq<Effect>
  {
    ConfirmedDelete(snippets, id, ScrapingDeleteEffects(id, stored), rejected)
  }

  /** As written, a failed general delete is reported twice, once as a failure by the dashboard
      and once as a success by the table. */
  lemma FailedCodeDeleteAlsoReportedAsSuccess(snippets: seq<Doc>, id: string)
    ensures var e := ConfirmedCodeDelete(snippets, id, false, DeleteCallbackRejects(false));
            Toast(Error, CodeDeleteFailed) in e
            && Toast(Success, ManagementTable.Deleted) in e
  {
    var e := ConfirmedCodeDelete(snippets, id, false, DeleteCallbackRejects(false));
    assert e[2] == Toast(Error, CodeDeleteFailed);
    assert e[3] == Toast(Success, ManagementTable.Deleted);
  }

  /** The same for a failed scraping delete. */
  lemma FailedDeleteAlsoReportedAsSuccess(snippets: seq<Doc>, id: string)
    ensures var e := ConfirmedScrapingDelete(snippets, id, false, DeleteCallbackRejects(false));
            Toast(Error, ScrapingDeleteFailed) in e
            && Toast(Success, ManagementTable.Deleted) in e
  {
    var e := ConfirmedScrapingDelete(snippets, id, false, DeleteCallbackRejects(false));
    assert e[2] == Toast(Error, ScrapingDeleteFailed);
    assert e[3] == Toast(Success, ManagementTable.Deleted);
  }

  /** A delete callback that lets the store's failure reach the table. */
  function DeleteCallbackRejectsOnFailure(stored: bool): (rejected: bool)
    ensures rejected <==> !stored
  {
    !stored
  }

  /** With a rejecting callback the scraping table reports success exactly when the store
      deleted, and its own failure exactly when it did not. */
  lemma ConfirmedDeleteReportsOutcome(snippets: seq<Doc>, id: string, stored: bool)
    ensures var e := ConfirmedScrapingDelete(snippets, id, stored, DeleteCallbackRejectsOnFailure(stored));
            (Toast(Success, ManagementTable.Deleted) in e <==> stored)
            && (Toast(Error, ManagementTable.DeleteFailed) in e <==> !stored)
  {
    var e := ConfirmedScrapingDelete(snippets, id, stored, DeleteCallbackRejectsOnFailure(stored));
    assert e[3] == ManagementTable.SettleToast(!stored);
  }

  /** The same in the general table. There the dashboard's failure text is the table's own, so
      a failed delete shows the failure text twice, and a successful one shows no failure text. */
  lemma ConfirmedCodeDeleteReportsOutcome(snippets: seq<Doc>, id: string, stored: bool)
    ensures var e := ConfirmedCodeDelete(snippets, id, stored, DeleteCallbackRejectsOnFailure(stored));
            (Toast(Success, ManagementTable.Deleted) in e <==> stored)
            && (Toast(Error, ManagementTable.DeleteFailed) in e <==> !stored)
  {
    var e := ConfirmedCodeDelete(snippets, id, stored, DeleteCallbackRejectsOnFailure(stored));
    assert e[3] == ManagementTable.SettleToast(!stored);
  }

  class AdminDashboard {
    var formData: Doc
    var scrapingFormData: Doc
    var uploading: bool
    var scrapingUploading: bool
    var activeTab: string
    var selectedFile: Option<FileInfo>
    var snippets: seq<Doc>
    var scrapingSnippets: seq<Doc>
    /** The store calls, notifications and navigations emitted so far. */
    var effects: seq<Effect>

    /** Between handlers: the general draft has its ten properties and obeys the plugin-type
        rule, and no upload is in flight. */
    ghost predicate Valid()
      reads this
    {
      GeneralShape(formData) && PluginRule(formData) && !uploading && !scrapingUploading
    }

    constructor ()
      ensures Valid()
      ensures formData == InitialForm && scrapingFormData == InitialScrapingForm
      ensures activeTab == "upload" && selectedFile == None
      ensures snippets == [] && scrapingSnippets == [] && effects == []
    {
      formData := InitialForm;
      scrapingFormData := InitialScrapingForm;
      uploading := false;
      scrapingUploading := false;
      activeTab := "upload";
      selectedFile := None;
      snippets := [];
      scrapingSnippets := [];
      effects := [];
    }

    method EditField(field: TextField, value: string)
      requires Valid()
      modifies this`formData
      ensures Valid()
      ensures formData == WithText(old(formData), field, value)
    {
      formData := WithText(formData, field, value);
    }

    method EditScrapingField(field: TextField, value: string)
      modifies this`scrapingFormData
      ensures scrapingFormData == WithText(old(scrapingFormData), field, value)
    {
      scrapingFormData := WithText(scrapingFormData, field, value);
    }

    method ChangeCategory(value: string)
      requires Valid()
      modifies this`formData
      ensures Valid()
      ensures formData == WithCategory(old(formData), value)
    {
      formData := WithCategory(formData, value);
    }

    method ChangePluginType(value: string)
      requires Valid() && PluginSelectorShown(formData) && (value == "ESM" || value == "CJS")
      modifies this`formData
      ensures Valid()
      ensures formData == WithPluginType(old(formData), value)
    {
      formData := WithPluginType(formData, value);
    }

    /** `handleFileChange`, with the file's text already read. */
    method HandleFileChange(file: Option<FileInfo>, text: string)
      requires Valid()
      modifies this`formData, this`selectedFile, this`effects
      ensures Valid()
      ensures formData == WithLoadedCode(old(formData), file, text)
      ensures AcceptsFile(file) ==> selectedFile == file
      ensures AcceptsFile(file) ==> effects == old(effects) + [Toast(Success, FileLoaded)]
      ensures !AcceptsFile(file) ==> selectedFile == old(selectedFile) && effects == old(effects)
    {
      if AcceptsFile(file) {
        selectedFile := file;
        formData := WithLoadedCode(formData, file, text);
        effects := effects + [Toast(Success, FileLoaded)];
      }
    }

    /** `handleSubmit`: `email` is the session's address, `now` the ISO timestamp and
        `stored` whether the store accepted the write. */
    method HandleSubmit(email: string, now: string, stored: bool)
      requires Valid() && RequiredFilled(formData)
      modifies this`formData, this`uploading, this`effects
      ensures Valid()
      ensures effects == old(effects) + SubmitEffects(CodeCollection, BuildDocument(old(formData), email, now), stored,
                                                      CodeUploaded, CodeUploadFailed)
      ensures formData == if stored then InitialForm else old(formData)
    {
      InitialFormObeysPluginRule();
      uploading := true;
      var codeData := BuildDocument(formData, email, now);
      var outcome: seq<Effect>;
      if stored {
        outcome := [Toast(Success, CodeUploaded), Navigate(ListingPath)];
        formData := InitialForm;
      } else {
        outcome := [Toast(Error, CodeUploadFailed)];
      }
      effects := effects + [AddDoc(CodeCollection, codeData)] + outcome;
      uploading := false;
    }

    /** `handleScrapingSubmit`, like `handleSubmit` on the scraping draft and collection. */
    method HandleScrapingSubmit(email: string, now: string, stored: bool)
      requires Valid() && RequiredFilled(scrapingFormData)
      modifies this`scrapingFormData, this`scrapingUploading, this`effects
      ensures Valid()
      ensures effects == old(effects) + SubmitEffects(ScrapingCollection, BuildDocument(old(scrapingFormData), email, now), stored,
                                                      ScrapingUploaded, ScrapingUploadFailed)
      ensures scrapingFormData == if stored then InitialScrapingForm else old(scrapingFormData)
    {
      scrapingUploading := true;
      var scrapingData := BuildDocument(scrapingFormData, email, now);
      var outcome: seq<Effect>;
      if stored {
        outcome := [Toast(Success, ScrapingUploaded), Navigate(ListingPath)];
        scrapingFormData := InitialScrapingForm;
      } else {
        outcome := [Toast(Error, ScrapingUploadFailed)];
      }
      effects := effects + [AddDoc(ScrapingCollection, scrapingData)] + outcome;
      scrapingUploading := false;
    }

    /** `handleScrapingEdit`: the snippet pre-fills the scraping draft and the scraping tab is chosen. */
    method HandleScrapingEdit(snippet: Doc)
      modifies this`scrapingFormData, this`activeTab
      ensures scrapingFormData == EditDraft(snippet)
      ensures activeTab == "scraping"
    {
      scrapingFormData := EditDraft(snippet);
      activeTab := "scraping";
    }

    /** A snapshot of the general collection replaces the listed snippets. */
    method OnSnapshot(docs: seq<StoredDoc>)
      modifies this`snippets
      ensures |snippets| == |docs|
      ensures forall i :: 0 <= i < |docs| ==> snippets[i] == SnippetEntry(docs[i])
    {
      snippets := CollectSnippets(docs);
    }

    /** A snapshot of the scraping collection replaces the listed scraping snippets. */
    method OnScrapingSnapshot(docs: seq<StoredDoc>)
      modifies this`scrapingSnippets
      ensures |scrapingSnippets| == |docs|
      ensures forall i :: 0 <= i < |docs| ==> scrapingSnippets[i] == ScrapingEntry(docs[i])
    {
      scrapingSnippets := CollectScrapingSnippets(docs);
    }

    /** `handleDelete`, the general table's delete callback; its promise never rejects. */
    method HandleDelete(id: string, stored: bool) returns (rejected: bool)
      modifies this`effects
      ensures rejected == DeleteCallbackRejects(stored)
      ensures effects == old(effects) + CodeDeleteEffects(id, stored)
    {
      effects := effects + [DeleteDoc(CodeCollection, id)];
      if stored {
        effects := effects + [Toast(Success, CodeDeleted)];
      } else {
        effects := effects + [Toast(Error, CodeDeleteFailed)];
      }
      rejected := false;
    }

    /** `handleScrapingDelete`, the scraping table's delete callback; its promise never rejects. */
    method HandleScrapingDelete(id: string, stored: bool) returns (rejected: bool)
      modifies this`effects
      ensures rejected == DeleteCallbackRejects(stored)
      ensures effects == old(effects) + ScrapingDeleteEffects(id, stored)
    {
      effects := effects + [DeleteDoc(ScrapingCollection, id)];
      if stored {
        effects := effects + [Toast(Success, ScrapingDeleted)];
      } else {
        effects := effects + [Toast(Error, ScrapingDeleteFailed)];
      }
      rejected := false;
    }
  }
}
