/** The management table: one row per snippet with an edit and a delete action, and a
    confirmation dialog that stands between the delete action and the parent's delete
    callback. */
module ManagementTable {
  import opened Js
  import opened Ui

  /** What one row shows, and the snippet its actions act on. React renders an `undefined`
      cell as nothing. The localised date cell is not modelled. */
  datatype RowView = RowView(
    key: Option<string>,
    title: string,
    language: string,
    author: string,
    category: string,
    snippetType: string,
    snippet: Doc)

  function RowOf(s: Doc): RowView
  {
    RowView(Get(s, "id"), TextOf(s, "title"), TextOf(s, "language"), TextOf(s, "author"),
            TextOf(s, "category"), TextOf(s, "type"), s)
  }

  /** `snippets.map(...)`: the rows, one per snippet and in the same order. */
  function Rows(snippets: seq<Doc>): (rows: seq<RowView>)
    ensures |rows| == |snippets|
    ensures forall i :: 0 <= i < |rows| ==> rows[i].snippet == snippets[i] && rows[i].key == Get(snippets[i], "id")
    ensures forall i :: 0 <= i < |rows| ==> rows[i].title == TextOf(snippets[i], "title")
    ensures forall i :: 0 <= i < |rows| ==>
              && rows[i].language == TextOf(snippets[i], "language")
              && rows[i].author == TextOf(snippets[i], "author")
              && rows[i].category == TextOf(snippets[i], "category")
              && rows[i].snippetType == TextOf(snippets[i], "type")
  {
    seq(|snippets|, i requires 0 <= i < |snippets| => RowOf(snippets[i]))
  }

  /** `snippets.find((s) => s.id === id)`, as the position of the first match. */
  function FindById(snippets: seq<Doc>, id: string): (r: Option<nat>)
    ensures r.Some? ==> r.value < |snippets| && Get(snippets[r.value], "id") == Some(id)
    ensures r.Some? ==> forall j :: 0 <= j < r.value ==> Get(snippets[j], "id") != Some(id)
    ensures r.None? ==> forall j :: 0 <= j < |snippets| ==> Get(snippets[j], "id") != Some(id)
  {
    if snippets == [] then None
    else if Get(snippets[0], "id") == Some(id) then Some(0)
    else
      match FindById(snippets[1..], id)
      case None => None
      case Some(k) => Some(k + 1)
  }

  /** `snippets.find((s) => s.id === id)?.type || "regular"`: the type handed to the delete
      callback. */
  function DeleteType(snippets: seq<Doc>, id: string): string
  {
    match FindById(snippets, id)
    case None => "regular"
    case Some(i) => OrElse(Get(snippets[i], "type"), "regular")
  }

  /** The delete callback receives the type of the first row whose id matches, or "regular"
      when no row matches or that row's type is missing or empty. */
  lemma DeleteTypeOfFirstMatch(snippets: seq<Doc>, id: string, i: nat)
    requires i < |snippets| && Get(snippets[i], "id") == Some(id)
    requires forall j :: 0 <= j < i ==> Get(snippets[j], "id") != Some(id)
    ensures DeleteType(snippets, id) == OrElse(Get(snippets[i], "type"), "regular")
    ensures DeleteType(snippets, id) == "regular" <==> !Truthy(Get(snippets[i], "type")) || snippets[i]["type"] == "regular"
  {
  }

  lemma DeleteTypeNoMatch(snippets: seq<Doc>, id: string)
    requires forall j :: 0 <= j < |snippets| ==> Get(snippets[j], "id") != Some(id)
    ensures DeleteType(snippets, id) == "regular"
  {
  }

  /** What a confirmed delete emits: the callback call, then one notification that depends
      only on whether the callback's promise rejected. */
  const Deleted := "Code snippet deleted successfully"
  const DeleteFailed := "Failed to delete code snippet"

  function SettleToast(rejected: bool): Effect
  {
    if rejected then Toast(Error, DeleteFailed)
    else Toast(Success, Deleted)
  }

  function DeleteEffects(snippets: seq<Doc>, id: string, rejected: bool): seq<Effect>
  {
    [OnDeleteCalled(id, DeleteType(snippets, id)), SettleToast(rejected)]
  }

  class CodeManagementTable {
    /** The `snippets` property as last rendered. */
    var snippets: seq<Doc>
    /** The row armed for deletion; the dialog is open while it is truthy. */
    var deleteId: Option<string>
    var isDeleting: bool
    /** The callback calls and notifications emitted so far. */
    var effects: seq<Effect>

    /** No delete is in flight between handlers: each handler runs to its end. */
    ghost predicate Valid()
      reads this
    {
      !isDeleting
    }

    constructor (snippets: seq<Doc>)
      ensures Valid()
      ensures this.snippets == snippets && deleteId == None && effects == []
    {
      this.snippets := snippets;
      deleteId := None;
      isDeleting := false;
      effects := [];
    }

    /** `open={!!deleteId}` */
    predicate DialogOpen()
      reads this
    {
      Truthy(deleteId)
    }

    /** The parent re-renders the table with a new list. */
    method Rerender(snippets: seq<Doc>)
      modifies this`snippets
      ensures this.snippets == snippets
    {
      this.snippets := snippets;
    }

    /** A row's trash button only arms that row's id: nothing is deleted and nothing is emitted. */
    method ClickTrash(i: nat)
      requires i < |snippets|
      modifies this`deleteId
      ensures deleteId == Rows(snippets)[i].key
      ensures Truthy(Get(snippets[i], "id")) ==> DialogOpen()
    {
      deleteId := Get(snippets[i], "id");
    }

    /** A row's edit button hands that row's snippet, unchanged, to the edit callback. */
    method ClickEdit(i: nat) returns (edited: Doc)
      requires i < |snippets|
      ensures edited == snippets[i]
      ensures edited == Rows(snippets)[i].snippet
    {
      edited := Rows(snippets)[i].snippet;
    }

    /** `onOpenChange`: dismissing the dialog disarms it and calls nothing. */
    method DialogOpenChange()
      modifies this`deleteId
      ensures deleteId == None && !DialogOpen()
    {
      deleteId := None;
    }

    /** `handleDelete`, with `rejected` telling whether the callback's promise rejected. */
    method HandleDelete(rejected: bool)
      requires Valid()
      modifies this`deleteId, this`isDeleting, this`effects
      ensures Valid()
      ensures !old(DialogOpen()) ==> deleteId == old(deleteId) && effects == old(effects)
      ensures old(DialogOpen()) ==> effects == old(effects) + DeleteEffects(snippets, old(deleteId).value, rejected)
      ensures old(DialogOpen()) ==> deleteId == None && !DialogOpen()
    {
      if !Truthy(deleteId) {
        return;
      }
      var id := deleteId.value;
      isDeleting := true;
      effects := effects + [OnDeleteCalled(id, DeleteType(snippets, id))];
      effects := effects + [SettleToast(rejected)];
      isDeleting := false;
      deleteId := None;
    }
  }
}
