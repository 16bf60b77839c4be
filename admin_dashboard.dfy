/** The admin dashboard: the list of stored projects with edit and two-step
    delete controls, an "add new" button, and the save handler behind the project
    form. The remote `projects` table is a map from id to row. */
module AdminDashboard {
  import opened Common
  import ProjectFormModal

  type Payload = ProjectFormModal.Payload

  /** The row a payload becomes under the id `id`: each payload field is written
      to its column. */
  function Stored(pl: Payload, id: string): (p: Project)
    ensures p.id == id && p.title == Some(pl.title) && p.description == Some(pl.description)
    ensures p.techStack == Some(pl.techStack) && p.category == Some(pl.category)
    ensures p.imageUrl == Some(pl.imageUrl) && p.liveUrl == Some(pl.liveUrl) && p.githubUrl == Some(pl.githubUrl)
  {
    Project(id, Some(pl.title), Some(pl.description), Some(pl.techStack), Some(pl.category),
            Some(pl.imageUrl), Some(pl.liveUrl), Some(pl.githubUrl))
  }

  /** JavaScript truthiness of `editProject?.id`: missing and `''` are falsy. */
  predicate IsTruthy(id: Option<string>)
  {
    id.Some? && id.value != ""
  }

  /** The table after `handleSave`'s store call succeeds. A truthy id updates the
      row with that id (and matches nothing when no row has it); otherwise the row
      is inserted under the id the database generates, `newId`. */
  function Saved(store: map<string, Project>, pl: Payload, id: Option<string>, newId: string): map<string, Project>
    requires newId !in store
  {
    if IsTruthy(id) then
      if id.value in store then store[id.value := Stored(pl, id.value)] else store
    else store[newId := Stored(pl, newId)]
  }

  /** The table after `handleDelete`'s store call succeeds. */
  function Deleted(store: map<string, Project>, id: string): map<string, Project>
  {
    map k | k in store && k != id :: store[k]
  }

  /** Saving with an id updates that row and no other, and adds none; saving
      without one adds exactly one row, under the new id, and changes no other. */
  lemma SaveUpdatesOrInserts(store: map<string, Project>, pl: Payload, id: Option<string>, newId: string)
    requires newId !in store
    ensures var s := Saved(store, pl, id, newId);
      (IsTruthy(id) ==>
        s.Keys == store.Keys
        && (id.value in store ==> s[id.value] == Stored(pl, id.value))
        && (forall k | k in store && k != id.value :: s[k] == store[k]))
      && (!IsTruthy(id) ==>
        s.Keys == store.Keys + {newId} && s[newId] == Stored(pl, newId)
        && (forall k | k in store :: s[k] == store[k]))
  {
  }

  /** A project whose id is the empty string is inserted again rather than
      updated, since `''` is falsy. */
  lemma EmptyIdInserts(store: map<string, Project>, pl: Payload, newId: string)
    requires newId !in store
    ensures Saved(store, pl, Some(""), newId) == Saved(store, pl, None, newId)
    ensures |Saved(store, pl, Some(""), newId).Keys| == |store.Keys| + 1
  {
    var s := Saved(store, pl, None, newId);
    assert s.Keys == store.Keys + {newId};
  }

  /** What the refetch after a save is for: once the table's rows are listed
      again, the saved row is among them, under the edited id or the new one. */
  lemma SavedRowIsListed(store: map<string, Project>, pl: Payload, id: Option<string>, newId: string,
                         listed: seq<Project>)
    requires newId !in store
    requires forall p :: p in listed <==> p in Saved(store, pl, id, newId).Values
    ensures IsTruthy(id) && id.value in store ==> Stored(pl, id.value) in listed
    ensures !IsTruthy(id) ==> Stored(pl, newId) in listed
  {
    var s := Saved(store, pl, id, newId);
    if IsTruthy(id) && id.value in store {
      assert s[id.value] == Stored(pl, id.value);
    } else if !IsTruthy(id) {
      assert s[newId] == Stored(pl, newId);
    }
  }

  /** Deleting removes exactly the row with that id, so the refetch no longer
      lists a row under it. */
  lemma DeletedRowIsGone(store: map<string, Project>, id: string, listed: seq<Project>)
    requires forall p :: p in listed <==> p in Deleted(store, id).Values
    requires forall k | k in store :: store[k].id == k
    ensures forall p | p in listed :: p.id != id
  {
  }

  /** Deleting removes exactly the row with that id. */
  lemma DeleteRemovesOnly(store: map<string, Project>, id: string)
    ensures Deleted(store, id).Keys == store.Keys - {id}
    ensures forall k | k in Deleted(store, id) :: Deleted(store, id)[k] == store[k]
  {
  }

  // ---------------------------------------------------------------------------
  // The list

  /** The tags shown on a row: the first three, or all of them when fewer; a
      missing list counts as empty. */
  function ShownTags(tech: Option<seq<string>>): seq<string>
  {
    var all := ListOrEmpty(tech);
    if |all| <= 3 then all else all[..3]
  }

  /** The "+n" counter after the tags, present only when some are hidden. */
  function Overflow(tech: Option<seq<string>>): Option<nat>
  {
    if |ListOrEmpty(tech)| > 3 then Some(|tech.value| - 3) else None
  }

  /** At most three tags show, in order, as a prefix of the list; the counter
      appears exactly when the list is longer than three, and the shown tags plus
      the counter account for every tag. */
  lemma TagsAccountForAll(tech: Option<seq<string>>)
    ensures var shown := ShownTags(tech); var all := ListOrEmpty(tech);
      |shown| <= 3 && shown <= all
      && (Overflow(tech).Some? <==> |all| > 3)
      && |shown| + (if Overflow(tech).Some? then Overflow(tech).value else 0) == |all|
  {
  }

  /** One row of the list as drawn. */
  datatype RowView = RowView(id: string, tags: seq<string>, overflow: Option<nat>, confirming: bool)

  function RowOf(p: Project, deleteConfirm: Option<string>): RowView
  {
    RowView(p.id, ShownTags(p.techStack), Overflow(p.techStack), deleteConfirm == Some(p.id))
  }

  datatype View = Spinner | NoProjects | Rows(rows: seq<RowView>)

  /** A spinner while loading, the empty message for no projects, else a row per
      project in order. */
  function ListView(loading: bool, projects: seq<Project>, deleteConfirm: Option<string>): (v: View)
    ensures v.Spinner? <==> loading
    ensures v.NoProjects? <==> !loading && projects == []
    ensures v.Rows? ==>
      |v.rows| == |projects| && forall i | 0 <= i < |projects| :: v.rows[i] == RowOf(projects[i], deleteConfirm)
  {
    if loading then Spinner
    else if |projects| == 0 then NoProjects
    else Rows(seq(|projects|, i requires 0 <= i < |projects| => RowOf(projects[i], deleteConfirm)))
  }

  predicate DistinctIds(projects: seq<Project>)
  {
    forall i, j | 0 <= i < j < |projects| :: projects[i].id != projects[j].id
  }

  /** Only the row whose id is pending shows Confirm and Cancel: with distinct ids
      at most one row does, and one does exactly when the pending id is listed. */
  lemma AtMostOneConfirming(projects: seq<Project>, deleteConfirm: Option<string>)
    requires DistinctIds(projects)
    ensures var v := ListView(false, projects, deleteConfirm);
      v.Rows? ==>
        (forall i, j | 0 <= i < |v.rows| && 0 <= j < |v.rows| && v.rows[i].confirming && v.rows[j].confirming :: i == j)
        && ((exists i | 0 <= i < |v.rows| :: v.rows[i].confirming)
            <==> deleteConfirm.Some? && exists p | p in projects :: p.id == deleteConfirm.value)
  {
    var v := ListView(false, projects, deleteConfirm);
    if v.Rows? {
      forall i, j | 0 <= i < |v.rows| && 0 <= j < |v.rows| && v.rows[i].confirming && v.rows[j].confirming
        ensures i == j
      {
        assert projects[i].id == projects[j].id;
      }
      if deleteConfirm.Some? && exists p | p in projects :: p.id == deleteConfirm.value {
        var p :| p in projects && p.id == deleteConfirm.value;
        var i :| 0 <= i < |projects| && projects[i] == p;
        assert v.rows[i].confirming;
      }
    }
  }

  // ---------------------------------------------------------------------------
  // The component

  class Dashboard {
    /** The remote table. */
    var store: map<string, Project>
    var projects: seq<Project>
    var loading: bool
    var modalOpen: bool
    var editProject: Option<Project>
    var deleteConfirm: Option<string>

    /** Mounting: empty list, spinner on, and the first fetch under way. */
    constructor (table: map<string, Project>)
      ensures store == table && projects == [] && loading && !modalOpen
      ensures editProject == None && deleteConfirm == None
    {
      store, projects, loading := table, [], true;
      modalOpen, editProject, deleteConfirm := false, None, None;
    }

    function View(): View
      reads this
    {
      ListView(loading, projects, deleteConfirm)
    }

    /** The end of `fetchProjects`: the rows received, or none for null data. The
        rows are those of the table (their order, by `created_at`, is the
        store's). */
    method FetchCompleted(data: Option<seq<Project>>)
      requires data.Some? ==> forall p :: p in data.value <==> p in store.Values
      modifies this
      ensures projects == ListOrEmpty(data) && !loading
      ensures store == old(store) && modalOpen == old(modalOpen)
      ensures editProject == old(editProject) && deleteConfirm == old(deleteConfirm)
    {
      projects := if data.Some? then data.value else [];
      loading := false;
    }

    /** `handleSave`: the store call (whose error is not looked at, so a failed
        call leaves the table as it was), then a refetch. */
    method HandleSave(pl: Payload, id: Option<string>, newId: string, ok: bool)
      requires newId !in store
      modifies this
      ensures store == (if ok then Saved(old(store), pl, id, newId) else old(store))
      ensures loading && projects == old(projects) && modalOpen == old(modalOpen)
      ensures editProject == old(editProject) && deleteConfirm == old(deleteConfirm)
    {
      if ok {
        if id.Some? && id.value != "" {
          if id.value in store {
            store := store[id.value := Stored(pl, id.value)];
          }
        } else {
          store := store[newId := Stored(pl, newId)];
        }
      }
      loading := true;
    }

    /** `handleDelete`: the store call, then no pending confirmation and a
        refetch. */
    method HandleDelete(id: string, ok: bool)
      modifies this
      ensures store == (if ok then Deleted(old(store), id) else old(store))
      ensures deleteConfirm == None && loading
      ensures projects == old(projects) && modalOpen == old(modalOpen) && editProject == old(editProject)
    {
      if ok {
        store := map k | k in store && k != id :: store[k];
      }
      deleteConfirm := None;
      loading := true;
    }

    /** The trash button of row `id`. */
    method AskDelete(id: string)
      modifies this
      ensures deleteConfirm == Some(id)
      ensures store == old(store) && projects == old(projects) && loading == old(loading)
      ensures modalOpen == old(modalOpen) && editProject == old(editProject)
    {
      deleteConfirm := Some(id);
    }

    /** Cancel on the pending row. */
    method CancelDelete()
      modifies this
      ensures deleteConfirm == None
      ensures store == old(store) && projects == old(projects) && loading == old(loading)
      ensures modalOpen == old(modalOpen) && editProject == old(editProject)
    {
      deleteConfirm := None;
    }

    /** "Add New Project": the modal opens with no project, so it shows the blank
        form and saves by inserting. */
    method AddNew()
      modifies this
      ensures modalOpen && editProject == None
      ensures store == old(store) && projects == old(projects) && loading == old(loading)
      ensures deleteConfirm == old(deleteConfirm)
    {
      editProject := None;
      modalOpen := true;
    }

    /** The edit button of a row. */
    method Edit(p: Project)
      modifies this
      ensures modalOpen && editProject == Some(p)
      ensures store == old(store) && projects == old(projects) && loading == old(loading)
      ensures deleteConfirm == old(deleteConfirm)
    {
      editProject := Some(p);
      modalOpen := true;
    }

    /** The modal's `onClose`. */
    method Close()
      modifies this
      ensures !modalOpen && editProject == None
      ensures store == old(store) && projects == old(projects) && loading == old(loading)
      ensures deleteConfirm == old(deleteConfirm)
    {
      modalOpen := false;
      editProject := None;
    }

    /** The id the modal passes to `onSave`: that of the project being edited. */
    function SaveId(): Option<string>
      reads this
    {
      if editProject.Some? then Some(editProject.value.id) else None
    }
  }

  /** Saving from a modal opened with Edit on a listed, stored row rewrites that
      row; saving from one opened with Add New inserts. */
  lemma ModalSaveDispatch(store: map<string, Project>, p: Project, pl: Payload, newId: string)
    requires newId !in store && p.id in store && p.id != ""
    ensures Saved(store, pl, Some(p.id), newId) == store[p.id := Stored(pl, p.id)]
    ensures Saved(store, pl, None, newId) == store[newId := Stored(pl, newId)]
  {
  }
}
