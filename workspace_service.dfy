/**
 * The persisted workspace selection: one local-storage entry holding the last
 * selected workspace as JSON. Reading it takes no user id, checks no owner and
 * never deletes a corrupt entry: a corrupt entry makes the read throw.
 */
module WorkspaceService {
  import opened Wrappers
  import opened Types

  /** What the storage entry can hold: what `saveSelectedWorkspace` wrote (`JSON.stringify`
      of a workspace, which `JSON.parse` reads back as the same record), an empty string,
      or non-empty text that `JSON.parse` rejects. */
  datatype StoredEntry = Saved(workspace: Workspace) | EmptyText | Corrupt

  /** `getSelectedWorkspace()` on a given entry: `workspace ? JSON.parse(workspace) : null`. */
  function SelectedIn(entry: Option<StoredEntry>): (r: Completion<Option<Workspace>>)
    ensures entry.None? ==> r == Normal(None)
    ensures r.Threw? <==> entry == Some(Corrupt)
    ensures r == Normal(None) <==> entry.None? || entry == Some(EmptyText)
    ensures forall w :: r == Normal(Some(w)) <==> entry == Some(Saved(w))
  {
    match entry
    case None => Normal(None)
    case Some(EmptyText) => Normal(None)
    case Some(Saved(w)) => Normal(Some(w))
    case Some(Corrupt) => Threw
  }

  /** `hasSelectedWorkspace()` on a given entry: `!!getSelectedWorkspace()`. */
  function HasSelectionIn(entry: Option<StoredEntry>): (r: Completion<bool>)
    ensures r.Threw? <==> SelectedIn(entry).Threw?
    ensures r == Normal(true) <==> SelectedIn(entry).Normal? && SelectedIn(entry).value.Some?
  {
    match SelectedIn(entry)
    case Threw => Threw
    case Normal(w) => Normal(w.Some?)
  }

  /** The `localStorage` entry under the selected-workspace key. */
  class SelectionStore {
    var entry: Option<StoredEntry>

    constructor (entry: Option<StoredEntry>)
      ensures this.entry == entry
    {
      this.entry := entry;
    }

    /** `saveSelectedWorkspace(w)`: overwrites whatever was stored. */
    method SaveSelectedWorkspace(w: Workspace)
      modifies this
      ensures entry == Some(Saved(w))
      ensures GetSelectedWorkspace() == Normal(Some(w))
    {
      entry := Some(Saved(w));
    }

    /** `getSelectedWorkspace()`: only reads the entry. */
    function GetSelectedWorkspace(): (r: Completion<Option<Workspace>>)
      reads this
      ensures r.Threw? <==> entry == Some(Corrupt)
      ensures r == Normal(None) <==> entry.None? || entry == Some(EmptyText)
      ensures forall w :: r == Normal(Some(w)) <==> entry == Some(Saved(w))
    {
      SelectedIn(entry)
    }

    /** `removeSelectedWorkspace()`. */
    method RemoveSelectedWorkspace()
      modifies this
      ensures entry.None?
      ensures GetSelectedWorkspace() == Normal(None)
    {
      entry := None;
    }

    /** `hasSelectedWorkspace()`. */
    function HasSelectedWorkspace(): (r: Completion<bool>)
      reads this
      ensures r == Normal(true) <==> GetSelectedWorkspace().Normal? && GetSelectedWorkspace().value.Some?
    {
      HasSelectionIn(entry)
    }
  }
}
