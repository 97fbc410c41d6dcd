/** The workspace container: a list of workspaces and the id of the current one.
    The current and the default workspace are resolved with fallbacks to the first
    workspace; the default workspace cannot be deleted, and deleting the current
    workspace moves the current id to the default one. Times are milliseconds
    since the epoch. */
module Workspaces {
  import opened Wrappers
  import opened Collections

  datatype Workspace = Workspace(
    id: string,
    name: string,
    description: Option<string>,
    color: string,
    icon: string,
    createdAt: int,
    updatedAt: int,
    isDefault: bool)

  /** What a caller supplies to create a workspace: everything but the id and the times. */
  datatype WorkspaceDraft = WorkspaceDraft(
    name: string,
    description: Option<string>,
    color: string,
    icon: string,
    isDefault: bool)

  /** A partial update of any field; the update time is always set by the store. */
  datatype WorkspacePatch = WorkspacePatch(
    id: Option<string>,
    name: Option<string>,
    description: Option<string>,
    color: Option<string>,
    icon: Option<string>,
    createdAt: Option<int>,
    isDefault: Option<bool>)

  /** The message thrown when deleting the default workspace. */
  const CannotDeleteDefault: string := "No se puede eliminar el workspace por defecto"

  // ---------------------------------------------------------------------------
  // Lookups

  /** The index of the first workspace with this id, or -1. */
  function IndexOfWorkspace(ws: seq<Workspace>, id: string): (r: int)
    ensures -1 <= r < |ws|
    ensures r == -1 <==> forall i :: 0 <= i < |ws| ==> ws[i].id != id
    ensures 0 <= r ==> ws[r].id == id && forall i :: 0 <= i < r ==> ws[i].id != id
  {
    FindIndex(ws, (w: Workspace) => w.id == id)
  }

  /** `currentWorkspace`, once the list is not empty: the first workspace whose id is
      the current id, else the first workspace, else nothing. */
  function CurrentOf(ws: seq<Workspace>, currentId: string): (r: Option<Workspace>)
    ensures r.None? <==> ws == []
    ensures IndexOfWorkspace(ws, currentId) != -1 ==> r == Some(ws[IndexOfWorkspace(ws, currentId)]) && r.value.id == currentId
    ensures IndexOfWorkspace(ws, currentId) == -1 && ws != [] ==> r == Some(ws[0])
  {
    var i := IndexOfWorkspace(ws, currentId);
    if i != -1 then Some(ws[i]) else if ws == [] then None else Some(ws[0])
  }

  /** `defaultWorkspace`: the first workspace marked as default, else the first
      workspace, else nothing. */
  function DefaultOf(ws: seq<Workspace>): (r: Option<Workspace>)
    ensures r.None? <==> ws == []
    ensures (exists i :: 0 <= i < |ws| && ws[i].isDefault) ==> r.Some? && r.value.isDefault
    ensures r.Some? && r.value.isDefault ==>
      exists i :: 0 <= i < |ws| && ws[i] == r.value && forall j :: 0 <= j < i ==> !ws[j].isDefault
    ensures (forall i :: 0 <= i < |ws| ==> !ws[i].isDefault) && ws != [] ==> r == Some(ws[0])
  {
    var i := FindIndex(ws, (w: Workspace) => w.isDefault);
    if i != -1 then Some(ws[i]) else if ws == [] then None else Some(ws[0])
  }

  /** `defaultWorkspace?.id || ""`. */
  function DefaultIdOrEmpty(ws: seq<Workspace>): (r: string)
    ensures ws == [] ==> r == ""
    ensures ws != [] ==> IndexOfWorkspace(ws, r) != -1
  {
    match DefaultOf(ws)
    case None => ""
    case Some(w) => w.id
  }

  /** The current id `initWorkspaces` chooses: the saved id when it is a non-empty
      string naming a workspace of the list, else the default workspace's id. */
  function InitialCurrentId(ws: seq<Workspace>, savedCurrentId: Option<string>): (r: string)
    ensures savedCurrentId.Some? && savedCurrentId.value != "" && IndexOfWorkspace(ws, savedCurrentId.value) != -1
      ==> r == savedCurrentId.value
    ensures !(savedCurrentId.Some? && savedCurrentId.value != "" && IndexOfWorkspace(ws, savedCurrentId.value) != -1)
      ==> r == DefaultIdOrEmpty(ws)
  {
    if savedCurrentId.Some? && savedCurrentId.value != "" && IndexOfWorkspace(ws, savedCurrentId.value) != -1
    then savedCurrentId.value
    else DefaultIdOrEmpty(ws)
  }

  /** The current id names a workspace of the list whenever the list is not empty. */
  predicate CurrentResolves(ws: seq<Workspace>, currentId: string) {
    ws != [] ==> IndexOfWorkspace(ws, currentId) != -1
  }

  /** The workspaces left by deleting every workspace with this id, in order. */
  function WithoutWorkspace(ws: seq<Workspace>, id: string): (r: seq<Workspace>)
    ensures forall i :: 0 <= i < |r| ==> r[i].id != id && r[i] in ws
    ensures forall i :: 0 <= i < |ws| && ws[i].id != id ==> ws[i] in r
    ensures IsSubsequence(r, ws)
    ensures forall x :: multiset(r)[x] == if x.id != id then multiset(ws)[x] else 0
  {
    var f := (w: Workspace) => w.id != id;
    FilterIsSubsequence(ws, f);
    FilterMultiplicity(ws, f);
    Filter(ws, f)
  }

  /** The current id after deleting `id`: moved to the default workspace of what is
      left when the current workspace was the one deleted. */
  function CurrentAfterDelete(ws: seq<Workspace>, currentId: string, id: string): string {
    if currentId == id then DefaultIdOrEmpty(WithoutWorkspace(ws, id)) else currentId
  }

  /** Deleting a workspace keeps the current id resolving. */
  lemma DeleteKeepsCurrentResolving(ws: seq<Workspace>, currentId: string, id: string)
    requires CurrentResolves(ws, currentId)
    ensures CurrentResolves(WithoutWorkspace(ws, id), CurrentAfterDelete(ws, currentId, id))
  {
    var rest := WithoutWorkspace(ws, id);
    if currentId != id && rest != [] {
      var i := IndexOfWorkspace(ws, currentId);
      assert ws[i] in rest;
      var j :| 0 <= j < |rest| && rest[j] == ws[i];
      assert rest[j].id == currentId;
    }
  }

  /** The workspace after a partial update at time `now`. */
  function Patched(w: Workspace, patch: WorkspacePatch, now: int): (r: Workspace)
    ensures r.updatedAt == now
    ensures r.id == patch.id.GetOr(w.id) && r.name == patch.name.GetOr(w.name)
    ensures r.description == (if patch.description.Some? then patch.description else w.description)
    ensures r.color == patch.color.GetOr(w.color) && r.icon == patch.icon.GetOr(w.icon)
    ensures r.createdAt == patch.createdAt.GetOr(w.createdAt) && r.isDefault == patch.isDefault.GetOr(w.isDefault)
  {
    Workspace(patch.id.GetOr(w.id), patch.name.GetOr(w.name),
              if patch.description.Some? then patch.description else w.description,
              patch.color.GetOr(w.color), patch.icon.GetOr(w.icon),
              patch.createdAt.GetOr(w.createdAt), now, patch.isDefault.GetOr(w.isDefault))
  }

  /** The workspace `createDefaultWorkspace` builds at time `now`. */
  function DefaultWorkspaceAt(now: int): (r: Workspace)
    ensures r.id == "default" && r.isDefault
  {
    Workspace("default", "Default Workspace", Some("Workspace principal para tus proyectos"),
              "#3b82f6", "mdi-briefcase", now, now, true)
  }

  // ---------------------------------------------------------------------------
  // The store

  class WorkspaceStore {
    var workspaces: seq<Workspace>
    var currentWorkspaceId: string

    constructor ()
      ensures workspaces == [] && currentWorkspaceId == ""
    {
      workspaces := [];
      currentWorkspaceId := "";
    }

    /** `createDefaultWorkspace`: exactly one workspace, the default one, and it is current. */
    method CreateDefaultWorkspace(now: int)
      modifies this`workspaces, this`currentWorkspaceId
      ensures workspaces == [DefaultWorkspaceAt(now)]
      ensures currentWorkspaceId == "default"
      ensures CurrentResolves(workspaces, currentWorkspaceId)
    {
      workspaces := [DefaultWorkspaceAt(now)];
      currentWorkspaceId := workspaces[0].id;
    }

    /** `initWorkspaces`: the saved list when there is one, else the default
        workspace; then the saved current id when it names a workspace, else the
        default workspace's id. `saved` is `None` when nothing readable was stored. */
    method InitWorkspaces(saved: Option<seq<Workspace>>, savedCurrentId: Option<string>, now: int)
      modifies this`workspaces, this`currentWorkspaceId
      ensures workspaces == if saved.Some? then saved.value else [DefaultWorkspaceAt(now)]
      ensures currentWorkspaceId == InitialCurrentId(workspaces, savedCurrentId)
      ensures CurrentResolves(workspaces, currentWorkspaceId)
    {
      if saved.Some? {
        workspaces := saved.value;
      } else {
        CreateDefaultWorkspace(now);
      }
      if savedCurrentId.Some? && savedCurrentId.value != "" && IndexOfWorkspace(workspaces, savedCurrentId.value) != -1 {
        currentWorkspaceId := savedCurrentId.value;
      } else {
        currentWorkspaceId := DefaultIdOrEmpty(workspaces);
      }
    }

    /** `currentWorkspace`: initialises the store when the list is empty, then
        resolves the current workspace. */
    method CurrentWorkspace(saved: Option<seq<Workspace>>, savedCurrentId: Option<string>, now: int)
      returns (r: Option<Workspace>)
      modifies this`workspaces, this`currentWorkspaceId
      ensures old(workspaces) != [] ==> workspaces == old(workspaces) && currentWorkspaceId == old(currentWorkspaceId)
      ensures old(workspaces) == [] ==>
        workspaces == (if saved.Some? then saved.value else [DefaultWorkspaceAt(now)])
        && currentWorkspaceId == InitialCurrentId(workspaces, savedCurrentId)
      ensures r == CurrentOf(workspaces, currentWorkspaceId)
    {
      if |workspaces| == 0 {
        InitWorkspaces(saved, savedCurrentId, now);
      }
      r := CurrentOf(workspaces, currentWorkspaceId);
    }

    /** `createWorkspace`: appends one workspace created and updated at `now`. */
    method CreateWorkspace(data: WorkspaceDraft, id: string, now: int) returns (w: Workspace)
      modifies this`workspaces
      ensures w == Workspace(id, data.name, data.description, data.color, data.icon, now, now, data.isDefault)
      ensures workspaces == old(workspaces) + [w]
      ensures old(workspaces) != [] && CurrentResolves(old(workspaces), currentWorkspaceId) ==>
        CurrentResolves(workspaces, currentWorkspaceId)
    {
      w := Workspace(id, data.name, data.description, data.color, data.icon, now, now, data.isDefault);
      ghost var before := workspaces;
      workspaces := workspaces + [w];
      if before != [] && CurrentResolves(before, currentWorkspaceId) {
        var i := IndexOfWorkspace(before, currentWorkspaceId);
        assert workspaces[i] == before[i];
      }
    }

    /** `updateWorkspace`: patches the first workspace with this id; nothing changes
        when there is none. */
    method UpdateWorkspace(id: string, patch: WorkspacePatch, now: int)
      modifies this`workspaces
      ensures var i := IndexOfWorkspace(old(workspaces), id);
        workspaces == if i == -1 then old(workspaces) else old(workspaces)[i := Patched(old(workspaces)[i], patch, now)]
    {
      var i := IndexOfWorkspace(workspaces, id);
      if i != -1 {
        workspaces := workspaces[i := Patched(workspaces[i], patch, now)];
      }
    }

    /** `deleteWorkspace`: fails, changing nothing, when the first workspace with this
        id is the default one; otherwise removes every workspace with this id and,
        when it was the current one, makes the default workspace current. */
    method DeleteWorkspace(id: string) returns (r: Outcome<string>)
      modifies this`workspaces, this`currentWorkspaceId
      ensures var i := IndexOfWorkspace(old(workspaces), id);
        if i != -1 && old(workspaces)[i].isDefault then
          r == Fail(CannotDeleteDefault)
          && workspaces == old(workspaces) && currentWorkspaceId == old(currentWorkspaceId)
        else
          r == Pass
          && workspaces == WithoutWorkspace(old(workspaces), id)
          && currentWorkspaceId == CurrentAfterDelete(old(workspaces), old(currentWorkspaceId), id)
      ensures CurrentResolves(old(workspaces), old(currentWorkspaceId)) ==> CurrentResolves(workspaces, currentWorkspaceId)
    {
      var i := IndexOfWorkspace(workspaces, id);
      if i != -1 && workspaces[i].isDefault {
        return Fail(CannotDeleteDefault);
      }
      if CurrentResolves(workspaces, currentWorkspaceId) {
        DeleteKeepsCurrentResolving(workspaces, currentWorkspaceId, id);
      }
      workspaces := WithoutWorkspace(workspaces, id);
      if currentWorkspaceId == id {
        currentWorkspaceId := DefaultIdOrEmpty(workspaces);
      }
      r := Pass;
    }

    /** `switchWorkspace`: makes `id` current only when a workspace has it. */
    method SwitchWorkspace(id: string)
      modifies this`currentWorkspaceId
      ensures currentWorkspaceId == if IndexOfWorkspace(workspaces, id) != -1 then id else old(currentWorkspaceId)
      ensures CurrentResolves(workspaces, old(currentWorkspaceId)) ==> CurrentResolves(workspaces, currentWorkspaceId)
    {
      if IndexOfWorkspace(workspaces, id) != -1 {
        currentWorkspaceId := id;
      }
    }
  }
}
