/** The canvas session of one workflow: an append-only history of saved snapshots
    whose versions bump the patch number, the version currently shown and its
    status, and a flag for unsaved changes. The drawing engine itself is outside
    the model: what the store reads from it is a parameter, and what it asks of it
    is recorded as a list of calls. */
module CanvasSession {
  import opened Wrappers
  import opened Collections

  /** A `major.minor.patch` version. */
  datatype Version = Version(major: nat, minor: nat, patch: nat)

  datatype VersionStatus = Draft | Published | Archived

  /** The engine's description of the drawing: its nodes, keyed by id, and its
      connections, both carried as opaque text. */
  datatype Graph = Graph(nodes: map<string, string>, connections: seq<string>)

  /** One entry of the history: the drawing, its version and when it was saved. */
  datatype Snapshot = Snapshot(graph: Graph, version: Version, timestamp: int)

  /** What the store asks of the engine: to show a snapshot, or to add the example
      start node to an empty drawing. */
  datatype EngineCall = LoadWorkflowData(snapshot: Snapshot) | AddStartNode

  /** The same major and minor version, with the next patch number. */
  function Bump(v: Version): (r: Version)
    ensures r.major == v.major && r.minor == v.minor && r.patch == v.patch + 1
  {
    v.(patch := v.patch + 1)
  }

  /** The version `save` gives the next snapshot: the last entry's version bumped,
      or `0.0.1` for an empty history (bumping `0.0.0`). */
  function NextVersion(history: seq<Snapshot>): (r: Version)
    ensures history == [] ==> r == Version(0, 0, 1)
    ensures history != [] ==> r == Bump(history[|history| - 1].version)
  {
    Bump(if history == [] then Version(0, 0, 0) else history[|history| - 1].version)
  }

  /** Each entry's version is the previous entry's version bumped. */
  predicate Consecutive(history: seq<Snapshot>) {
    forall i :: 0 < i < |history| ==> history[i].version == Bump(history[i - 1].version)
  }

  /** Appending a snapshot with the next version keeps the history consecutive. */
  lemma SaveKeepsConsecutive(history: seq<Snapshot>, s: Snapshot)
    requires Consecutive(history) && s.version == NextVersion(history)
    ensures Consecutive(history + [s])
  {
    var h := history + [s];
    forall i | 0 < i < |h|
      ensures h[i].version == Bump(h[i - 1].version)
    {
      if i < |history| {
        assert h[i] == history[i] && h[i - 1] == history[i - 1];
      }
    }
  }

  /** In a consecutive history, later entries share the major and minor version and
      have strictly larger patch numbers; in particular, versions never repeat. */
  lemma {:induction false} ConsecutiveIncreasing(history: seq<Snapshot>)
    requires Consecutive(history)
    ensures forall i, j :: 0 <= i < j < |history| ==>
      history[j].version.major == history[i].version.major
      && history[j].version.minor == history[i].version.minor
      && history[j].version.patch == history[i].version.patch + (j - i)
  {
    if |history| > 1 {
      var front := history[..|history| - 1];
      assert Consecutive(front) by {
        forall i | 0 < i < |front|
          ensures front[i].version == Bump(front[i - 1].version)
        {
          assert front[i] == history[i] && front[i - 1] == history[i - 1];
        }
      }
      ConsecutiveIncreasing(front);
      forall i, j | 0 <= i < j < |history|
        ensures history[j].version.major == history[i].version.major
        ensures history[j].version.minor == history[i].version.minor
        ensures history[j].version.patch == history[i].version.patch + (j - i)
      {
        if j < |history| - 1 {
          assert history[i] == front[i] && history[j] == front[j];
        } else if i < j - 1 {
          assert history[i] == front[i] && history[j - 1] == front[j - 1];
        }
      }
    }
  }

  /** A history saved from empty holds the versions `0.0.1`, `0.0.2`, … in order. */
  lemma FreshHistoryVersions(history: seq<Snapshot>)
    requires Consecutive(history) && history != [] && history[0].version == Version(0, 0, 1)
    ensures forall i :: 0 <= i < |history| ==> history[i].version == Version(0, 0, i + 1)
  {
    ConsecutiveIncreasing(history);
    forall i | 0 < i < |history|
      ensures history[i].version == Version(0, 0, i + 1)
    {
      assert history[i].version.patch == history[0].version.patch + (i - 0);
    }
  }

  /** The index of the first snapshot with this version, or -1. */
  function IndexOfVersion(history: seq<Snapshot>, v: Version): (r: int)
    ensures -1 <= r < |history|
    ensures r == -1 <==> forall i :: 0 <= i < |history| ==> history[i].version != v
    ensures 0 <= r ==> history[r].version == v && forall i :: 0 <= i < r ==> history[i].version != v
  {
    FindIndex(history, (s: Snapshot) => s.version == v)
  }

  /** The status `selectHistory` gives a version: draft for the last entry's version,
      archived otherwise. */
  function StatusOf(history: seq<Snapshot>, v: Version): VersionStatus
    requires history != []
  {
    if v == history[|history| - 1].version then Draft else Archived
  }

  /** In a consecutive history, selecting a version gives draft exactly when it is the
      version of the last entry: no earlier entry shares it. */
  lemma SelectedDraftIffLast(history: seq<Snapshot>, v: Version)
    requires Consecutive(history) && IndexOfVersion(history, v) != -1
    ensures StatusOf(history, v) == Draft <==> IndexOfVersion(history, v) == |history| - 1
  {
    ConsecutiveIncreasing(history);
  }

  /** The store's state for the workflow being edited. */
  class CanvasStore {
    var history: seq<Snapshot>
    var idFlow: string
    var version: Version
    var status: VersionStatus
    var changes: bool
    /** Whether a drawing engine has been attached by `initCanvas`. */
    var attached: bool
    /** The calls made to the engine, oldest first. */
    var engineCalls: seq<EngineCall>
    /** The histories kept in storage, by workflow id. */
    var stored: map<string, seq<Snapshot>>

    /** The history in memory and every stored one are consecutive. */
    predicate Valid()
      reads this
    {
      Consecutive(history) && forall k :: k in stored ==> Consecutive(stored[k])
    }

    constructor (stored: map<string, seq<Snapshot>>)
      ensures history == [] && idFlow == "" && version == Version(0, 0, 1) && status == Draft
      ensures !changes && !attached && engineCalls == [] && this.stored == stored
      ensures (forall k :: k in stored ==> Consecutive(stored[k])) ==> Valid()
    {
      history := [];
      idFlow := "";
      version := Version(0, 0, 1);
      status := Draft;
      changes := false;
      attached := false;
      engineCalls := [];
      this.stored := stored;
    }

    /** `loadInitialWorkflow`: with an engine attached, takes the stored history of
        this workflow when there is one, and otherwise asks the engine for the
        example start node. A stored history that is empty is taken as it is and
        leaves the version and the engine alone, as the source's read of its last
        entry fails there. */
    method LoadInitialWorkflow()
      modifies this`history, this`version, this`status, this`engineCalls
      ensures !attached ==> history == old(history) && version == old(version) && status == old(status) && engineCalls == old(engineCalls)
      ensures attached && idFlow !in stored ==>
        history == old(history) && version == old(version) && status == old(status) && engineCalls == old(engineCalls) + [AddStartNode]
      ensures attached && idFlow in stored && stored[idFlow] == [] ==>
        history == [] && version == old(version) && status == old(status) && engineCalls == old(engineCalls)
      ensures attached && idFlow in stored && stored[idFlow] != [] ==>
        var last := stored[idFlow][|stored[idFlow]| - 1];
        history == stored[idFlow] && version == last.version && status == Draft
        && engineCalls == old(engineCalls) + [LoadWorkflowData(last)]
      ensures old(Valid()) ==> Valid()
    {
      if !attached {
        return;
      }
      if idFlow in stored {
        var data := stored[idFlow];
        history := data;
        if data != [] {
          var last := data[|data| - 1];
          version := last.version;
          status := Draft;
          engineCalls := engineCalls + [LoadWorkflowData(last)];
        }
      } else {
        engineCalls := engineCalls + [AddStartNode];
      }
    }

    /** `initCanvas`: attaches the engine for workflow `flow` and loads its history. */
    method InitCanvas(flow: string)
      modifies this
      ensures idFlow == flow && attached
      ensures changes == old(changes) && stored == old(stored)
      ensures flow !in stored ==>
        history == old(history) && version == old(version) && status == old(status) && engineCalls == old(engineCalls) + [AddStartNode]
      ensures flow in stored && stored[flow] == [] ==>
        history == [] && version == old(version) && status == old(status) && engineCalls == old(engineCalls)
      ensures flow in stored && stored[flow] != [] ==>
        var last := stored[flow][|stored[flow]| - 1];
        history == stored[flow] && version == last.version && status == Draft
        && engineCalls == old(engineCalls) + [LoadWorkflowData(last)]
      ensures old(Valid()) ==> Valid()
    {
      idFlow := flow;
      attached := true;
      LoadInitialWorkflow();
    }

    /** The engine's node added / removed / moved events mark the drawing as changed. */
    method OnCanvasChange()
      modifies this`changes
      ensures changes
    {
      changes := true;
    }

    /** `save`: with an engine attached, appends the current drawing under the next
        version, clears the changes flag and stores the whole history; earlier entries
        are untouched. */
    method Save(graph: Graph, now: int)
      modifies this`history, this`version, this`changes, this`stored
      ensures !attached ==> history == old(history) && version == old(version) && changes == old(changes) && stored == old(stored)
      ensures attached ==>
        version == NextVersion(old(history))
        && history == old(history) + [Snapshot(graph, version, now)]
        && !changes
        && stored == old(stored)[idFlow := history]
      ensures old(Valid()) ==> Valid()
    {
      if !attached {
        return;
      }
      var next := NextVersion(history);
      var entry := Snapshot(graph, next, now);
      if Consecutive(history) {
        SaveKeepsConsecutive(history, entry);
      }
      version := next;
      history := history + [entry];
      changes := false;
      stored := stored[idFlow := history];
    }

    /** `getHistory`: the history, newest first. */
    function GetHistory(): (r: seq<Snapshot>)
      reads this
      ensures |r| == |history|
      ensures forall k :: 0 <= k < |r| ==> r[k] == history[|history| - 1 - k]
    {
      Reversed(history)
    }

    /** `selectHistory`: with an engine attached and a snapshot of that version,
        shows the first such snapshot and makes its version current, as a draft when
        it is the last entry's version and archived otherwise; nothing changes
        otherwise. */
    method SelectHistory(v: Version)
      modifies this`version, this`status, this`engineCalls
      ensures !attached || IndexOfVersion(history, v) == -1 ==>
        version == old(version) && status == old(status) && engineCalls == old(engineCalls)
      ensures attached && IndexOfVersion(history, v) != -1 ==>
        version == v && status == StatusOf(history, v)
        && engineCalls == old(engineCalls) + [LoadWorkflowData(history[IndexOfVersion(history, v)])]
    {
      if !attached {
        return;
      }
      var i := IndexOfVersion(history, v);
      if i != -1 {
        var workflow := history[i];
        engineCalls := engineCalls + [LoadWorkflowData(workflow)];
        version := workflow.version;
        status := StatusOf(history, v);
      }
    }

    /** `clearHistory`: empties the history and removes it from storage. */
    method ClearHistory()
      modifies this`history, this`stored
      ensures history == [] && stored == old(stored) - {idFlow}
      ensures old(Valid()) ==> Valid()
    {
      history := [];
      stored := stored - {idFlow};
    }
  }
}
