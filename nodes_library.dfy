/** The node library: node definitions received from the server, normalised with
    defaults, grouped by group name, and searched by case-insensitive substring;
    plus the visibility of the node panel. */
module NodesLibrary {
  import opened Wrappers
  import opened Collections
  import opened Text

  // ---------------------------------------------------------------------------
  // Server data

  /** The `group` of a server node: one name, or a non-empty list of names. */
  datatype GroupField = Single(name: string) | Many(first: string, rest: seq<string>)

  /** The names of a node's input and output connectors. */
  datatype Connectors = Connectors(inputs: seq<string>, outputs: seq<string>)

  datatype ServerInfo = ServerInfo(
    title: string,
    description: Option<string>,
    icon: Option<string>,
    color: Option<string>,
    connectors: Option<Connectors>)

  datatype ServerNode = ServerNode(
    name: string,
    group: GroupField,
    dependencies: Option<seq<string>>,
    info: ServerInfo,
    properties: Option<map<string, string>>)

  // ---------------------------------------------------------------------------
  // Client nodes

  datatype Position = Position(x: int, y: int)

  datatype NodeInfo = NodeInfo(
    name: string,
    desc: string,
    icon: string,
    group: string,
    color: string,
    connectors: Connectors)

  datatype Node = Node(
    nodeType: string,
    design: Position,
    tags: seq<string>,
    info: NodeInfo,
    properties: map<string, string>)

  /** A group of nodes; its subgroups are always left empty. */
  datatype NodeGroup = NodeGroup(name: string, subgroups: seq<string>, nodes: seq<Node>)

  const DefaultIcon: string := "●"
  const DefaultColor: string := "#3498DB"
  const DefaultConnectors: Connectors := Connectors(["init"], ["response", "error"])
  const LoadFailedMessage: string := "Error cargando nodos"

  /** `value || fallback` for an optional string: missing and empty both fall back. */
  function OrDefault(value: Option<string>, fallback: string): (r: string)
    ensures value.Some? && value.value != "" ==> r == value.value
    ensures value.None? || value.value == "" ==> r == fallback
  {
    if value.Some? && value.value != "" then value.value else fallback
  }

  /** The group a node is filed under: the name, or the first of a list. */
  function GroupName(g: GroupField): string {
    match g
    case Single(name) => name
    case Many(first, _) => first
  }

  /** One server entry in the client's form. */
  function Normalise(nodeType: string, sn: ServerNode): (r: Node)
    ensures r.nodeType == nodeType && r.design == Position(0, 0)
    ensures r.tags == sn.dependencies.GetOr([]) && r.properties == sn.properties.GetOr(map[])
    ensures r.info.name == sn.name && r.info.group == GroupName(sn.group)
    ensures r.info.desc == OrDefault(sn.info.description, sn.info.title)
    ensures r.info.icon == OrDefault(sn.info.icon, DefaultIcon) && r.info.color == OrDefault(sn.info.color, DefaultColor)
    ensures r.info.connectors == sn.info.connectors.GetOr(DefaultConnectors)
  {
    Node(nodeType, Position(0, 0), sn.dependencies.GetOr([]),
         NodeInfo(sn.name, OrDefault(sn.info.description, sn.info.title), OrDefault(sn.info.icon, DefaultIcon),
                  GroupName(sn.group), OrDefault(sn.info.color, DefaultColor), sn.info.connectors.GetOr(DefaultConnectors)),
         sn.properties.GetOr(map[]))
  }

  /** The map over `Object.entries` of the server's node record: one node per entry,
      in order, typed by its key. */
  function NormaliseAll(entries: seq<(string, ServerNode)>): (r: seq<Node>)
    ensures |r| == |entries|
    ensures forall i :: 0 <= i < |r| ==> r[i] == Normalise(entries[i].0, entries[i].1)
  {
    seq(|entries|, i requires 0 <= i < |entries| => Normalise(entries[i].0, entries[i].1))
  }

  // ---------------------------------------------------------------------------
  // Grouping

  /** The nodes filed under group `g`, in order. */
  function NodesInGroup(nodes: seq<Node>, g: string): (r: seq<Node>)
    ensures forall i :: 0 <= i < |r| ==> r[i].info.group == g && r[i] in nodes
    ensures forall i :: 0 <= i < |nodes| && nodes[i].info.group == g ==> nodes[i] in r
  {
    Filter(nodes, (n: Node) => n.info.group == g)
  }

  lemma NodesInGroupSnoc(nodes: seq<Node>, n: Node, g: string)
    ensures NodesInGroup(nodes + [n], g) == NodesInGroup(nodes, g) + (if n.info.group == g then [n] else [])
  {
    FilterAppend(nodes, [n], (m: Node) => m.info.group == g);
  }

  /** What `loadNodeGroups` builds: one group per listed name holding the nodes filed
      under it. */
  function GroupsFor(nodes: seq<Node>, names: seq<string>): map<string, NodeGroup> {
    map g | g in names :: NodeGroup(g, [], NodesInGroup(nodes, g))
  }

  /** The group names the nodes themselves carry. */
  function GroupNamesOf(nodes: seq<Node>): set<string> {
    set i | 0 <= i < |nodes| :: nodes[i].info.group
  }

  /** What `fallbackGroupNodes` builds: one group per group name some node carries. */
  function FallbackGroups(nodes: seq<Node>): map<string, NodeGroup> {
    map g | g in GroupNamesOf(nodes) :: NodeGroup(g, [], NodesInGroup(nodes, g))
  }

  /** With the server's list of names, the keys are exactly the listed names, each
      group is named after its key, and a node sits in a group exactly when it is
      filed under that group's name; a node filed under an unlisted name is in no group. */
  lemma GroupsForPlacement(nodes: seq<Node>, names: seq<string>)
    ensures forall g :: g in GroupsFor(nodes, names) <==> g in names
    ensures forall g :: g in GroupsFor(nodes, names) ==> GroupsFor(nodes, names)[g].name == g
    ensures forall g, i :: g in GroupsFor(nodes, names) && 0 <= i < |nodes| ==>
      (nodes[i] in GroupsFor(nodes, names)[g].nodes <==> nodes[i].info.group == g)
    ensures forall i :: 0 <= i < |nodes| && nodes[i].info.group !in names ==>
      forall g :: g in GroupsFor(nodes, names) ==> nodes[i] !in GroupsFor(nodes, names)[g].nodes
  {
    forall g, i | g in GroupsFor(nodes, names) && 0 <= i < |nodes| && nodes[i] in GroupsFor(nodes, names)[g].nodes
      ensures nodes[i].info.group == g
    {
      var r := NodesInGroup(nodes, g);
      var j :| 0 <= j < |r| && r[j] == nodes[i];
    }
  }

  /** In the fallback grouping every group is non-empty and named after its key,
      every node is in the group of its own name, and in no other. */
  lemma FallbackPlacement(nodes: seq<Node>)
    ensures forall g :: g in FallbackGroups(nodes) ==> FallbackGroups(nodes)[g].name == g && FallbackGroups(nodes)[g].nodes != []
    ensures forall i :: 0 <= i < |nodes| ==>
      nodes[i].info.group in FallbackGroups(nodes) && nodes[i] in FallbackGroups(nodes)[nodes[i].info.group].nodes
    ensures forall g, i :: g in FallbackGroups(nodes) && 0 <= i < |nodes| && nodes[i] in FallbackGroups(nodes)[g].nodes ==>
      nodes[i].info.group == g
  {
    forall g | g in FallbackGroups(nodes)
      ensures FallbackGroups(nodes)[g].nodes != []
    {
      var i :| 0 <= i < |nodes| && nodes[i].info.group == g;
      assert nodes[i] in NodesInGroup(nodes, g);
    }
    forall i | 0 <= i < |nodes|
      ensures nodes[i].info.group in FallbackGroups(nodes)
    {
      assert nodes[i].info.group in GroupNamesOf(nodes);
    }
    forall g, i | g in FallbackGroups(nodes) && 0 <= i < |nodes| && nodes[i] in FallbackGroups(nodes)[g].nodes
      ensures nodes[i].info.group == g
    {
      var r := NodesInGroup(nodes, g);
      var j :| 0 <= j < |r| && r[j] == nodes[i];
    }
  }

  /** The map after filing one more node into the group of its name, creating that
      group empty first when it is missing. */
  function FileNode(groups: map<string, NodeGroup>, n: Node): (r: map<string, NodeGroup>)
    ensures r.Keys == groups.Keys + {n.info.group}
  {
    var g := n.info.group;
    var group := if g in groups then groups[g] else NodeGroup(g, [], []);
    groups[g := group.(nodes := group.nodes + [n])]
  }

  lemma GroupsForOneMoreName(names: seq<string>, name: string)
    ensures GroupsFor([], names + [name]) == GroupsFor([], names)[name := NodeGroup(name, [], [])]
  {
    var a := GroupsFor([], names + [name]);
    var b := GroupsFor([], names)[name := NodeGroup(name, [], [])];
    assert a.Keys == b.Keys;
    forall g | g in a.Keys
      ensures a[g] == b[g]
    {
      assert NodesInGroup([], g) == [];
    }
  }

  lemma GroupsForOneMoreNode(nodes: seq<Node>, n: Node, names: seq<string>)
    ensures GroupsFor(nodes + [n], names) ==
      if n.info.group in names then FileNode(GroupsFor(nodes, names), n) else GroupsFor(nodes, names)
  {
    var a := GroupsFor(nodes + [n], names);
    var b := if n.info.group in names then FileNode(GroupsFor(nodes, names), n) else GroupsFor(nodes, names);
    assert a.Keys == b.Keys;
    forall g | g in a.Keys
      ensures a[g] == b[g]
    {
      NodesInGroupSnoc(nodes, n, g);
    }
  }

  lemma GroupNamesOfSnoc(nodes: seq<Node>, n: Node)
    ensures GroupNamesOf(nodes + [n]) == GroupNamesOf(nodes) + {n.info.group}
  {
    var all := nodes + [n];
    forall g | g in GroupNamesOf(all)
      ensures g in GroupNamesOf(nodes) + {n.info.group}
    {
      var i :| 0 <= i < |all| && all[i].info.group == g;
      if i < |nodes| {
        assert nodes[i] == all[i];
      }
    }
    forall g | g in GroupNamesOf(nodes)
      ensures g in GroupNamesOf(all)
    {
      var i :| 0 <= i < |nodes| && nodes[i].info.group == g;
      assert all[i] == nodes[i];
    }
    assert all[|nodes|] == n;
  }

  /** A name no node carries has no nodes filed under it. */
  lemma UncarriedNameIsEmpty(nodes: seq<Node>, g: string)
    requires g !in GroupNamesOf(nodes)
    ensures NodesInGroup(nodes, g) == []
  {
    forall i | 0 <= i < |nodes|
      ensures nodes[i].info.group != g
    {
      assert nodes[i].info.group in GroupNamesOf(nodes);
    }
    FilterNone(nodes, (n: Node) => n.info.group == g);
  }

  lemma FallbackEntryOneMoreNode(nodes: seq<Node>, n: Node, g: string)
    requires g in GroupNamesOf(nodes + [n])
    ensures g in FileNode(FallbackGroups(nodes), n)
    ensures FallbackGroups(nodes + [n])[g] == FileNode(FallbackGroups(nodes), n)[g]
  {
    GroupNamesOfSnoc(nodes, n);
    NodesInGroupSnoc(nodes, n, g);
    var m := FallbackGroups(nodes);
    if g == n.info.group {
      if g !in m {
        UncarriedNameIsEmpty(nodes, g);
      }
    } else {
      assert g in GroupNamesOf(nodes);
      assert FileNode(m, n)[g] == m[g];
    }
  }

  lemma FallbackGroupsOneMoreNode(nodes: seq<Node>, n: Node)
    ensures FallbackGroups(nodes + [n]) == FileNode(FallbackGroups(nodes), n)
  {
    var a := FallbackGroups(nodes + [n]);
    var b := FileNode(FallbackGroups(nodes), n);
    GroupNamesOfSnoc(nodes, n);
    assert a.Keys == b.Keys;
    forall g | g in a.Keys
      ensures a[g] == b[g]
    {
      FallbackEntryOneMoreNode(nodes, n, g);
    }
  }

  // ---------------------------------------------------------------------------
  // Queries

  /** A node matches a query when its name, description or group contains it,
      ignoring ASCII case. */
  predicate MatchesQuery(n: Node, query: string) {
    var q := Lower(query);
    Contains(Lower(n.info.name), q) || Contains(Lower(n.info.desc), q) || Contains(Lower(n.info.group), q)
  }

  /** `searchNodes`: the matching nodes, in order. */
  function SearchNodes(nodes: seq<Node>, query: string): (r: seq<Node>)
    ensures forall i :: 0 <= i < |r| ==> MatchesQuery(r[i], query) && r[i] in nodes
    ensures forall i :: 0 <= i < |nodes| && MatchesQuery(nodes[i], query) ==> nodes[i] in r
    ensures IsSubsequence(r, nodes)
    ensures forall x :: multiset(r)[x] == if MatchesQuery(x, query) then multiset(nodes)[x] else 0
  {
    var f := (n: Node) => MatchesQuery(n, query);
    FilterIsSubsequence(nodes, f);
    FilterMultiplicity(nodes, f);
    Filter(nodes, f)
  }

  /** The empty query matches every node. */
  lemma SearchEmptyQuery(nodes: seq<Node>)
    ensures SearchNodes(nodes, "") == nodes
  {
    forall i | 0 <= i < |nodes|
      ensures MatchesQuery(nodes[i], "")
    {
      assert Lower("") == "";
      ContainsEmpty(Lower(nodes[i].info.name));
    }
    FilterAll(nodes, (n: Node) => MatchesQuery(n, ""));
  }

  /** A node passes the subgroup filter when its group contains the subgroup name
      as given, or its type contains it lower-cased. */
  predicate InSubgroup(n: Node, subgroupName: string) {
    Contains(n.info.group, subgroupName) || Contains(n.nodeType, Lower(subgroupName))
  }

  /** `getNodesBySubgroup`: nothing for an unknown group, otherwise the group's
      nodes that pass the subgroup filter, in order. */
  function NodesBySubgroup(groups: map<string, NodeGroup>, groupName: string, subgroupName: string): (r: seq<Node>)
    ensures groupName !in groups ==> r == []
    ensures groupName in groups ==> IsSubsequence(r, groups[groupName].nodes)
    ensures forall i :: 0 <= i < |r| ==> InSubgroup(r[i], subgroupName)
    ensures groupName in groups ==> forall i :: 0 <= i < |groups[groupName].nodes| && InSubgroup(groups[groupName].nodes[i], subgroupName) ==> groups[groupName].nodes[i] in r
    ensures groupName in groups ==> forall x :: multiset(r)[x] == if InSubgroup(x, subgroupName) then multiset(groups[groupName].nodes)[x] else 0
  {
    if groupName !in groups then []
    else
      var f := (n: Node) => InSubgroup(n, subgroupName);
      FilterIsSubsequence(groups[groupName].nodes, f);
      FilterMultiplicity(groups[groupName].nodes, f);
      Filter(groups[groupName].nodes, f)
  }

  // ---------------------------------------------------------------------------
  // The store

  class NodeLibraryStore {
    var availableNodes: seq<Node>
    var nodeGroups: map<string, NodeGroup>
    var isLoading: bool
    var error: Option<string>
    var isNodePanelVisible: bool

    constructor ()
      ensures availableNodes == [] && nodeGroups == map[] && !isLoading && error == None && !isNodePanelVisible
    {
      availableNodes := [];
      nodeGroups := map[];
      isLoading := false;
      error := None;
      isNodePanelVisible := false;
    }

    /** The grouping of `loadNodeGroups` once the server's list of names arrived. */
    method GroupByNames(names: seq<string>)
      modifies this`nodeGroups
      ensures nodeGroups == GroupsFor(availableNodes, names)
    {
      var grouped: map<string, NodeGroup> := map[];
      for k := 0 to |names|
        invariant grouped == GroupsFor([], names[..k])
      {
        assert names[..k + 1] == names[..k] + [names[k]];
        GroupsForOneMoreName(names[..k], names[k]);
        grouped := grouped[names[k] := NodeGroup(names[k], [], [])];
      }
      assert names[..|names|] == names;
      for k := 0 to |availableNodes|
        invariant grouped == GroupsFor(availableNodes[..k], names)
      {
        var n := availableNodes[k];
        assert availableNodes[..k + 1] == availableNodes[..k] + [n];
        GroupsForOneMoreNode(availableNodes[..k], n, names);
        if n.info.group in grouped {
          var group := grouped[n.info.group];
          grouped := grouped[n.info.group := group.(nodes := group.nodes + [n])];
        }
      }
      assert availableNodes[..|availableNodes|] == availableNodes;
      nodeGroups := grouped;
    }

    /** `fallbackGroupNodes`: one group per group name the nodes carry. */
    method FallbackGroupNodes()
      modifies this`nodeGroups
      ensures nodeGroups == FallbackGroups(availableNodes)
    {
      var grouped: map<string, NodeGroup> := map[];
      assert availableNodes[..0] == [];
      assert FallbackGroups([]) == map[] by {
        assert GroupNamesOf([]) == {};
      }
      for k := 0 to |availableNodes|
        invariant grouped == FallbackGroups(availableNodes[..k])
      {
        var n := availableNodes[k];
        assert availableNodes[..k + 1] == availableNodes[..k] + [n];
        FallbackGroupsOneMoreNode(availableNodes[..k], n);
        var g := n.info.group;
        var group := if g in grouped then grouped[g] else NodeGroup(g, [], []);
        grouped := grouped[g := group.(nodes := group.nodes + [n])];
      }
      assert availableNodes[..|availableNodes|] == availableNodes;
      nodeGroups := grouped;
    }

    /** `loadNodeGroups`: groups by the server's list of names, or falls back to the
        names the nodes carry when that list cannot be fetched. */
    method LoadNodeGroups(names: Fetch<seq<string>>)
      modifies this`nodeGroups
      ensures names.Fetched? ==> nodeGroups == GroupsFor(availableNodes, names.value)
      ensures names.FetchFailed? ==> nodeGroups == FallbackGroups(availableNodes)
    {
      match names {
        case Fetched(list) => GroupByNames(list);
        case FetchFailed(_) => FallbackGroupNodes();
      }
    }

    /** `loadNodes`: normalises the fetched nodes and groups them; when the nodes
        cannot be fetched, records the failure's message (or a fixed one) and keeps
        the previous nodes and groups. Loading is off afterwards. */
    method LoadNodes(entries: Fetch<seq<(string, ServerNode)>>, names: Fetch<seq<string>>)
      modifies this`availableNodes, this`nodeGroups, this`isLoading, this`error
      ensures !isLoading
      ensures entries.Fetched? ==>
        availableNodes == NormaliseAll(entries.value) && error == None
        && nodeGroups == (if names.Fetched? then GroupsFor(availableNodes, names.value) else FallbackGroups(availableNodes))
      ensures entries.FetchFailed? ==>
        availableNodes == old(availableNodes) && nodeGroups == old(nodeGroups)
        && error == Some(entries.message.GetOr(LoadFailedMessage))
    {
      isLoading := true;
      error := None;
      match entries {
        case Fetched(list) =>
          availableNodes := NormaliseAll(list);
          LoadNodeGroups(names);
        case FetchFailed(message) =>
          error := Some(message.GetOr(LoadFailedMessage));
      }
      isLoading := false;
    }

    method ShowNodePanel()
      modifies this`isNodePanelVisible
      ensures isNodePanelVisible
    {
      isNodePanelVisible := true;
    }

    method HideNodePanel()
      modifies this`isNodePanelVisible
      ensures !isNodePanelVisible
    {
      isNodePanelVisible := false;
    }

    /** Flips the panel's visibility, so two toggles restore it. */
    method ToggleNodePanel()
      modifies this`isNodePanelVisible
      ensures isNodePanelVisible == !old(isNodePanelVisible)
    {
      isNodePanelVisible := !isNodePanelVisible;
    }
  }
}
