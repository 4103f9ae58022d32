# SQuAT call graph: a Dafny model

SQuAT's call-graph tool reads a Palladio Component Model (PCM) instance and walks its usage
scenario. For every entry level system call it generates one call graph. The graph has a start
entity for the call and an entity per method of a basic component that the call reaches
(a component, a method and an interface, each with a name and an id). It also has a counted link
per caller/callee pair. While the service effect specifications (SEFFs) are walked, the walk
also computes the resource demands of internal actions and stores them in computed allocation
contexts. The graphs are exported as plain-text component lists and as GraphViz DOT. A small
configuration decides where the exported files go and which `dot` executable renders them.

The model covers these parts, one or two modules each:

- `CallGraphSpec` (value model) and `CallGraphData` (classes): the call-graph store. This is
  `CallEntity`, `Link`, `CallGraph` with its find-or-create `getEntity` and its counting
  `addLink`, and `CallGraphManager`. Every class method is proved to leave exactly the value
  that the functions of `CallGraphSpec` compute. The invariants and counting laws are proved
  about those functions.
- `Overview`: `CallGraphOverview`, the chain of all generated graphs.
- `Text`, `TxtExport`, `DotExport`: the string builder, the text reports of one graph and of a
  manager, and the detailed and simple DOT builders.
- `Config`: `GraphVizConfiguration` and `DependencySolverConfiguration`.
- `ContextWrapping`: what the call graph needs from `ContextWrapper`:
  - the assembly-context descent and the lookup of the providing assembly context;
  - variable-usage matching (`areEqual`, `matchVariableUsages`);
  - the allocation and computed-allocation-context lookups;
  - cloning and wrapper creation;
  - the two small caches.
- `Handlers`: the internal action handler, which computes resource demands, and the boundary path of the
  external call action handler (time specification, the synthetic internal action, the
  system-external resource type).
- `SeffSemantics` (value model) and `SeffVisiting` (class `SeffVisitor`): the SEFF walk. It
  covers the external call, which links the caller to the callee and starts one visitor per
  context wrapper, the branch, the loop and the fork, and the start and stop actions, which set
  a method's `empty` flag.
- `UsageSemantics` (value model) and `UsageVisiting` (class `UsageModelVisitor`): the usage
  scenario walk. It covers start, stop, delay, branch, loop and entry level system call. The
  last one generates a call graph in the manager and walks the SEFF of every context wrapper.

The imperative classes keep the Java shape: fields that the methods update, `modifies` frames,
and loops with invariants. Each method's postcondition ties the new state to a function of the
old state, and the properties are proved about those functions. Java `HashMap`/`HashSet`
iteration orders are parameters. A precondition (`Enumerates`) says that they list each element
once.

Source paths below are relative to the repository root.

## Model

| member | source | states |
|---|---|---|
| `CallGraphSpec.NewEntity` | SQuATCallGraph/src/main/java/io/github/squat_team/callgraph/data/CallEntity.java:16-26 | a new entity holds exactly the six strings it was built with, is flagged empty, and is keyed by the search id of its three ids |
| `CallGraphSpec.CallEntity.SetEmpty` | SQuATCallGraph/src/main/java/io/github/squat_team/callgraph/data/CallEntity.java:52-64 | setEmpty overwrites the flag and nothing else: the last value set is the one isEmpty returns |
| `CallGraphSpec.Link.SetCount` | SQuATCallGraph/src/main/java/io/github/squat_team/callgraph/data/Link.java:26-32 | setCount replaces the count and keeps both endpoints |
| `CallGraphSpec.KeysCanCollide` | SQuATCallGraph/src/main/java/io/github/squat_team/callgraph/data/CallGraph.java:56-67 | two entities with different component and method ids can share one storage key, because getEntity concatenates the ids without a separator |
| `CallGraphSpec.StartInfo` | SQuATCallGraph/src/main/java/io/github/squat_team/callgraph/data/CallGraph.java:22-34 | the start entity has the ids "start", an empty method name, the call's interface name, and a label "Start:" + separator + [interface + separator] + graph name, where the interface part appears only when the interface name is non-empty; its key is "startstartstart" |
| `CallGraphSpec.GetEntityV` | SQuATCallGraph/src/main/java/io/github/squat_team/callgraph/data/CallGraph.java:56-67 | find or create: an entity already stored under the search id is kept unchanged; otherwise exactly one new empty entity is added under that id; links never change |
| `CallGraphSpec.FoundEntity` | SQuATCallGraph/src/main/java/io/github/squat_team/callgraph/data/CallGraph.java:56-67 | the entity getEntity returns is the stored one, whose key equals the requested key in a well-formed graph, even when its strings differ from the request |
| `CallGraphSpec.SetEmptyV` | SQuATCallGraph/src/main/java/io/github/squat_team/callgraph/data/CallEntity.java:62-64 | setting the flag on a stored entity changes that entity's flag only; keys and links stay |
| `CallGraphSpec.AddLinkCounts` | SQuATCallGraph/src/main/java/io/github/squat_team/callgraph/data/CallGraph.java:69-80 | addLink counts the pair's call once more (once for a new pair) and leaves every other link count and all entities unchanged |
| `CallGraphSpec.AddLinkEndpoints` | SQuATCallGraph/src/main/java/io/github/squat_team/callgraph/data/CallGraph.java:69-80 | a link created by addLink starts with count 1 and joins the two entities passed; a stored link's endpoints always produce its key |
| `CallGraphSpec.AddLinkTwice` | SQuATCallGraph/src/main/java/io/github/squat_team/callgraph/data/CallGraph.java:69-80 | recording a new pair twice gives count 2 |
| `CallGraphSpec.GetEntityWellFormed` | SQuATCallGraph/src/main/java/io/github/squat_team/callgraph/data/CallGraph.java:56-67 | getEntity keeps the graph well formed: every entity and every link under its own key, and every count at least 1 |
| `CallGraphSpec.AddLinkWellFormed` | SQuATCallGraph/src/main/java/io/github/squat_team/callgraph/data/CallGraph.java:69-80 | addLink keeps the graph well formed |
| `CallGraphSpec.SetEmptyWellFormed` | SQuATCallGraph/src/main/java/io/github/squat_team/callgraph/data/CallEntity.java:62-64 | setEmpty keeps the graph well formed |
| `CallGraphSpec.GraphGrowsTrans` | SQuATCallGraph/src/main/java/io/github/squat_team/callgraph/data/CallGraph.java:56-80 | "only grows" (no entity lost or changed in its strings, no count lower) is transitive |
| `CallGraphSpec.GetEntityGrows` | SQuATCallGraph/src/main/java/io/github/squat_team/callgraph/data/CallGraph.java:56-67 | getEntity takes nothing away |
| `CallGraphSpec.AddLinkGrows` | SQuATCallGraph/src/main/java/io/github/squat_team/callgraph/data/CallGraph.java:69-80 | addLink takes nothing away and leaves the entities as they are |
| `CallGraphSpec.SetEmptyGrows` | SQuATCallGraph/src/main/java/io/github/squat_team/callgraph/data/CallEntity.java:62-64 | setEmpty takes nothing away |
| `CallGraphSpec.Bump` | SQuATCallGraph/src/main/java/io/github/squat_team/callgraph/data/CallGraph.java:72-78 | one recorded call adds its key and raises only that key's count, by one |
| `CallGraphSpec.BumpAllKeys` | SQuATCallGraph/src/main/java/io/github/squat_team/callgraph/data/CallGraph.java:69-80 | after a sequence of calls, the link keys are the old ones plus exactly the keys called |
| `CallGraphSpec.BumpAllCounts` | SQuATCallGraph/src/main/java/io/github/squat_team/callgraph/data/CallGraph.java:69-80 | after a sequence of calls, each count is the old count plus the number of calls under its key |
| `CallGraphSpec.BumpAllPositive` | SQuATCallGraph/src/main/java/io/github/squat_team/callgraph/data/CallGraph.java:69-80 | counts built by addLink are never below 1 |
| `CallGraphData.CallGraph.constructor` | SQuATCallGraph/src/main/java/io/github/squat_team/callgraph/data/CallGraph.java:22-34 | a new graph has the given names and id, no entities, no links, and the start entity of StartInfo, flagged empty |
| `CallGraphData.CallGraph.GetEntity` | SQuATCallGraph/src/main/java/io/github/squat_team/callgraph/data/CallGraph.java:56-67 | the graph becomes GetEntityV of the old graph, and the returned object is the entity stored under the requested key |
| `CallGraphData.CallGraph.AddLink` | SQuATCallGraph/src/main/java/io/github/squat_team/callgraph/data/CallGraph.java:69-80 | the graph becomes AddLinkV of the old graph for the two entities |
| `CallGraphData.CallGraph.SetEntityEmpty` | SQuATCallGraph/src/main/java/io/github/squat_team/callgraph/data/CallEntity.java:62-64 | setEmpty on a stored entity: the graph becomes SetEmptyV of the old graph |
| `CallGraphData.CallGraphManager.constructor` | SQuATCallGraph/src/main/java/io/github/squat_team/callgraph/data/CallGraphManager.java:12 | a new manager holds no graph |
| `CallGraphData.CallGraphManager.GenerateNewCallGraph` | SQuATCallGraph/src/main/java/io/github/squat_team/callgraph/data/CallGraphManager.java:14-18 | exactly one fresh, empty graph with the given names is appended; earlier graphs keep their positions |
| `Overview.Ids` | SQuATCallGraph/src/main/java/io/github/squat_team/callgraph/data/CallGraphOverview.java:23-25 | the graph ids, one per graph, in list order |
| `Overview.ChainKeys` | SQuATCallGraph/src/main/java/io/github/squat_team/callgraph/data/CallGraphOverview.java:21-29 | the link keys of the chain start, g1, ..., gn: each link keyed by the previous graph's id (first the start key) and the current graph's id |
| `Overview.OverviewEntityKey` | SQuATCallGraph/src/main/java/io/github/squat_team/callgraph/data/CallGraphOverview.java:24-25 | an overview entity with empty method and interface ids is keyed by its graph id alone |
| `Overview.OverviewStep` | SQuATCallGraph/src/main/java/io/github/squat_team/callgraph/data/CallGraphOverview.java:23-28 | one loop iteration extends the overview of the first i graphs to the first i + 1 |
| `Overview.OverviewSize` | SQuATCallGraph/src/main/java/io/github/squat_team/callgraph/data/CallGraphOverview.java:21-29 | with distinct graph ids and distinct chain keys, n graphs give n entities and n links, each counted once |
| `Overview.CallGraphOverview.constructor` | SQuATCallGraph/src/main/java/io/github/squat_team/callgraph/data/CallGraphOverview.java:9-19 | the overview graph is named "External Calls" with id "overviewid"; it is well formed, holds one entity per graph id, and its counts are those of the chain |
| `Overview.CallGraphOverview.GenerateOverviewGraph` | SQuATCallGraph/src/main/java/io/github/squat_team/callgraph/data/CallGraphOverview.java:21-29 | starting from an empty graph, the loop leaves one entity per graph id and the chain's link counts |
| `Text.StringBuilder.constructor` | SQuATCallGraph/src/main/java/io/github/squat_team/callgraph/export/txt/AbstractTxtBuilder.java:11-14 | a new builder holds the empty string |
| `Text.StringBuilder.Append` | SQuATCallGraph/src/main/java/io/github/squat_team/callgraph/export/txt/AbstractTxtBuilder.java:11-14 | append adds the string at the end and keeps what was there |
| `Text.ConcatAppend` | SQuATCallGraph/src/main/java/io/github/squat_team/callgraph/export/txt/AbstractTxtBuilder.java:16-21 | appending two lists of strings in turn builds the concatenation of both |
| `Text.RemoveAll` | SQuATCallGraph/src/main/java/io/github/squat_team/callgraph/export/dot/AbstractDotBuilder.java:22-24 | the result holds no occurrence of the character and is no longer than the input |
| `Text.RemoveAllAppend` | SQuATCallGraph/src/main/java/io/github/squat_team/callgraph/export/dot/AbstractDotBuilder.java:22-24 | removing a character from a concatenation is concatenating the removals |
| `Text.RemoveAllKeeps` | SQuATCallGraph/src/main/java/io/github/squat_team/callgraph/export/dot/AbstractDotBuilder.java:22-24 | every other character is kept as often as it occurs |
| `Text.RemoveAllUnchanged` | SQuATCallGraph/src/main/java/io/github/squat_team/callgraph/export/dot/AbstractDotBuilder.java:22-24 | a string without the character is left as it is |
| `Text.RemoveAllIdempotent` | SQuATCallGraph/src/main/java/io/github/squat_team/callgraph/export/dot/AbstractDotBuilder.java:22-24 | removing twice is removing once |
| `Text.NatToString` | SQuATCallGraph/src/main/java/io/github/squat_team/callgraph/export/dot/CallGraphToDotBuilder.java:91-101 | the decimal digits of a natural number, at least one, without a leading zero |
| `Text.NatToStringRoundTrip` | SQuATCallGraph/src/main/java/io/github/squat_team/callgraph/export/dot/CallGraphToDotBuilder.java:91-101 | reading the decimal digits back gives the number |
| `Text.IntToStringRoundTrip` | SQuATCallGraph/src/main/java/io/github/squat_team/callgraph/export/dot/CallGraphToDotBuilder.java:91-101 | the rendering of a count, a leading '-' included, reads back as that count |
| `Text.IntToStringInjective` | SQuATCallGraph/src/main/java/io/github/squat_team/callgraph/export/dot/CallGraphToDotBuilder.java:91-101 | two different counts are never rendered as the same string |
| `TxtExport.LineCount` | SQuATCallGraph/src/main/java/io/github/squat_team/callgraph/export/txt/AbstractTxtBuilder.java:16-21 | a report lists exactly one line per component |
| `TxtExport.AppendComponent` | SQuATCallGraph/src/main/java/io/github/squat_team/callgraph/export/txt/AbstractTxtBuilder.java:11-14 | appends one "- name (id)" line and returns the same builder |
| `TxtExport.AppendComponents` | SQuATCallGraph/src/main/java/io/github/squat_team/callgraph/export/txt/AbstractTxtBuilder.java:16-21 | appends one line per component, in the map's key order, after the existing text, and returns the same builder |
| `TxtExport.NoComponentsNoLines` | SQuATCallGraph/src/main/java/io/github/squat_team/callgraph/export/txt/AbstractTxtBuilder.java:16-21 | an empty map appends nothing |
| `TxtExport.ComponentNamesKeys` | SQuATCallGraph/src/main/java/io/github/squat_team/callgraph/export/txt/CallGraphToTxtBuilder.java:23-29 | the collected map's keys are exactly the component ids that occur |
| `TxtExport.ComponentNamesLastWins` | SQuATCallGraph/src/main/java/io/github/squat_team/callgraph/export/txt/CallGraphToTxtBuilder.java:23-29 | for a repeated component id, the stored name is that of the last entity with the id |
| `TxtExport.ComponentNamesAppend` | SQuATCallGraph/src/main/java/io/github/squat_team/callgraph/export/txt/CallGraphManagerToTxtBuilder.java:24-32 | collecting a concatenation is collecting both, the later entries overriding the earlier ones |
| `TxtExport.FindAllComponents` | SQuATCallGraph/src/main/java/io/github/squat_team/callgraph/export/txt/CallGraphToTxtBuilder.java:23-29 | the loop puts every entity's id and name into the map, in iteration order |
| `TxtExport.CallGraphToTxtBuilder.constructor` | SQuATCallGraph/src/main/java/io/github/squat_team/callgraph/export/txt/CallGraphToTxtBuilder.java:17-21 | the builder keeps the graph name and the components of the graph's entities |
| `TxtExport.CallGraphToTxtBuilder.Build` | SQuATCallGraph/src/main/java/io/github/squat_team/callgraph/export/txt/CallGraphToTxtBuilder.java:32-38 | the report is "COMPONENTS OF name: n", where n is the number of distinct components, followed by one line per component |
| `TxtExport.GraphComponentsInTotal` | SQuATCallGraph/src/main/java/io/github/squat_team/callgraph/export/txt/CallGraphManagerToTxtBuilder.java:24-40 | every component of one graph is among the components of all graphs |
| `TxtExport.TotalBounds` | SQuATCallGraph/src/main/java/io/github/squat_team/callgraph/export/txt/CallGraphManagerToTxtBuilder.java:24-40 | the manager's total counts each component once: at least as many as any one graph has, at most the sum over all graphs |
| `TxtExport.FindAllManagedComponents` | SQuATCallGraph/src/main/java/io/github/squat_team/callgraph/export/txt/CallGraphManagerToTxtBuilder.java:24-32 | the nested loop collects the graphs in list order and each graph's entities in iteration order |
| `TxtExport.CallGraphManagerToTxtBuilder.constructor` | SQuATCallGraph/src/main/java/io/github/squat_team/callgraph/export/txt/CallGraphManagerToTxtBuilder.java:18-22 | the builder keeps the components of all the manager's graphs |
| `TxtExport.CallGraphManagerToTxtBuilder.Build` | SQuATCallGraph/src/main/java/io/github/squat_team/callgraph/export/txt/CallGraphManagerToTxtBuilder.java:35-40 | the report is "TOTAL COMPONENTS: n", where n is the number of distinct components, followed by one line per component |
| `DotExport.FilterId` | SQuATCallGraph/src/main/java/io/github/squat_team/callgraph/export/dot/AbstractDotBuilder.java:22-24 | a filtered id holds no '-' and is no longer than the id |
| `DotExport.OfComponent` | SQuATCallGraph/src/main/java/io/github/squat_team/callgraph/export/dot/AbstractDotBuilder.java:34-48 | a component's group holds only entities of the input with that component id |
| `DotExport.OfComponentAppend` | SQuATCallGraph/src/main/java/io/github/squat_team/callgraph/export/dot/AbstractDotBuilder.java:34-48 | grouping keeps input order: the group of a concatenation is the concatenation of the groups |
| `DotExport.OfComponentNonEmpty` | SQuATCallGraph/src/main/java/io/github/squat_team/callgraph/export/dot/AbstractDotBuilder.java:34-48 | a group is non-empty exactly when its component id occurs in the input |
| `DotExport.GroupSizesTotal` | SQuATCallGraph/src/main/java/io/github/squat_team/callgraph/export/dot/AbstractDotBuilder.java:34-48 | the groups of all component ids together hold as many entities as the input: reorder loses and duplicates nothing |
| `DotExport.Reorder` | SQuATCallGraph/src/main/java/io/github/squat_team/callgraph/export/dot/AbstractDotBuilder.java:34-48 | reorder returns one list per component id that occurs, holding exactly that component's entities in input order |
| `DotExport.ReorderStep` | SQuATCallGraph/src/main/java/io/github/squat_team/callgraph/export/dot/AbstractDotBuilder.java:38-46 | one iteration adds the entity to its component's list, creating the list when it is missing |
| `DotExport.ReorderGroups` | SQuATCallGraph/src/main/java/io/github/squat_team/callgraph/export/dot/AbstractDotBuilder.java:34-48 | each group is non-empty and its members carry its key |
| `DotExport.NodeId` | SQuATCallGraph/src/main/java/io/github/squat_team/callgraph/export/dot/CallGraphToDotBuilder.java:69-85 | a node name holds no '-' |
| `DotExport.MethodNodes` | SQuATCallGraph/src/main/java/io/github/squat_team/callgraph/export/dot/CallGraphToDotBuilder.java:69-85 | one node per method, in list order |
| `DotExport.ComponentBlocks` | SQuATCallGraph/src/main/java/io/github/squat_team/callgraph/export/dot/CallGraphToDotBuilder.java:57-88 | one block per component group, in the order given |
| `DotExport.Edges` | SQuATCallGraph/src/main/java/io/github/squat_team/callgraph/export/dot/CallGraphToDotBuilder.java:91-101 | one edge per link, in the order given |
| `DotExport.MethodNodeStyle` | SQuATCallGraph/src/main/java/io/github/squat_team/callgraph/export/dot/CallGraphToDotBuilder.java:69-85 | a method node ends dotted exactly when the method is empty, and filled otherwise |
| `DotExport.EdgeShowsCount` | SQuATCallGraph/src/main/java/io/github/squat_team/callgraph/export/dot/CallGraphToDotBuilder.java:91-101 | two edges between the same nodes are equal only when their counts are equal, so the label determines the count |
| `DotExport.EdgeReadsBackStart` | SQuATCallGraph/src/main/java/io/github/squat_team/callgraph/export/dot/CallGraphToDotBuilder.java:91-101 | equal edges start at the same node: filtered ids end exactly where the arrow starts |
| `DotExport.MethodLabelWithoutIds` | SQuATCallGraph/src/main/java/io/github/squat_team/callgraph/export/dot/CallGraphToDotBuilder.java:69-85 | without exported ids, a method's label is its interface name, a line break and its method name |
| `DotExport.CallGraphToDotBuilder.constructor` | SQuATCallGraph/src/main/java/io/github/squat_team/callgraph/export/dot/CallGraphToDotBuilder.java:40-44 | the builder holds the reordering of the entities, the links and the start entity |
| `DotExport.CallGraphToDotBuilder.Groups` | SQuATCallGraph/src/main/java/io/github/squat_team/callgraph/export/dot/CallGraphToDotBuilder.java:57-60 | the groups in the grouping map's key order, each non-empty |
| `DotExport.CallGraphToDotBuilder.Build` | SQuATCallGraph/src/main/java/io/github/squat_team/callgraph/export/dot/CallGraphToDotBuilder.java:46-104 | the text is the start node, one block per component in map order, then one edge per link; ids are shown as the configuration says |
| `DotExport.RenderDot` | SQuATCallGraph/src/main/java/io/github/squat_team/callgraph/export/dot/CallGraphToDotBuilder.java:46-104 | the builder's appends produce DotText |
| `DotExport.RenderComponents` | SQuATCallGraph/src/main/java/io/github/squat_team/callgraph/export/dot/CallGraphToDotBuilder.java:57-88 | the component loop appends the blocks, one after the other |
| `DotExport.RenderComponent` | SQuATCallGraph/src/main/java/io/github/squat_team/callgraph/export/dot/CallGraphToDotBuilder.java:58-87 | one block: its head, one node per method in list order, then the closing brace |
| `DotExport.RenderEdges` | SQuATCallGraph/src/main/java/io/github/squat_team/callgraph/export/dot/CallGraphToDotBuilder.java:91-101 | the link loop appends one edge per link |
| `DotExport.SimpleNodes` | SQuATCallGraph/src/main/java/io/github/squat_team/callgraph/export/dot/SimpleCallGraphToDotBuilder.java:44-56 | one node per entity, in order, keyed by the filtered component id |
| `DotExport.SimpleEdges` | SQuATCallGraph/src/main/java/io/github/squat_team/callgraph/export/dot/SimpleCallGraphToDotBuilder.java:58-64 | one "next" edge per link, in order |
| `DotExport.ArrowSplit` | SQuATCallGraph/src/main/java/io/github/squat_team/callgraph/export/dot/SimpleCallGraphToDotBuilder.java:58-64 | ids without '-' are recovered from the text on either side of "->" |
| `DotExport.SimpleEdgeReadsBack` | SQuATCallGraph/src/main/java/io/github/squat_team/callgraph/export/dot/SimpleCallGraphToDotBuilder.java:58-64 | equal simple edges join equal filtered component ids |
| `DotExport.SimpleCallGraphToDotBuilder.constructor` | SQuATCallGraph/src/main/java/io/github/squat_team/callgraph/export/dot/SimpleCallGraphToDotBuilder.java:33-37 | the builder holds the entities and links in iteration order and the start entity |
| `DotExport.SimpleCallGraphToDotBuilder.Build` | SQuATCallGraph/src/main/java/io/github/squat_team/callgraph/export/dot/SimpleCallGraphToDotBuilder.java:39-67 | the text is the prefix, the start node, the nodes, then the edges; the configuration, the empty flags and the counts do not enter it |
| `Config.NormaliseOsName` | SQuATCallGraph/src/main/java/io/github/squat_team/callgraph/config/GraphVizConfiguration.java:17 | the OS name keeps no whitespace and no digit, and is no longer than the raw name |
| `Config.NormaliseOsNameAppend` | SQuATCallGraph/src/main/java/io/github/squat_team/callgraph/config/GraphVizConfiguration.java:17 | only deletion: the name of a concatenation is the concatenation of the names |
| `Config.NormaliseOsNameIdempotent` | SQuATCallGraph/src/main/java/io/github/squat_team/callgraph/config/GraphVizConfiguration.java:17 | normalising twice is normalising once |
| `Config.NormalisedIsFixed` | SQuATCallGraph/src/main/java/io/github/squat_team/callgraph/config/GraphVizConfiguration.java:17 | a name without whitespace and digits is left as it is |
| `Config.NormaliseWindowsTen` | SQuATCallGraph/src/main/java/io/github/squat_team/callgraph/config/GraphVizConfiguration.java:17 | "Windows 10" becomes "Windows" |
| `Config.NormaliseOutputDir` | SQuATCallGraph/src/main/java/io/github/squat_team/callgraph/config/GraphVizConfiguration.java:44-50 | an empty directory stays empty; one ending in the separator is kept; any other gets the separator appended |
| `Config.NormaliseOutputDirShape` | SQuATCallGraph/src/main/java/io/github/squat_team/callgraph/config/GraphVizConfiguration.java:44-50 | the result extends the input and is empty or ends with the separator |
| `Config.NormaliseOutputDirIdempotent` | SQuATCallGraph/src/main/java/io/github/squat_team/callgraph/config/GraphVizConfiguration.java:44-50 | normalising a normalised directory changes nothing |
| `Config.DotPathFor` | SQuATCallGraph/src/main/java/io/github/squat_team/callgraph/config/GraphVizConfiguration.java:64-78 | a user path wins; otherwise "Windows", then "Linux", then "MacOSX" selects the executable; UnsupportedOperation exactly when none of them matches |
| `Config.WindowsTenFindsWindowsDot` | SQuATCallGraph/src/main/java/io/github/squat_team/callgraph/config/GraphVizConfiguration.java:17-78 | on "Windows 10" without a user path, the Windows executable is chosen |
| `Config.GraphVizConfiguration.constructor` | SQuATCallGraph/src/main/java/io/github/squat_team/callgraph/config/GraphVizConfiguration.java:30-34 | stores the directory and the normalised OS name; no dot path, the default file name, ids not exported |
| `Config.GraphVizConfiguration.SetExportIds` | SQuATCallGraph/src/main/java/io/github/squat_team/callgraph/config/GraphVizConfiguration.java:36-42 | isExportIds then answers the value set; the other settings stay |
| `Config.GraphVizConfiguration.GetOutputDir` | SQuATCallGraph/src/main/java/io/github/squat_team/callgraph/config/GraphVizConfiguration.java:44-50 | the stored directory, normalised |
| `Config.GraphVizConfiguration.SetOutputFileName` | SQuATCallGraph/src/main/java/io/github/squat_team/callgraph/config/GraphVizConfiguration.java:52-58 | getOutputFileName then answers the name set; the other settings stay |
| `Config.GraphVizConfiguration.SetDotPath` | SQuATCallGraph/src/main/java/io/github/squat_team/callgraph/config/GraphVizConfiguration.java:60-62 | the user path becomes the one given; getDotPath then answers it whatever the OS, and a null path clears it so the OS name picks again; the other settings stay |
| `Config.GraphVizConfiguration.GetDotPath` | SQuATCallGraph/src/main/java/io/github/squat_team/callgraph/config/GraphVizConfiguration.java:64-78 | the choice DotPathFor makes from the user path and the OS name |
| `Config.DependencySolverConfiguration.constructor` | SQuATCallGraph/src/main/java/io/github/squat_team/callgraph/config/DependencySolverConfiguration.java:15-18 | stores the base directory and file name |
| `Config.DependencySolverConfiguration.GetUsageModelPath` | SQuATCallGraph/src/main/java/io/github/squat_team/callgraph/config/DependencySolverConfiguration.java:20-22 | base path plus the usage model extension |
| `Config.DependencySolverConfiguration.GetAllocationModelPath` | SQuATCallGraph/src/main/java/io/github/squat_team/callgraph/config/DependencySolverConfiguration.java:24-26 | base path plus the allocation model extension |
| `Config.DependencySolverConfiguration.ModelPathsDiffer` | SQuATCallGraph/src/main/java/io/github/squat_team/callgraph/config/DependencySolverConfiguration.java:20-26 | the two paths share their base, end in their own extension, and never coincide |
| `ContextWrapping.DescentShape` | SQuATCallGraph/src/main/java/de/uka/ipd/sdq/pcmsolver/transformations/ContextWrapper.java:131-177 | a completed descent starts at the given context, passes only through composed structures and ends at a basic component; a failed one adds no basic component |
| `ContextWrapping.GetAssCtxs` | SQuATCallGraph/src/main/java/de/uka/ipd/sdq/pcmsolver/transformations/ContextWrapper.java:131-177 | the passed list is extended by the descent, and the exception does not roll that back; the result is the list or the exception |
| `ContextWrapping.AssemblyConnectorFor` | SQuATCallGraph/src/main/java/de/uka/ipd/sdq/pcmsolver/transformations/ContextWrapper.java:1036-1064 | a found connector is in the list and leaves from the context's required role for the interface; none means no connector does |
| `ContextWrapping.FromDelegation` | SQuATCallGraph/src/main/java/de/uka/ipd/sdq/pcmsolver/transformations/ContextWrapper.java:1239-1277 | a connector found through delegation is an assembly connector of the enclosing structure for the composite's context and the interface |
| `ContextWrapping.SearchFrom` | SQuATCallGraph/src/main/java/de/uka/ipd/sdq/pcmsolver/transformations/ContextWrapper.java:1150-1190 | a match lies at or below the start index, is an assembly connector, and is found through delegation only above index 0 |
| `ContextWrapping.RemoveMatched` | SQuATCallGraph/src/main/java/de/uka/ipd/sdq/pcmsolver/transformations/ContextWrapper.java:1150-1190 | with the create flag the list loses the matched context, and also its parent after a delegation |
| `ContextWrapping.SearchFindsInnermost` | SQuATCallGraph/src/main/java/de/uka/ipd/sdq/pcmsolver/transformations/ContextWrapper.java:1150-1190 | the search passes only contexts without a connector for the role, and a direct match is the connector of the matched context |
| `ContextWrapping.TopLevelNeverDelegates` | SQuATCallGraph/src/main/java/de/uka/ipd/sdq/pcmsolver/transformations/ContextWrapper.java:1150-1190 | for a one-element list, delegation is never used, and no match exactly when the context has no connector |
| `ContextWrapping.FullNameEndsWithInnermost` | SQuATCallGraph/src/main/java/de/uka/ipd/sdq/pcmsolver/transformations/ContextWrapper.java:1475-1483 | the full name ends with the innermost reference name |
| `ContextWrapping.FullNamesCanCollide` | SQuATCallGraph/src/main/java/de/uka/ipd/sdq/pcmsolver/transformations/ContextWrapper.java:1475-1483 | a variable named "a.b" and the reference a.b have the same full name |
| `ContextWrapping.GetFullParameterName` | SQuATCallGraph/src/main/java/de/uka/ipd/sdq/pcmsolver/transformations/ContextWrapper.java:1475-1483 | the loop produces FullName: every namespace name followed by ".", then the innermost name |
| `ContextWrapping.FoundCount` | SQuATCallGraph/src/main/java/de/uka/ipd/sdq/pcmsolver/transformations/ContextWrapper.java:908-960 | the number of found characterisations is at most the list length |
| `ContextWrapping.FoundCountAll` | SQuATCallGraph/src/main/java/de/uka/ipd/sdq/pcmsolver/transformations/ContextWrapper.java:908-960 | the count reaches the length exactly when every characterisation is found |
| `ContextWrapping.EmptyUsagesEqualAll` | SQuATCallGraph/src/main/java/de/uka/ipd/sdq/pcmsolver/transformations/ContextWrapper.java:908-960 | an empty first list equals every list |
| `ContextWrapping.PairCountingAcceptsUnmatched` | SQuATCallGraph/src/main/java/de/uka/ipd/sdq/pcmsolver/transformations/ContextWrapper.java:908-960 | areEqual counts pairs, so [x, y] equals [x, x] although y has no counterpart |
| `ContextWrapping.PairCountOne` | SQuATCallGraph/src/main/java/de/uka/ipd/sdq/pcmsolver/transformations/ContextWrapper.java:908-960 | a usage with exactly one same-named, matching counterpart contributes one pair |
| `ContextWrapping.PairCountZero` | SQuATCallGraph/src/main/java/de/uka/ipd/sdq/pcmsolver/transformations/ContextWrapper.java:908-960 | a usage whose name does not occur contributes no pair |
| `ContextWrapping.SelfFound` | SQuATCallGraph/src/main/java/de/uka/ipd/sdq/pcmsolver/transformations/ContextWrapper.java:908-960 | every characterisation of a list is found in the list itself |
| `ContextWrapping.MatchCountOnes` | SQuATCallGraph/src/main/java/de/uka/ipd/sdq/pcmsolver/transformations/ContextWrapper.java:908-960 | when each usage contributes exactly one pair, the count is the list length |
| `ContextWrapping.UsagesEqualReflexive` | SQuATCallGraph/src/main/java/de/uka/ipd/sdq/pcmsolver/transformations/ContextWrapper.java:908-960 | a list of usages with distinct full names equals itself |
| `ContextWrapping.SingleCharacterisationFound` | SQuATCallGraph/src/main/java/de/uka/ipd/sdq/pcmsolver/transformations/ContextWrapper.java:925-947 | the inner loop answers whether some characterisation has the same type and the same space-free specification |
| `ContextWrapping.AreEqual` | SQuATCallGraph/src/main/java/de/uka/ipd/sdq/pcmsolver/transformations/ContextWrapper.java:908-960 | true exactly when the pair count equals the length of the first list |
| `ContextWrapping.ComputedAllocationContext.constructor` | SQuATCallGraph/src/main/java/de/uka/ipd/sdq/pcmsolver/transformations/ContextWrapper.java:1546-1568 | a new computed allocation context for the two ids holds no demand |
| `ContextWrapping.ComputedAllocationContext.AddResourceDemand` | SQuATCallGraph/src/main/java/de/uka/ipd/sdq/pcmsolver/handler/InternalActionHandler.java:112-114 | one demand appended; earlier demands kept |
| `ContextWrapping.PcmInstance.constructor` | SQuATCallGraph/src/main/java/de/uka/ipd/sdq/pcmsolver/transformations/ContextWrapper.java:1546-1568 | a model instance starts with no computed allocation context |
| `ContextWrapping.ContextWrapper.constructor` | SQuATCallGraph/src/main/java/de/uka/ipd/sdq/pcmsolver/transformations/ContextWrapper.java:294-312 | a new wrapper for the instance has an empty list and no contexts set |
| `ContextWrapping.ContextWrapper.GetAssCtx` | SQuATCallGraph/src/main/java/de/uka/ipd/sdq/pcmsolver/transformations/ContextWrapper.java:413-417 | the last assembly context of the list; index -1 fails exactly on an empty list |
| `ContextWrapping.ContextWrapper.Clone` | SQuATCallGraph/src/main/java/de/uka/ipd/sdq/pcmsolver/transformations/ContextWrapper.java:294-312 | a fresh wrapper with an equal list and the same contexts and instance; the original is unchanged |
| `ContextWrapping.ContextWrapper.FindAssemblyContextForRequiredRole` | SQuATCallGraph/src/main/java/de/uka/ipd/sdq/pcmsolver/transformations/ContextWrapper.java:1150-1190 | the connector SearchFrom finds from the end of the list; the list loses the matched contexts only with the create flag |
| `ContextWrapping.ContextWrapper.FindProvidingAssemblyContexts` | SQuATCallGraph/src/main/java/de/uka/ipd/sdq/pcmsolver/transformations/ContextWrapper.java:331-377 | no match gives the empty list; with the create flag the wrapper's list becomes the rest plus the descent; without the flag the inherited list is extended and the wrapper's list is kept |
| `ContextWrapping.ContextWrapper.MatchVariableUsages` | SQuATCallGraph/src/main/java/de/uka/ipd/sdq/pcmsolver/transformations/ContextWrapper.java:1608-1629 | the first computed usage context of the own assembly context whose input equals the usages; an empty list fails once there is a context to compare |
| `ContextWrapping.ContextWrapper.GetNextAllocationContextList` | SQuATCallGraph/src/main/java/de/uka/ipd/sdq/pcmsolver/transformations/ContextWrapper.java:1492-1516 | null for an empty list; otherwise every allocation context deploying the first assembly context, in model order |
| `ContextWrapping.ContextWrapper.GetExistingComputedAllocationContext` | SQuATCallGraph/src/main/java/de/uka/ipd/sdq/pcmsolver/transformations/ContextWrapper.java:1279-1293 | the first computed allocation context for the allocation and the usage context, if any |
| `ContextWrapping.ContextWrapper.GetNextComputedAllocationContext` | SQuATCallGraph/src/main/java/de/uka/ipd/sdq/pcmsolver/transformations/ContextWrapper.java:1546-1568 | find or create: an existing one is returned with the store unchanged; otherwise exactly one new empty one is appended; afterwards asking again finds the returned one; with an empty assembly context list, building the debug message from getAssCtx fails with IndexOutOfBounds on both paths and nothing is created |
| `ContextWrapping.CreateContextWrappersBasedOnTemplate` | SQuATCallGraph/src/main/java/de/uka/ipd/sdq/pcmsolver/transformations/ContextWrapper.java:233-250 | one fresh and distinct clone per allocation context of the first assembly context, each with its computed allocation context; an empty list fails with a null dereference; the store only grows |
| `ContextWrapping.Exists` | SQuATCallGraph/src/main/java/de/uka/ipd/sdq/pcmsolver/transformations/ContextWrapper.java:1007-1016 | true exactly when a container with the same id is in the list |
| `ContextWrapping.FirstSpecAfterPut` | SQuATCallGraph/src/main/java/de/uka/ipd/sdq/pcmsolver/transformations/ContextWrapper.java:1947-1971 | storing another entry never changes an existing answer; it only answers a new allocation context |
| `ContextWrapping.CallsToLinkResourcesMap.constructor` | SQuATCallGraph/src/main/java/de/uka/ipd/sdq/pcmsolver/transformations/ContextWrapper.java:1947-1957 | a new map is empty |
| `ContextWrapping.CallsToLinkResourcesMap.Put` | SQuATCallGraph/src/main/java/de/uka/ipd/sdq/pcmsolver/transformations/ContextWrapper.java:1947-1957 | the call's entry list is extended by one entry, and created on first use; nothing is overwritten |
| `ContextWrapping.CallsToLinkResourcesMap.Get` | SQuATCallGraph/src/main/java/de/uka/ipd/sdq/pcmsolver/transformations/ContextWrapper.java:1959-1971 | the specification of the earliest entry for the call and the allocation context, or null |
| `ContextWrapping.OriginalPdfAfterPut` | SQuATCallGraph/src/main/java/de/uka/ipd/sdq/pcmsolver/transformations/ContextWrapper.java:1917-1929 | after a put, the demand answers with the new entry and every other demand as before |
| `ContextWrapping.ResourceDemandCache.constructor` | SQuATCallGraph/src/main/java/de/uka/ipd/sdq/pcmsolver/transformations/ContextWrapper.java:1925-1929 | a new cache is empty |
| `ContextWrapping.ResourceDemandCache.Lookup` | SQuATCallGraph/src/main/java/de/uka/ipd/sdq/pcmsolver/transformations/ContextWrapper.java:1883-1905 | nothing exactly for an uncached demand, otherwise the cached entry |
| `ContextWrapping.ResourceDemandCache.IsOriginalPdf` | SQuATCallGraph/src/main/java/de/uka/ipd/sdq/pcmsolver/transformations/ContextWrapper.java:1917-1923 | false for an uncached demand, otherwise the cached flag |
| `ContextWrapping.ResourceDemandCache.Put` | SQuATCallGraph/src/main/java/de/uka/ipd/sdq/pcmsolver/transformations/ContextWrapper.java:1925-1929 | stores the entry and replaces an earlier one for the same demand |
| `Handlers.FirstOccurrence` | SQuATCallGraph/src/main/java/de/uka/ipd/sdq/pcmsolver/handler/InternalActionHandler.java:129-149 | the first position of a substring from a given index, or none exactly when it does not occur |
| `Handlers.CombinedExpressionSplits` | SQuATCallGraph/src/main/java/de/uka/ipd/sdq/pcmsolver/handler/InternalActionHandler.java:129-149 | the combined "(demand) / ((rate)*1.0)" expression gives back demand and rate whenever the demand holds no ") / ((" |
| `Handlers.NoOverlap` | SQuATCallGraph/src/main/java/de/uka/ipd/sdq/pcmsolver/handler/InternalActionHandler.java:129-149 | the divider cannot overlap itself |
| `Handlers.FirstOccurrenceIs` | SQuATCallGraph/src/main/java/de/uka/ipd/sdq/pcmsolver/handler/InternalActionHandler.java:129-149 | a position with no earlier occurrence is the first occurrence |
| `Handlers.SystemExternalDemands` | SQuATCallGraph/src/main/java/de/uka/ipd/sdq/pcmsolver/handler/InternalActionHandler.java:52-59 | one demand per system-external container, or an index failure on a container without resources |
| `Handlers.OrdinaryDemands` | SQuATCallGraph/src/main/java/de/uka/ipd/sdq/pcmsolver/handler/InternalActionHandler.java:60-69 | at most one demand per resource specification |
| `Handlers.OrdinaryDemandsCount` | SQuATCallGraph/src/main/java/de/uka/ipd/sdq/pcmsolver/handler/InternalActionHandler.java:60-69 | exactly the specifications of the demanded type yield a demand each, and each demand refers to the parametric demand |
| `Handlers.NoMatchNoDemand` | SQuATCallGraph/src/main/java/de/uka/ipd/sdq/pcmsolver/handler/InternalActionHandler.java:60-69 | an ordinary demand whose type the container lacks records nothing |
| `Handlers.NoMatchNone` | SQuATCallGraph/src/main/java/de/uka/ipd/sdq/pcmsolver/handler/InternalActionHandler.java:60-69 | no matching specification yields no demand |
| `Handlers.DemandsReferToAction` | SQuATCallGraph/src/main/java/de/uka/ipd/sdq/pcmsolver/handler/InternalActionHandler.java:44-116 | every recorded demand refers to a parametric demand of the action |
| `Handlers.SystemExternalRefers` | SQuATCallGraph/src/main/java/de/uka/ipd/sdq/pcmsolver/handler/InternalActionHandler.java:52-59 | every system-external demand refers to its parametric demand |
| `Handlers.OneDemandRefers` | SQuATCallGraph/src/main/java/de/uka/ipd/sdq/pcmsolver/handler/InternalActionHandler.java:48-70 | every demand made for one parametric demand refers to it |
| `Handlers.HandleInternalAction` | SQuATCallGraph/src/main/java/de/uka/ipd/sdq/pcmsolver/handler/InternalActionHandler.java:44-72 | one demand per matching (parametric demand, resource) pair is appended, in order, to the computed allocation context, keeping earlier demands; without one, the first append dereferences null |
| `Handlers.InternalStep` | SQuATCallGraph/src/main/java/de/uka/ipd/sdq/pcmsolver/handler/InternalActionHandler.java:47-71 | one iteration after an error-free prefix: either it ends the whole action with its exception, or it extends the prefix; what is recorded so far stays first |
| `Handlers.StopAtDemand` | SQuATCallGraph/src/main/java/de/uka/ipd/sdq/pcmsolver/handler/InternalActionHandler.java:47-71 | once a demand throws, the whole result is the prefix's result |
| `Handlers.ActionDemandsStep` | SQuATCallGraph/src/main/java/de/uka/ipd/sdq/pcmsolver/handler/InternalActionHandler.java:47-71 | the result of one more demand after an error-free prefix |
| `Handlers.ActionDemandsExtends` | SQuATCallGraph/src/main/java/de/uka/ipd/sdq/pcmsolver/handler/InternalActionHandler.java:47-71 | a prefix's demands come first in the whole list's, and a prefix's exception is the whole list's |
| `Handlers.HandleOneDemand` | SQuATCallGraph/src/main/java/de/uka/ipd/sdq/pcmsolver/handler/InternalActionHandler.java:49-70 | one parametric demand's demands are appended, or the null dereference happens |
| `Handlers.HandleSystemExternalDemand` | SQuATCallGraph/src/main/java/de/uka/ipd/sdq/pcmsolver/handler/InternalActionHandler.java:52-59 | the first resource of every system-external container yields a demand, appended in order |
| `Handlers.HandleOrdinaryDemand` | SQuATCallGraph/src/main/java/de/uka/ipd/sdq/pcmsolver/handler/InternalActionHandler.java:60-69 | every resource of the demanded type yields a demand, appended in order |
| `Handlers.OrdinaryDemandsGrow` | SQuATCallGraph/src/main/java/de/uka/ipd/sdq/pcmsolver/handler/InternalActionHandler.java:60-69 | a matching specification yields a demand |
| `Handlers.SystemExternalStep` | SQuATCallGraph/src/main/java/de/uka/ipd/sdq/pcmsolver/handler/InternalActionHandler.java:54-58 | one more container: skipped when it is not system-external, fails when it has no resource, and otherwise adds its first resource's demand |
| `Handlers.SystemExternalStop` | SQuATCallGraph/src/main/java/de/uka/ipd/sdq/pcmsolver/handler/InternalActionHandler.java:54-58 | a system-external container without a resource ends the action with an index failure |
| `Handlers.SystemExternalGrows` | SQuATCallGraph/src/main/java/de/uka/ipd/sdq/pcmsolver/handler/InternalActionHandler.java:54-58 | a system-external container with a resource yields a demand |
| `Handlers.GetTimeSpecification` | SQuATCallGraph/src/main/java/de/uka/ipd/sdq/pcmsolver/handler/ExternalCallActionHandler.java:170-201 | the nested loop returns the specification of the first execution time for the interface and the signature, or "0" |
| `Handlers.SearchGroup` | SQuATCallGraph/src/main/java/de/uka/ipd/sdq/pcmsolver/handler/ExternalCallActionHandler.java:176-197 | the inner loop finds a matching annotation exactly when the groups so far plus this one hold one, and returns the first one's specification |
| `Handlers.FirstWhereKeeps` | SQuATCallGraph/src/main/java/de/uka/ipd/sdq/pcmsolver/handler/ExternalCallActionHandler.java:170-201 | a match that was found is not displaced by later annotations |
| `Handlers.FlattenKeeps` | SQuATCallGraph/src/main/java/de/uka/ipd/sdq/pcmsolver/handler/ExternalCallActionHandler.java:170-201 | a match found in the first groups is the match of all groups |
| `Handlers.NoAnnotationZeroDemand` | SQuATCallGraph/src/main/java/de/uka/ipd/sdq/pcmsolver/handler/ExternalCallActionHandler.java:170-201 | with no execution time for the call, the demand is "0" |
| `Handlers.Rewired` | SQuATCallGraph/src/main/java/de/uka/ipd/sdq/pcmsolver/handler/ExternalCallActionHandler.java:129-131 | a step keeps its id; the call's successor becomes the new action, a Stop or internal action that followed the call gets the new action as predecessor, and every other step is unchanged (the references are opposites) |
| `Handlers.SpliceAfter` | SQuATCallGraph/src/main/java/de/uka/ipd/sdq/pcmsolver/handler/ExternalCallActionHandler.java:129-134 | every old step is rewired in place and the new action is added last to the behaviour's steps |
| `Handlers.CreateInternalAction` | SQuATCallGraph/src/main/java/de/uka/ipd/sdq/pcmsolver/handler/ExternalCallActionHandler.java:117-135 | one internal action with a single demand of the given specification and type, whose successor is the call's former successor and whose predecessor is the call, spliced into the steps as SpliceAfter says |
| `Handlers.ResourceEnvironment.constructor` | SQuATCallGraph/src/main/java/de/uka/ipd/sdq/pcmsolver/handler/ExternalCallActionHandler.java:137-168 | stores the containers and resource types |
| `Handlers.ResourceEnvironment.GetProcessingResourceType` | SQuATCallGraph/src/main/java/de/uka/ipd/sdq/pcmsolver/handler/ExternalCallActionHandler.java:137-145 | the first system-external container's first resource type, or a new type and container are registered; a second call then creates nothing |
| `Handlers.ResourceEnvironment.CreateNewProcessingResourceType` | SQuATCallGraph/src/main/java/de/uka/ipd/sdq/pcmsolver/handler/ExternalCallActionHandler.java:147-168 | registers the system-external type and one container offering it at rate 1.0 |
| `Handlers.HandleSystemExternalCall` | SQuATCallGraph/src/main/java/de/uka/ipd/sdq/pcmsolver/handler/ExternalCallActionHandler.java:66-75 | the call without a SEFF gets one synthetic internal action demanding its time specification, spliced into the control flow after the call; in an environment without a system-external container, the demand is on the system-external resource |
| `SeffSemantics.Find` | SQuATCallGraph/src/main/java/de/uka/ipd/sdq/pcmsolver/visitors/SeffVisitor.java:143-415 | a found action belongs to the behaviour and has the requested id |
| `SeffSemantics.SpliceFind` | SQuATCallGraph/src/main/java/de/uka/ipd/sdq/pcmsolver/handler/ExternalCallActionHandler.java:129-134 | after the splice, every id except the new action's dereferences to the rewired form of the step it named before |
| `SeffSemantics.SplicedCallReachesAction` | SQuATCallGraph/src/main/java/de/uka/ipd/sdq/pcmsolver/handler/ExternalCallActionHandler.java:129-134 | after the splice, the call's successor is the new action, the new action is found by its id, and a Stop that followed the call has the new action as predecessor |
| `SeffSemantics.GrowsTrans` | SQuATCallGraph/src/main/java/de/uka/ipd/sdq/pcmsolver/visitors/SeffVisitor.java:211-232 | "only grows" (graph and recorded demands) is transitive |
| `SeffSemantics.ExternalStepGrows` | SQuATCallGraph/src/main/java/de/uka/ipd/sdq/pcmsolver/visitors/SeffVisitor.java:225-228 | linking the owner to the callee keeps the graph well formed, takes nothing away, and leaves both entities in it |
| `SeffSemantics.InternalStepGrows` | SQuATCallGraph/src/main/java/de/uka/ipd/sdq/pcmsolver/visitors/SeffVisitor.java:276-281 | an internal action changes only demands, never drops one, and keeps the start action |
| `SeffSemantics.DoSwitchGrows` | SQuATCallGraph/src/main/java/de/uka/ipd/sdq/pcmsolver/visitors/SeffVisitor.java:143-415 | a walk from an entity of the graph keeps the graph well formed and only makes the graph and the demands grow |
| `SeffSemantics.ThenGrows` | SQuATCallGraph/src/main/java/de/uka/ipd/sdq/pcmsolver/visitors/SeffVisitor.java:143-415 | going on to the successor after a growing sub-walk still only grows |
| `SeffSemantics.VisitActionGrows` | SQuATCallGraph/src/main/java/de/uka/ipd/sdq/pcmsolver/visitors/SeffVisitor.java:143-415 | every case method only grows and keeps the graph well formed |
| `SeffSemantics.SimpleGrows` | SQuATCallGraph/src/main/java/de/uka/ipd/sdq/pcmsolver/visitors/SeffVisitor.java:158-162 | the actions that only continue or end the chain only grow |
| `SeffSemantics.ExternalCallGrows` | SQuATCallGraph/src/main/java/de/uka/ipd/sdq/pcmsolver/visitors/SeffVisitor.java:211-232 | an external call, replicas and successor included, only grows |
| `SeffSemantics.TransitionsGrow` | SQuATCallGraph/src/main/java/de/uka/ipd/sdq/pcmsolver/visitors/SeffVisitor.java:174-182 | the branch transitions only grow |
| `SeffSemantics.BehavioursGrow` | SQuATCallGraph/src/main/java/de/uka/ipd/sdq/pcmsolver/handler/ForkActionHandler.java:16-29 | forked behaviours only grow |
| `SeffSemantics.ForkGrows` | SQuATCallGraph/src/main/java/de/uka/ipd/sdq/pcmsolver/handler/ForkActionHandler.java:16-29 | the fork handler only grows |
| `SeffSemantics.ReplicasGrow` | SQuATCallGraph/src/main/java/de/uka/ipd/sdq/pcmsolver/handler/ExternalCallActionHandler.java:84-87 | the visitors of the replicas only grow |
| `SeffSemantics.ForkVisitsAsynchronousFirst` | SQuATCallGraph/src/main/java/de/uka/ipd/sdq/pcmsolver/handler/ForkActionHandler.java:16-29 | all asynchronous behaviours are visited before the synchronous ones |
| `SeffSemantics.BehavioursAppend` | SQuATCallGraph/src/main/java/de/uka/ipd/sdq/pcmsolver/handler/ForkActionHandler.java:16-29 | visiting two behaviour lists in turn is visiting their concatenation, stopping at the first exception |
| `SeffSemantics.ForkWithoutSynchronisation` | SQuATCallGraph/src/main/java/de/uka/ipd/sdq/pcmsolver/handler/ForkActionHandler.java:16-29 | without a synchronisation point only the asynchronous behaviours are visited |
| `SeffSemantics.TransitionsAppend` | SQuATCallGraph/src/main/java/de/uka/ipd/sdq/pcmsolver/visitors/SeffVisitor.java:174-182 | visiting two transition lists in turn is visiting their concatenation |
| `SeffSemantics.BranchVisitsInOrder` | SQuATCallGraph/src/main/java/de/uka/ipd/sdq/pcmsolver/visitors/SeffVisitor.java:174-182 | a branch visits its transitions in list order, then its successor |
| `SeffSemantics.EmptyBehaviourMarksOwnerEmpty` | SQuATCallGraph/src/main/java/de/uka/ipd/sdq/pcmsolver/visitors/SeffVisitor.java:389-415 | a SEFF whose start action is followed directly by its stop action marks the owner empty |
| `SeffSemantics.OneActionMarksOwnerNotEmpty` | SQuATCallGraph/src/main/java/de/uka/ipd/sdq/pcmsolver/visitors/SeffVisitor.java:389-415 | one action between start and stop marks the owner not empty |
| `SeffSemantics.RecoveryBlockEndsChain` | SQuATCallGraph/src/main/java/de/uka/ipd/sdq/pcmsolver/visitors/SeffVisitor.java:143-146 | a recovery block changes nothing and ends the chain |
| `SeffSemantics.ExternalCallLinksFirst` | SQuATCallGraph/src/main/java/de/uka/ipd/sdq/pcmsolver/visitors/SeffVisitor.java:211-232 | a call without a SEFF fails on the null SEFF before touching the graph; a call with no wrappers records exactly one call to the callee and then fails with the "no ContextWrapper" exception |
| `SeffVisiting.LinkCallee` | SQuATCallGraph/src/main/java/de/uka/ipd/sdq/pcmsolver/visitors/SeffVisitor.java:225-228 | getEntity then addLink on the graph: the new state is Linked of the old one, and the returned entity is the stored one |
| `SeffVisiting.RecordDemands` | SQuATCallGraph/src/main/java/de/uka/ipd/sdq/pcmsolver/handler/InternalActionHandler.java:44-72 | the demands go to the context's computed allocation context, after the earlier ones; without one, the first demand dereferences null and nothing is recorded |
| `SeffVisiting.SeffVisitor.constructor` | SQuATCallGraph/src/main/java/de/uka/ipd/sdq/pcmsolver/visitors/SeffVisitor.java:106-129 | a new visitor has its entity, graph, context and a null start action |
| `SeffVisiting.SeffVisitor.DoSwitch` | SQuATCallGraph/src/main/java/de/uka/ipd/sdq/pcmsolver/visitors/SeffVisitor.java:143-415 | the shared state, the start action and the error become those of SeffSemantics.DoSwitch |
| `SeffVisiting.SeffVisitor.DoSwitchBehaviour` | SQuATCallGraph/src/main/java/de/uka/ipd/sdq/pcmsolver/visitors/SeffVisitor.java:341-360 | the walk of a behaviour from its start action, as the value model computes it |
| `SeffVisiting.SeffVisitor.Then` | SQuATCallGraph/src/main/java/de/uka/ipd/sdq/pcmsolver/visitors/SeffVisitor.java:143-415 | the successor after a sub-visit, as the value model computes it |
| `SeffVisiting.SeffVisitor.VisitAction` | SQuATCallGraph/src/main/java/de/uka/ipd/sdq/pcmsolver/visitors/SeffVisitor.java:143-415 | every case method, as the value model computes it |
| `SeffVisiting.SeffVisitor.VisitSimple` | SQuATCallGraph/src/main/java/de/uka/ipd/sdq/pcmsolver/visitors/SeffVisitor.java:158-162 | acquire, release, set variable, start, stop and recovery block, as the value model computes them |
| `SeffVisiting.SeffVisitor.VisitBranch` | SQuATCallGraph/src/main/java/de/uka/ipd/sdq/pcmsolver/visitors/SeffVisitor.java:174-182 | the branch then its successor, as the value model computes it |
| `SeffVisiting.SeffVisitor.VisitBody` | SQuATCallGraph/src/main/java/de/uka/ipd/sdq/pcmsolver/visitors/SeffVisitor.java:293-298 | loop and collection iterator actions, as the value model computes them |
| `SeffVisiting.SeffVisitor.VisitForkThen` | SQuATCallGraph/src/main/java/de/uka/ipd/sdq/pcmsolver/visitors/SeffVisitor.java:244-249 | the fork then its successor, as the value model computes it |
| `SeffVisiting.SeffVisitor.VisitInternal` | SQuATCallGraph/src/main/java/de/uka/ipd/sdq/pcmsolver/visitors/SeffVisitor.java:276-281 | the internal action then its successor, as the value model computes it |
| `SeffVisiting.SeffVisitor.VisitTransitions` | SQuATCallGraph/src/main/java/de/uka/ipd/sdq/pcmsolver/visitors/SeffVisitor.java:177-179 | the loop over the transitions, as the value model computes it |
| `SeffVisiting.SeffVisitor.VisitBehaviours` | SQuATCallGraph/src/main/java/de/uka/ipd/sdq/pcmsolver/handler/ForkActionHandler.java:16-29 | the loop over the forked behaviours, as the value model computes it |
| `SeffVisiting.SeffVisitor.VisitFork` | SQuATCallGraph/src/main/java/de/uka/ipd/sdq/pcmsolver/handler/ForkActionHandler.java:16-29 | the fork handler, as the value model computes it |
| `SeffVisiting.SeffVisitor.VisitExternalCall` | SQuATCallGraph/src/main/java/de/uka/ipd/sdq/pcmsolver/visitors/SeffVisitor.java:211-232 | the external call, as the value model computes it |
| `SeffVisiting.SeffVisitor.VisitResolved` | SQuATCallGraph/src/main/java/de/uka/ipd/sdq/pcmsolver/visitors/SeffVisitor.java:225-230 | a call with a SEFF: the link, then the handler on the callee |
| `SeffVisiting.SeffVisitor.VisitCallee` | SQuATCallGraph/src/main/java/de/uka/ipd/sdq/pcmsolver/handler/ExternalCallActionHandler.java:76-99 | the handler's replica loop, the "no ContextWrapper" exception, then the successor |
| `SeffVisiting.SeffVisitor.VisitReplicas` | SQuATCallGraph/src/main/java/de/uka/ipd/sdq/pcmsolver/handler/ExternalCallActionHandler.java:84-87 | the replica loop, as the value model computes it |
| `SeffVisiting.SeffVisitor.VisitReplica` | SQuATCallGraph/src/main/java/de/uka/ipd/sdq/pcmsolver/handler/ExternalCallActionHandler.java:108-115 | a fresh visitor for one replica, walking the SEFF with a null start action |
| `UsageSemantics.Find` | SQuATCallGraph/src/main/java/de/uka/ipd/sdq/pcmsolver/visitors/UsageModelVisitor.java:73-201 | a found action belongs to the behaviour and has the requested id |
| `UsageSemantics.StartOf` | SQuATCallGraph/src/main/java/de/uka/ipd/sdq/pcmsolver/visitors/UsageModelVisitor.java:198-201 | the id of a Start action of the behaviour, and none exactly when there is none |
| `UsageSemantics.NewGraph` | SQuATCallGraph/src/main/java/de/uka/ipd/sdq/pcmsolver/visitors/UsageModelVisitor.java:126-130 | the new graph is named by the signature, identified by its id, carries the interface name, and holds only the start entity |
| `UsageSemantics.EntryTarget` | SQuATCallGraph/src/main/java/de/uka/ipd/sdq/pcmsolver/visitors/UsageModelVisitor.java:151-156 | the entity a wrapper's SEFF is reached at: the SEFF's component with the call's signature and interface |
| `UsageSemantics.DoSwitchKeepsGraphs` | SQuATCallGraph/src/main/java/de/uka/ipd/sdq/pcmsolver/visitors/UsageModelVisitor.java:73-192 | a usage walk never changes or drops a graph generated before it |
| `UsageSemantics.DoSwitchBehaviourKeepsGraphs` | SQuATCallGraph/src/main/java/de/uka/ipd/sdq/pcmsolver/visitors/UsageModelVisitor.java:73-77 | walking a scenario behaviour never changes an earlier graph |
| `UsageSemantics.ThenKeepsGraphs` | SQuATCallGraph/src/main/java/de/uka/ipd/sdq/pcmsolver/visitors/UsageModelVisitor.java:87-192 | going on to the successor never changes an earlier graph |
| `UsageSemantics.VisitBehavioursKeepGraphs` | SQuATCallGraph/src/main/java/de/uka/ipd/sdq/pcmsolver/visitors/UsageModelVisitor.java:107-115 | branch transitions never change an earlier graph |
| `UsageSemantics.VisitActionKeepsGraphs` | SQuATCallGraph/src/main/java/de/uka/ipd/sdq/pcmsolver/visitors/UsageModelVisitor.java:87-192 | no case method changes an earlier graph |
| `UsageSemantics.EntryCallAddsOneGraph` | SQuATCallGraph/src/main/java/de/uka/ipd/sdq/pcmsolver/visitors/UsageModelVisitor.java:125-177 | a system call generates exactly one graph, at the end of the list, with the call's names and start entity, whatever its wrappers do afterwards |
| `UsageSemantics.ReplicasRecordCalls` | SQuATCallGraph/src/main/java/de/uka/ipd/sdq/pcmsolver/visitors/UsageModelVisitor.java:142-167 | without an exception, k wrappers of one component record the call from the start entity to that component's entity at least k times |
| `UsageSemantics.LoopVisitsBodyOnce` | SQuATCallGraph/src/main/java/de/uka/ipd/sdq/pcmsolver/visitors/UsageModelVisitor.java:187-192 | a loop behaves like a branch with its body as the only transition |
| `UsageSemantics.BranchVisitsInOrder` | SQuATCallGraph/src/main/java/de/uka/ipd/sdq/pcmsolver/visitors/UsageModelVisitor.java:107-115 | branch transitions are visited in list order, and the walk stops at the first exception |
| `UsageSemantics.OneCallScenario` | SQuATCallGraph/src/main/java/de/uka/ipd/sdq/pcmsolver/visitors/UsageModelVisitor.java:87-177 | the scenario start, one system call, stop is exactly that call's step: one graph added, earlier graphs kept |
| `UsageVisiting.Records` | SQuATCallGraph/src/main/java/io/github/squat_team/callgraph/data/CallGraphManager.java:20-22 | the manager's graphs as values, one per graph, in order |
| `UsageVisiting.RecordsAppend` | SQuATCallGraph/src/main/java/io/github/squat_team/callgraph/data/CallGraphManager.java:14-18 | appending a graph appends its value |
| `UsageVisiting.UsageModelVisitor.constructor` | SQuATCallGraph/src/main/java/de/uka/ipd/sdq/pcmsolver/visitors/UsageModelVisitor.java:57-63 | a visitor starts with a fresh manager holding no graph |
| `UsageVisiting.UsageModelVisitor.DoSwitch` | SQuATCallGraph/src/main/java/de/uka/ipd/sdq/pcmsolver/visitors/UsageModelVisitor.java:87-192 | the graphs, demands and error become those of UsageSemantics.DoSwitch |
| `UsageVisiting.UsageModelVisitor.DoSwitchBehaviour` | SQuATCallGraph/src/main/java/de/uka/ipd/sdq/pcmsolver/visitors/UsageModelVisitor.java:73-77 | caseScenarioBehaviour, as the value model computes it |
| `UsageVisiting.UsageModelVisitor.Then` | SQuATCallGraph/src/main/java/de/uka/ipd/sdq/pcmsolver/visitors/UsageModelVisitor.java:87-192 | the successor after a sub-visit, as the value model computes it |
| `UsageVisiting.UsageModelVisitor.VisitBehaviours` | SQuATCallGraph/src/main/java/de/uka/ipd/sdq/pcmsolver/visitors/UsageModelVisitor.java:107-115 | caseBranch's loop, as the value model computes it |
| `UsageVisiting.UsageModelVisitor.VisitAction` | SQuATCallGraph/src/main/java/de/uka/ipd/sdq/pcmsolver/visitors/UsageModelVisitor.java:87-192 | every case method, as the value model computes it |
| `UsageVisiting.UsageModelVisitor.VisitEntryLevelSystemCall` | SQuATCallGraph/src/main/java/de/uka/ipd/sdq/pcmsolver/visitors/UsageModelVisitor.java:125-177 | caseEntryLevelSystemCall up to its successor, as EntryCallStep computes it |
| `UsageVisiting.UsageModelVisitor.VisitReplicas` | SQuATCallGraph/src/main/java/de/uka/ipd/sdq/pcmsolver/visitors/UsageModelVisitor.java:142-167 | the loop over the context wrappers, as the value model computes it |
| `UsageVisiting.UsageModelVisitor.VisitReplica` | SQuATCallGraph/src/main/java/de/uka/ipd/sdq/pcmsolver/visitors/UsageModelVisitor.java:143-161 | one wrapper: the start link and a fresh SEFF visitor; the graph stays well formed |

## Left out

- Object identity: entities and links are values in maps keyed by the concatenated strings the
  source uses. Aliasing of `CallEntity` objects is not modelled; the three graph methods work on
  the stored value.
- Hash-map and hash-set iteration order: the exporters and the DOT builder take the orders as
  parameters, with the precondition that each lists every element once.
- I/O: writing files, running `dot`, the temporary directory, logging, and reading the OS name,
  the line separator and the file separator from the system (they are parameters).
- PCM model loading and EMF: the instance is a small set of datatypes (`Pcm`,
  `ContextWrapping.PcmInstance`).
- `ContextWrapper.getContextWrapperFor` and `getNextSEFF`: modelled as parameters. The usage walk
  gets each system call's wrappers, with their SEFFs, from `UsageEnv.replicas`. The SEFF walk
  gets its SEFF and replicas from `SeffSemantics.Env.resolve`. Their building blocks
  (`FindProvidingAssemblyContexts`, `CreateContextWrappersBasedOnTemplate` and the rest) are
  modelled on their own.
- `readComputedContextsToHashMaps`, `handleComputedContexts` and component parameters: the
  computed usage contexts are given, and no usage context is derived from input parameters.
- `ExpressionHelper`: solving a stochastic expression is a parameter (`solve`), so the model does
  not compute demand values. `BYTESIZE` and PMF conversion are commented out in the source.
- `storeOutputParametersToUsageContext` and the set-variable handler: the helpers they call are
  not part of this model, so these actions have no effect on the state.
- `LoopActionHandler`, `CollectionIteratorActionHandler`, `GuardedBranchTransitionHandler` and
  `ProbabilisticBranchTransitionHandler` (called at SQuATCallGraph/src/main/java/de/uka/ipd/sdq/pcmsolver/visitors/SeffVisitor.java:194-197,
  261-262, 293-296 and 310-311) are not part of this model. The model visits each nested
  behaviour of a loop, iterator, guarded or probabilistic transition exactly once.
- Recursion depth: every walk takes a `fuel` parameter and fails with `RecursionLimit` when the
  fuel runs out. This stands in for the Java stack, which a cyclic model would overflow.
- `Link.count` is an unbounded integer; the Java `int` wrap-around after 2^31 - 1 calls is not
  modelled.
- The handler's fallback demand of "0" for a call without a SEFF
  (SQuATCallGraph/src/main/java/de/uka/ipd/sdq/pcmsolver/handler/ExternalCallActionHandler.java:199-200) is never reached from the SEFF walk:
  `caseExternalCallAction` (SQuATCallGraph/src/main/java/de/uka/ipd/sdq/pcmsolver/visitors/SeffVisitor.java:214-222) dereferences the SEFF
  first, so such a call fails with `NullPointer("seff")` in the model. The fallback itself is
  modelled on its own (`Handlers.HandleSystemExternalCall`).
- `setEmpty` (SQuATCallGraph/src/main/java/io/github/squat_team/callgraph/data/CallEntity.java:62-64) overwrites the flag, so a later `setEmpty(true)`
  marks a non-empty entity empty again; the model does the same.
- Computed allocation contexts: the SEFF and usage visitors take them up front, as the fixed map
  `sinks`. A replica whose (allocation context id, usage context id) key is missing from that map
  makes an internal action with demands fail with `NullPointer("compAllCtx")`. That failure is
  unreachable in the source, which finds or creates the context for every wrapper with
  `getNextComputedAllocationContext` (SQuATCallGraph/src/main/java/de/uka/ipd/sdq/pcmsolver/transformations/ContextWrapper.java:243-245).
- `CallGraphSpec.SetEmptyV` is total: on a key that is not stored it changes nothing. The source
  would dereference null there, but no caller reaches that case.
- `UsageSemantics.ReplicasRecordCalls`: states "at least k calls" rather than exactly k, because
  a SEFF walk may record a link whose concatenated key equals the start link's
  (`CallGraphSpec.KeysCanCollide`).
