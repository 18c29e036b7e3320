/**
 * The static workflow graph of `orchestrator.py` (`_build_graph`): nine named
 * nodes, the declared edges, entry `chat_history` and exit from `response`,
 * and each node's state footprint (the fields it reads and writes).
 */
module WorkflowGraph {

  /** The nodes registered with `add_node`, in registration order. */
  datatype Node =
    | ChatHistory | FarmerInteraction | FarmerProfile | SensorData | Weather
    | CropHealth | DiseasePrediction | LifecyclePlanning | Response

  /** The `State` fields. */
  datatype Field =
    | UserId | SessionId | Message | Intent | History | HistorySummary | Profile
    | Sensors | WeatherReport | CropAnalysis | DiseaseRisk | Plan | FinalResponse | Trace

  /** The name a node is registered under. */
  function NodeName(n: Node): string
  {
    match n
    case ChatHistory => "chat_history"
    case FarmerInteraction => "farmer_interaction"
    case FarmerProfile => "farmer_profile"
    case SensorData => "sensor_data"
    case Weather => "weather"
    case CropHealth => "crop_health"
    case DiseasePrediction => "disease_prediction"
    case LifecyclePlanning => "lifecycle_planning"
    case Response => "response"
  }

  /** The state dictionary key of a field. */
  function FieldName(f: Field): string
  {
    match f
    case UserId => "user_id"
    case SessionId => "session_id"
    case Message => "message"
    case Intent => "intent"
    case History => "history"
    case HistorySummary => "history_summary"
    case Profile => "profile"
    case Sensors => "sensors"
    case WeatherReport => "weather"
    case CropAnalysis => "crop_analysis"
    case DiseaseRisk => "disease_risk"
    case Plan => "plan"
    case FinalResponse => "final_response"
    case Trace => "trace"
  }

  /** An edge ends at a node or at langgraph's `END`. */
  datatype Target = To(node: Node) | End

  datatype Edge = Edge(from: Node, to: Target)

  /** The compiled graph: its nodes, entry point and edges, as declared. */
  datatype Graph = Graph(nodes: seq<Node>, entry: Node, edges: set<Edge>)

  /** `_build_graph()`. */
  const Declared: Graph := Graph(
    [ChatHistory, FarmerInteraction, FarmerProfile, SensorData, Weather,
     CropHealth, DiseasePrediction, LifecyclePlanning, Response],
    ChatHistory,
    {Edge(ChatHistory, To(FarmerInteraction)),
     Edge(FarmerInteraction, To(FarmerProfile)),
     Edge(FarmerProfile, To(SensorData)),
     Edge(FarmerProfile, To(Weather)),
     Edge(SensorData, To(CropHealth)),
     Edge(SensorData, To(DiseasePrediction)),
     Edge(Weather, To(DiseasePrediction)),
     Edge(Weather, To(LifecyclePlanning)),
     Edge(CropHealth, To(Response)),
     Edge(DiseasePrediction, To(Response)),
     Edge(LifecyclePlanning, To(Response)),
     Edge(Response, End)})

  predicate HasEdge(a: Node, b: Node)
  {
    Edge(a, To(b)) in Declared.edges
  }

  /** The nodes with an edge into `n`. */
  function Upstreams(n: Node): set<Node>
  {
    set e | e in Declared.edges && e.to == To(n) :: e.from
  }

  /** The order in which one sequential run executes the nodes. */
  const Order: seq<Node> :=
    [ChatHistory, FarmerInteraction, FarmerProfile, SensorData, Weather,
     CropHealth, DiseasePrediction, LifecyclePlanning, Response]

  /** Position of a node in `Order`. */
  function Rank(n: Node): (r: nat)
    ensures r < |Order| && Order[r] == n
  {
    match n
    case ChatHistory => 0
    case FarmerInteraction => 1
    case FarmerProfile => 2
    case SensorData => 3
    case Weather => 4
    case CropHealth => 5
    case DiseasePrediction => 6
    case LifecyclePlanning => 7
    case Response => 8
  }

  /** A non-empty walk along declared node-to-node edges. */
  predicate IsPath(p: seq<Node>)
  {
    |p| >= 1 && forall i :: 0 <= i < |p| - 1 ==> HasEdge(p[i], p[i + 1])
  }

  ghost predicate Reaches(a: Node, b: Node)
  {
    exists p :: IsPath(p) && p[0] == a && p[|p| - 1] == b
  }

  /** `a` is a proper ancestor of `b`: some walk of at least one edge leads from `a` to `b`. */
  ghost predicate Ancestor(a: Node, b: Node)
  {
    exists p :: IsPath(p) && |p| >= 2 && p[0] == a && p[|p| - 1] == b
  }

  // ---------- the shape of the graph ----------

  /** The registered nodes are exactly the nine nodes, each once, with distinct names. */
  lemma NodesAreDistinct()
    ensures forall n: Node :: n in Declared.nodes
    ensures forall i, j :: 0 <= i < j < |Declared.nodes| ==> Declared.nodes[i] != Declared.nodes[j]
    ensures forall a: Node, b: Node :: NodeName(a) == NodeName(b) ==> a == b
  {
    forall n: Node ensures n in Declared.nodes {
      assert Declared.nodes[Rank(n)] == n;
    }
    forall a: Node, b: Node | NodeName(a) == NodeName(b) ensures a == b {
      assert |NodeName(a)| == |NodeName(b)|;
      assert NodeName(a)[0] == NodeName(b)[0];
      assert NodeName(a)[|NodeName(a)| - 1] == NodeName(b)[|NodeName(b)| - 1];
    }
  }

  /** Every declared edge goes forward in `Order`, so `Order` is a topological order. */
  lemma EdgesGoForward()
    ensures forall a, b :: HasEdge(a, b) ==> Rank(a) < Rank(b)
  {
  }

  /** Along a walk the rank grows by at least one per edge. */
  lemma {:induction false} PathClimbs(p: seq<Node>)
    requires IsPath(p)
    ensures Rank(p[0]) + |p| - 1 <= Rank(p[|p| - 1])
  {
    if |p| > 1 {
      var tail := p[1..];
      assert IsPath(tail) by {
        forall i | 0 <= i < |tail| - 1 ensures HasEdge(tail[i], tail[i + 1]) {
          assert tail[i] == p[i + 1] && tail[i + 1] == p[i + 2];
        }
      }
      PathClimbs(tail);
      assert HasEdge(p[0], p[1]);
      EdgesGoForward();
    }
  }

  /** The declared edges are acyclic: no walk of one or more edges returns to its start. */
  lemma Acyclic(p: seq<Node>)
    requires IsPath(p) && |p| >= 2
    ensures p[0] != p[|p| - 1]
  {
    PathClimbs(p);
  }

  /** No walk is longer than the number of nodes. */
  lemma PathsAreShort(p: seq<Node>)
    requires IsPath(p)
    ensures |p| <= |Order|
  {
    PathClimbs(p);
  }

  /** Nothing leads into the entry point. */
  lemma EntryHasNoUpstream()
    ensures Declared.entry == ChatHistory && Upstreams(ChatHistory) == {}
    ensures forall n :: !Ancestor(n, ChatHistory)
  {
    forall n | Ancestor(n, ChatHistory) ensures false {
      var p :| IsPath(p) && |p| >= 2 && p[0] == n && p[|p| - 1] == ChatHistory;
      PathClimbs(p);
    }
  }

  /** A walk from the entry to each node. */
  function EntryRoute(n: Node): (p: seq<Node>)
    ensures IsPath(p) && p[0] == ChatHistory && p[|p| - 1] == n
  {
    match n
    case ChatHistory => [ChatHistory]
    case FarmerInteraction => [ChatHistory, FarmerInteraction]
    case FarmerProfile => [ChatHistory, FarmerInteraction, FarmerProfile]
    case SensorData => [ChatHistory, FarmerInteraction, FarmerProfile, SensorData]
    case Weather => [ChatHistory, FarmerInteraction, FarmerProfile, Weather]
    case CropHealth => [ChatHistory, FarmerInteraction, FarmerProfile, SensorData, CropHealth]
    case DiseasePrediction => [ChatHistory, FarmerInteraction, FarmerProfile, SensorData, DiseasePrediction]
    case LifecyclePlanning => [ChatHistory, FarmerInteraction, FarmerProfile, Weather, LifecyclePlanning]
    case Response => [ChatHistory, FarmerInteraction, FarmerProfile, SensorData, CropHealth, Response]
  }

  /** A walk from each node to `response`. */
  function ExitRoute(n: Node): (p: seq<Node>)
    ensures IsPath(p) && p[0] == n && p[|p| - 1] == Response
  {
    match n
    case ChatHistory => [ChatHistory, FarmerInteraction, FarmerProfile, SensorData, CropHealth, Response]
    case FarmerInteraction => [FarmerInteraction, FarmerProfile, SensorData, CropHealth, Response]
    case FarmerProfile => [FarmerProfile, SensorData, CropHealth, Response]
    case SensorData => [SensorData, CropHealth, Response]
    case Weather => [Weather, LifecyclePlanning, Response]
    case CropHealth => [CropHealth, Response]
    case DiseasePrediction => [DiseasePrediction, Response]
    case LifecyclePlanning => [LifecyclePlanning, Response]
    case Response => [Response]
  }

  /** Every node is reachable from the entry and reaches `response`. */
  lemma AllNodesOnEntryToExitPaths(n: Node)
    ensures Reaches(Declared.entry, n)
    ensures Reaches(n, Response)
  {
    var p := EntryRoute(n);
    var q := ExitRoute(n);
    assert IsPath(p) && p[0] == Declared.entry && p[|p| - 1] == n;
    assert IsPath(q) && q[0] == n && q[|q| - 1] == Response;
  }

  /** `response` is the only node with an edge to `END`, and it has no other outgoing edge. */
  lemma ResponseIsTheOnlyExit()
    ensures Edge(Response, End) in Declared.edges
    ensures forall e :: e in Declared.edges && e.to == End ==> e.from == Response
    ensures forall e :: e in Declared.edges && e.from == Response ==> e.to == End
  {
  }

  /** The fan-in points: `response` joins three branches, `disease_prediction` two. */
  lemma FanIn()
    ensures Upstreams(Response) == {CropHealth, DiseasePrediction, LifecyclePlanning}
    ensures Upstreams(DiseasePrediction) == {SensorData, Weather}
  {
  }

  // ---------- the state footprint of each node ----------

  /** The fields of the initial state built by `run_langgraph_workflow`. */
  const InitialFields: set<Field> := {UserId, SessionId, Message, Trace}

  /** The fields a node reads before writing (`state[...]` and `state.get(...)`), besides `trace`. */
  function Reads(n: Node): set<Field>
  {
    match n
    case ChatHistory => {UserId, SessionId}
    case FarmerInteraction => {Message}
    case FarmerProfile => {UserId}
    case SensorData => {UserId}
    case Weather => {Profile}
    case CropHealth => {Profile, Sensors, HistorySummary}
    case DiseasePrediction => {Profile, Sensors, WeatherReport, HistorySummary}
    case LifecyclePlanning => {Profile, WeatherReport}
    case Response =>
      {Message, Profile, HistorySummary, CropAnalysis, DiseaseRisk, Plan, WeatherReport, Sensors, UserId, SessionId}
  }

  /** The fields a node assigns (`state[...] = ...`), besides appending to `trace`. */
  function Writes(n: Node): set<Field>
  {
    match n
    case ChatHistory => {History, HistorySummary}
    case FarmerInteraction => {Intent}
    case FarmerProfile => {Profile}
    case SensorData => {Sensors}
    case Weather => {WeatherReport}
    case CropHealth => {CropAnalysis}
    case DiseasePrediction => {DiseaseRisk}
    case LifecyclePlanning => {Plan}
    case Response => {FinalResponse}
  }

  /** The node that writes a produced (non-initial) field. */
  function WriterOf(f: Field): Node
    requires f !in InitialFields
  {
    match f
    case History => ChatHistory
    case HistorySummary => ChatHistory
    case Intent => FarmerInteraction
    case Profile => FarmerProfile
    case Sensors => SensorData
    case WeatherReport => Weather
    case CropAnalysis => CropHealth
    case DiseaseRisk => DiseasePrediction
    case Plan => LifecyclePlanning
    case FinalResponse => Response
  }

  /**
   * Every field outside the initial state is written by exactly one node, and no
   * node assigns an initial field (`trace` is only appended to).
   */
  lemma UniqueWriters()
    ensures forall n, f :: f in Writes(n) <==> f !in InitialFields && n == WriterOf(f)
  {
  }

  /** `intent` and `history` are written but no node reads them. */
  lemma UnreadFields()
    ensures forall n :: Intent !in Reads(n) && History !in Reads(n)
  {
  }

  /** A walk of at least one edge to the reader, starting at the field's writer. */
  function ReadRoute(n: Node, f: Field): seq<Node>
  {
    match f
    case HistorySummary => EntryRoute(n)
    case Profile => if n == Response then [FarmerProfile, SensorData, CropHealth, Response]
                    else if n == DiseasePrediction || n == CropHealth then [FarmerProfile, SensorData, n]
                    else if n == LifecyclePlanning then [FarmerProfile, Weather, n]
                    else [FarmerProfile, n]
    case Sensors => if n == Response then [SensorData, CropHealth, Response] else [SensorData, n]
    case WeatherReport => if n == Response then [Weather, LifecyclePlanning, Response] else [Weather, n]
    case _ => [WriterOfOr(f), n]
  }

  function WriterOfOr(f: Field): Node
  {
    if f in InitialFields then ChatHistory else WriterOf(f)
  }

  /**
   * Every field a node reads is in the initial state or is written by a proper
   * ancestor of that node, so in any topological execution it is already there.
   */
  lemma ReadsComeFromAncestors(n: Node, f: Field)
    requires f in Reads(n)
    ensures f in InitialFields || Ancestor(WriterOf(f), n)
  {
    if f !in InitialFields {
      var p := ReadRoute(n, f);
      ReadRouteIsPath(n, f);
      assert IsPath(p) && |p| >= 2 && p[0] == WriterOf(f) && p[|p| - 1] == n;
    }
  }

  /** `ReadRoute(n, f)` is a walk from the writer of `f` to the reader `n`. */
  lemma ReadRouteIsPath(n: Node, f: Field)
    requires f in Reads(n) && f !in InitialFields
    ensures var p := ReadRoute(n, f); IsPath(p) && |p| >= 2 && p[0] == WriterOf(f) && p[|p| - 1] == n
  {
    match f {
      case HistorySummary =>
      case Profile => ProfileRouteIsPath(n);
      case Sensors =>
      case WeatherReport =>
      case _ =>
    }
  }

  /** The `profile` case of `ReadRouteIsPath`, the one with the most readers. */
  lemma ProfileRouteIsPath(n: Node)
    requires Profile in Reads(n)
    ensures var p := ReadRoute(n, Profile); IsPath(p) && |p| >= 2 && p[0] == FarmerProfile && p[|p| - 1] == n
  {
    if n == Response {
      assert HasEdge(FarmerProfile, SensorData) && HasEdge(SensorData, CropHealth) && HasEdge(CropHealth, Response);
    }
  }

  /** Every node reads only what its earlier peers in `Order` (or the initial state) provide. */
  lemma ReadsAvailableInOrder(i: nat, f: Field)
    requires i < |Order| && f in Reads(Order[i])
    ensures f in InitialFields || exists j :: 0 <= j < i && f in Writes(Order[j])
  {
    if f !in InitialFields {
      var n, w := Order[i], WriterOf(f);
      ReadRouteIsPath(n, f);
      PathClimbs(ReadRoute(n, f));
      assert Rank(n) == i;
      assert f in Writes(Order[Rank(w)]);
    }
  }
}
