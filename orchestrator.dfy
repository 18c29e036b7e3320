/**
 * State threading in `orchestrator.py`: the shared `State` dictionary, the
 * defaulting rules each node applies when it reads a field, what each node
 * writes, the trace it appends to, and one sequential run of the nine nodes in
 * a topological order of the declared edges.
 *
 * LLM replies and the profile, sensor and weather tools are uninterpreted
 * inputs (`Env`); a prompt is the node that sends it together with the values
 * interpolated into it.
 */
module Orchestrator {
  import opened Wrappers
  import opened TextUtil
  import opened HistoryTool
  import opened WorkflowGraph

  /** The two keys of a farmer profile the nodes look at; `None` is a missing key. */
  datatype ProfileRecord = ProfileRecord(location: Option<string>, crops: Option<seq<string>>)

  /** The empty dictionary `{}` used as a default profile. */
  const NoProfile: ProfileRecord := ProfileRecord(None, None)

  /** A value stored under a `State` key, or interpolated into a prompt. */
  datatype Value =
    | Text(text: string)
    | Turns(turns: seq<Turn>)
    | Record(profile: ProfileRecord)
    | Reading(entries: map<string, string>)
    | Notes(notes: seq<string>)

  /**
   * `State(TypedDict, total=False)`: one slot per key, of the key's annotated
   * type; `None` is a key absent from the dictionary.
   */
  datatype State = State(
    userId: Option<string>,
    sessionId: Option<string>,
    message: Option<string>,
    intent: Option<string>,
    history: Option<seq<Turn>>,
    historySummary: Option<string>,
    profile: Option<ProfileRecord>,
    sensors: Option<map<string, string>>,
    weather: Option<map<string, string>>,
    cropAnalysis: Option<string>,
    diseaseRisk: Option<string>,
    plan: Option<string>,
    finalResponse: Option<string>,
    trace: Option<seq<string>>)

  function TextSlot(o: Option<string>): Option<Value>
  {
    match o
    case Some(t) => Some(Text(t))
    case None => None
  }

  /** The dictionary view of a state: what `state.get(key)` finds under each key. */
  function Lookup(st: State, f: Field): Option<Value>
  {
    match f
    case UserId => TextSlot(st.userId)
    case SessionId => TextSlot(st.sessionId)
    case Message => TextSlot(st.message)
    case Intent => TextSlot(st.intent)
    case History => if st.history.Some? then Some(Turns(st.history.value)) else None
    case HistorySummary => TextSlot(st.historySummary)
    case Profile => if st.profile.Some? then Some(Record(st.profile.value)) else None
    case Sensors => if st.sensors.Some? then Some(Reading(st.sensors.value)) else None
    case WeatherReport => if st.weather.Some? then Some(Reading(st.weather.value)) else None
    case CropAnalysis => TextSlot(st.cropAnalysis)
    case DiseaseRisk => TextSlot(st.diseaseRisk)
    case Plan => TextSlot(st.plan)
    case FinalResponse => TextSlot(st.finalResponse)
    case Trace => if st.trace.Some? then Some(Notes(st.trace.value)) else None
  }

  /** `key in state`. */
  predicate Present(st: State, f: Field)
  {
    Lookup(st, f).Some?
  }

  /** Two states with the same dictionary view are the same state. */
  lemma LookupDetermines(a: State, b: State)
    requires forall f :: Lookup(a, f) == Lookup(b, f)
    ensures a == b
  {
    SameSlot(a, b, UserId);
    SameSlot(a, b, SessionId);
    SameSlot(a, b, Message);
    SameSlot(a, b, Intent);
    SameSlot(a, b, History);
    SameSlot(a, b, HistorySummary);
    SameSlot(a, b, Profile);
    SameSlot(a, b, Sensors);
    SameSlot(a, b, WeatherReport);
    SameSlot(a, b, CropAnalysis);
    SameSlot(a, b, DiseaseRisk);
    SameSlot(a, b, Plan);
    SameSlot(a, b, FinalResponse);
    SameSlot(a, b, Trace);
  }

  /** The slot behind one key is determined by what `Lookup` finds there. */
  lemma SameSlot(a: State, b: State, f: Field)
    requires Lookup(a, f) == Lookup(b, f)
    ensures f == UserId ==> a.userId == b.userId
    ensures f == SessionId ==> a.sessionId == b.sessionId
    ensures f == Message ==> a.message == b.message
    ensures f == Intent ==> a.intent == b.intent
    ensures f == History ==> a.history == b.history
    ensures f == HistorySummary ==> a.historySummary == b.historySummary
    ensures f == Profile ==> a.profile == b.profile
    ensures f == Sensors ==> a.sensors == b.sensors
    ensures f == WeatherReport ==> a.weather == b.weather
    ensures f == CropAnalysis ==> a.cropAnalysis == b.cropAnalysis
    ensures f == DiseaseRisk ==> a.diseaseRisk == b.diseaseRisk
    ensures f == Plan ==> a.plan == b.plan
    ensures f == FinalResponse ==> a.finalResponse == b.finalResponse
    ensures f == Trace ==> a.trace == b.trace
  {
  }

  /** What a node sends to the LLM: which node it is (its fixed instructions) and the interpolated values. */
  datatype Prompt = Prompt(node: Node, parts: seq<Value>)

  /** The outside world: the mock tools and the LLM, as functions of what they are given. */
  datatype Env = Env(
    profileOf: string -> ProfileRecord,
    sensorsOf: string -> map<string, string>,
    weatherAt: string -> map<string, string>,
    llm: Prompt -> string)

  /** Why a run raises: a `KeyError` on `state[...]`, or `IndexError` on `split()[0]` of a blank reply. */
  datatype Failure = MissingField(field: Field) | NoIntent(reply: string)

  /** The shared state together with the chat-history store. */
  datatype World = World(state: State, logs: map<string, seq<Turn>>)

  // ---------- reading fields ----------

  /** `state.get(key, default)` on a text key. */
  function TextOr(o: Option<string>, default: string): string
  {
    match o
    case Some(t) => t
    case None => default
  }

  /** The notes in `trace`, `[]` when it is absent (`state.get("trace", [])`). */
  function TraceOf(st: State): seq<string>
  {
    match st.trace
    case Some(t) => t
    case None => []
  }

  /** The profile as the nodes read it: `state.get("profile", {})`, or `{}` for a missing one. */
  function ProfileIn(st: State): ProfileRecord
  {
    match st.profile
    case Some(p) => p
    case None => NoProfile
  }

  /** `state.get(key, {})` on a reading key. */
  function ReadingOr(o: Option<map<string, string>>): map<string, string>
  {
    match o
    case Some(r) => r
    case None => map[]
  }

  /** `str(state.get(key, ""))`: the reading, or the empty string when it is absent. */
  function Shown(o: Option<map<string, string>>): Value
  {
    match o
    case Some(r) => Reading(r)
    case None => Text("")
  }

  /** `crops[0] if crops else "unknown crop"` where `crops = profile.get("crops", [])`. */
  function CropOf(p: ProfileRecord): (crop: string)
    ensures p.crops.Some? && p.crops.value != [] ==> crop == p.crops.value[0]
    ensures p.crops.None? || p.crops.value == [] ==> crop == "unknown crop"
  {
    match p.crops
    case Some(crops) => if crops != [] then crops[0] else "unknown crop"
    case None => "unknown crop"
  }

  /** `profile.get("location", "Unknown")` on the profile or `{}`. */
  function LocationOf(p: ProfileRecord): (location: string)
    ensures p.location.Some? ==> location == p.location.value
    ensures p.location.None? ==> location == "Unknown"
  {
    match p.location
    case Some(l) => l
    case None => "Unknown"
  }

  /** `f"{profile.get('location')}"`: a missing location prints as `None`. */
  function LocationText(p: ProfileRecord): string
  {
    match p.location
    case Some(l) => l
    case None => "None"
  }

  /** The history text sent for summarising: the rendering, or `"No prior messages."` when it is empty. */
  function HistoryPrompt(history: seq<Turn>): (r: string)
    ensures history == [] ==> r == "No prior messages."
    ensures history != [] ==> r == RenderHistory(history) && |r| >= 6 && r[..6] == "User: "
  {
    RenderEmptyIff(history);
    var text := RenderHistory(history);
    if text == "" then "No prior messages." else text
  }

  /**
   * `_append_trace(state, note)`: `trace`, created if absent, gets `note` at its
   * end, and every other key keeps its value.
   */
  function AppendTrace(st: State, note: string): (r: State)
    ensures r.trace.Some? && TraceOf(r) == TraceOf(st) + [note]
    ensures forall f :: f != Trace ==> Lookup(r, f) == Lookup(st, f)
  {
    st.(trace := Some(TraceOf(st) + [note]))
  }

  // ---------- the intent ----------

  /**
   * The triage intent: the first word of the lower-cased reply, or `None` where
   * `split()` gives `[]` and `[0]` raises. `IntentMatchesSource` shows that
   * the source's `strip()` before `split()` changes nothing.
   */
  function IntentOf(reply: string): Option<string>
  {
    FirstWord(Lower(reply))
  }

  /** `resp.content.strip().lower().split()[0]` is `IntentOf(resp.content)`. */
  lemma IntentMatchesSource(reply: string)
    ensures FirstWord(Lower(Strip(reply))) == IntentOf(reply)
  {
    FirstWordOfLowerStrip(reply);
  }

  /** A reply has no intent exactly when it is all whitespace (`split()` is then `[]`). */
  lemma IntentBlankIff(reply: string)
    ensures IntentOf(reply).None? <==> forall k :: 0 <= k < |reply| ==> IsSpace(reply[k])
  {
    forall k | 0 <= k < |reply| ensures IsSpace(Lower(reply)[k]) <==> IsSpace(reply[k]) {
      LowerCharKeepsSpace(reply[k]);
    }
  }

  /** An intent is a non-empty word without whitespace or ASCII capitals. */
  lemma IntentIsWord(reply: string)
    requires IntentOf(reply).Some?
    ensures var w := IntentOf(reply).value;
      w != [] && forall k :: 0 <= k < |w| ==> !IsSpace(w[k]) && !('A' <= w[k] <= 'Z')
  {
    FirstWordOfLower(reply);
  }

  // ---------- what the nodes read ----------

  /** The fields a node reads with `state[...]`, in the order it reads them; a missing one raises. */
  function Subscripts(n: Node): seq<Field>
  {
    match n
    case ChatHistory => [UserId, SessionId]
    case FarmerInteraction => [Message]
    case FarmerProfile => [UserId]
    case SensorData => [UserId]
    case Response => [Message, UserId, SessionId]
    case _ => []
  }

  /** The first of `fs` missing from `st`, if any. */
  function FirstAbsent(fs: seq<Field>, st: State): (r: Option<Field>)
    ensures r.None? <==> forall i :: 0 <= i < |fs| ==> Present(st, fs[i])
    ensures r.Some? ==> r.value in fs && !Present(st, r.value)
  {
    if fs == [] then None
    else if !Present(st, fs[0]) then Some(fs[0])
    else FirstAbsent(fs[1..], st)
  }

  /**
   * `get_chat_history(state["user_id"], state["session_id"], limit=20)` over the
   * world's store map; `HistoryReadIsStoreRead` ties it to `Store.GetChatHistory`.
   */
  function HistoryRead(st: State, logs: map<string, seq<Turn>>): seq<Turn>
    requires st.userId.Some? && st.sessionId.Some?
  {
    LastTurns(LogOf(logs, Key(st.userId.value, st.sessionId.value)), 20)
  }

  /** The node's read is the store's `get_chat_history` with `limit` 20. */
  lemma HistoryReadIsStoreRead(store: Store, st: State)
    requires st.userId.Some? && st.sessionId.Some?
    ensures HistoryRead(st, store.logs) == store.GetChatHistory(st.userId.value, st.sessionId.value, 20)
  {
  }

  /** The reply to `chat_history_node`'s prompt. */
  function SummaryOf(env: Env, history: seq<Turn>): string
  {
    env.llm(Prompt(ChatHistory, [Text(HistoryPrompt(history))]))
  }

  /** The reply to `farmer_interaction_node`'s prompt. */
  function TriageOf(env: Env, message: string): string
  {
    env.llm(Prompt(FarmerInteraction, [Text(message)]))
  }

  /** The reply to `crop_health_node`'s prompt. */
  function AnalysisOf(env: Env, summary: string, profile: ProfileRecord, sensors: map<string, string>): string
  {
    env.llm(Prompt(CropHealth, [Text(summary), Text(CropOf(profile)), Record(profile), Reading(sensors)]))
  }

  /** The reply to `disease_prediction_node`'s prompt. */
  function RiskOf(env: Env, summary: string, profile: ProfileRecord,
                 sensors: map<string, string>, weather: map<string, string>): string
  {
    env.llm(Prompt(DiseasePrediction, [Text(summary), Text(CropOf(profile)), Reading(sensors), Reading(weather)]))
  }

  /** The reply to `lifecycle_planning_node`'s prompt. */
  function PlanOf(env: Env, profile: ProfileRecord, weather: map<string, string>): string
  {
    env.llm(Prompt(LifecyclePlanning, [Text(CropOf(profile)), Text(LocationText(profile)), Reading(weather)]))
  }

  /** The reply to `response_synthesizer_node`'s prompt. */
  function FinalOf(env: Env, message: string, profile: ProfileRecord, summary: string, analysis: string,
                   risk: string, plan: string, weather: Value, sensors: Value): string
  {
    env.llm(Prompt(Response,
      [Text(message), Record(profile), Text(summary), Text(analysis), Text(risk), Text(plan), weather, sensors]))
  }

  // ---------- the nodes ----------

  function ChatHistoryNode(st: State, logs: map<string, seq<Turn>>, env: Env): State
    requires st.userId.Some? && st.sessionId.Some?
  {
    var history := HistoryRead(st, logs);
    AppendTrace(st.(history := Some(history), historySummary := Some(SummaryOf(env, history))), "history_loaded")
  }

  function FarmerInteractionNode(st: State, env: Env): Result<State, Failure>
    requires st.message.Some?
  {
    var reply := TriageOf(env, st.message.value);
    match IntentOf(reply)
    case None => Err(NoIntent(reply))
    case Some(intent) => Ok(AppendTrace(st.(intent := Some(intent)), "intent=" + intent))
  }

  function FarmerProfileNode(st: State, env: Env): State
    requires st.userId.Some?
  {
    AppendTrace(st.(profile := Some(env.profileOf(st.userId.value))), "profile")
  }

  function SensorDataNode(st: State, env: Env): State
    requires st.userId.Some?
  {
    AppendTrace(st.(sensors := Some(env.sensorsOf(st.userId.value))), "sensors")
  }

  function WeatherNode(st: State, env: Env): State
  {
    AppendTrace(st.(weather := Some(env.weatherAt(LocationOf(ProfileIn(st))))), "weather")
  }

  function CropHealthNode(st: State, env: Env): State
  {
    var analysis := AnalysisOf(env, TextOr(st.historySummary, ""), ProfileIn(st), ReadingOr(st.sensors));
    AppendTrace(st.(cropAnalysis := Some(analysis)), "crop_analysis")
  }

  function DiseasePredictionNode(st: State, env: Env): State
  {
    var risk := RiskOf(env, TextOr(st.historySummary, ""), ProfileIn(st), ReadingOr(st.sensors), ReadingOr(st.weather));
    AppendTrace(st.(diseaseRisk := Some(risk)), "disease_risk")
  }

  function LifecyclePlanningNode(st: State, env: Env): State
  {
    AppendTrace(st.(plan := Some(PlanOf(env, ProfileIn(st), ReadingOr(st.weather)))), "plan")
  }

  /** `response_synthesizer_node`: the final reply, saved as a turn under the session key. */
  function ResponseNode(w: World, env: Env): World
    requires w.state.message.Some? && w.state.userId.Some? && w.state.sessionId.Some?
  {
    var st := w.state;
    var final := FinalOf(env, st.message.value, ProfileIn(st), TextOr(st.historySummary, ""),
      TextOr(st.cropAnalysis, ""), TextOr(st.diseaseRisk, ""), TextOr(st.plan, ""), Shown(st.weather), Shown(st.sensors));
    World(AppendTrace(st.(finalResponse := Some(final)), "final"),
          Appended(w.logs, Key(st.userId.value, st.sessionId.value), Turn(st.message.value, final)))
  }

  /** One node applied to the world: a missing subscripted field raises before the node does anything. */
  function Step(n: Node, w: World, env: Env): Result<World, Failure>
  {
    match FirstAbsent(Subscripts(n), w.state)
    case Some(f) => Err(MissingField(f))
    case None =>
      var st := w.state;
      match n
      case ChatHistory =>
        assert Present(st, Subscripts(n)[0]) && Present(st, Subscripts(n)[1]);
        Ok(World(ChatHistoryNode(st, w.logs, env), w.logs))
      case FarmerInteraction =>
        assert Present(st, Subscripts(n)[0]);
        (match FarmerInteractionNode(st, env)
         case Err(e) => Err(e)
         case Ok(next) => Ok(World(next, w.logs)))
      case FarmerProfile =>
        assert Present(st, Subscripts(n)[0]);
        Ok(World(FarmerProfileNode(st, env), w.logs))
      case SensorData =>
        assert Present(st, Subscripts(n)[0]);
        Ok(World(SensorDataNode(st, env), w.logs))
      case Weather => Ok(World(WeatherNode(st, env), w.logs))
      case CropHealth => Ok(World(CropHealthNode(st, env), w.logs))
      case DiseasePrediction => Ok(World(DiseasePredictionNode(st, env), w.logs))
      case LifecyclePlanning => Ok(World(LifecyclePlanningNode(st, env), w.logs))
      case Response =>
        assert Present(st, Subscripts(n)[0]) && Present(st, Subscripts(n)[1]) && Present(st, Subscripts(n)[2]);
        Ok(ResponseNode(w, env))
  }

  // ---------- one run ----------

  /** The initial state of `run_langgraph_workflow`. */
  function Initial(userId: string, sessionId: string, message: string): (st: State)
    ensures forall f :: Present(st, f) <==> f in InitialFields
    ensures TraceOf(st) == []
  {
    State(Some(userId), Some(sessionId), Some(message), None, None, None, None, None, None, None, None, None, None, Some([]))
  }

  /** The nodes of `Order` from position `i` on, run one after another; the first failure ends the run. */
  function RunFrom(i: nat, w: World, env: Env): Result<World, Failure>
    requires i <= |Order|
    decreases |Order| - i
  {
    if i == |Order| then Ok(w)
    else
      match Step(Order[i], w, env)
      case Err(e) => Err(e)
      case Ok(next) => RunFrom(i + 1, next, env)
  }

  /** One invocation of the compiled graph. */
  function Workflow(userId: string, sessionId: string, message: string,
                    logs: map<string, seq<Turn>>, env: Env): Result<World, Failure>
  {
    RunFrom(0, World(Initial(userId, sessionId, message), logs), env)
  }

  /** `result.get("final_response", "Sorry, something went wrong.")`. */
  function FinalOrFallback(st: State): (reply: string)
    ensures st.finalResponse.Some? ==> reply == st.finalResponse.value
    ensures st.finalResponse.None? ==> reply == "Sorry, something went wrong."
  {
    TextOr(st.finalResponse, "Sorry, something went wrong.")
  }

  /** The notes of a full run, in execution order. */
  function RunTrace(intent: string): seq<string>
  {
    ["history_loaded", "intent=" + intent, "profile", "sensors", "weather",
     "crop_analysis", "disease_risk", "plan", "final"]
  }

  /**
   * The dataflow of one run computed directly from the inputs, with every value
   * taken from the node that produces it and no default used: the reference the
   * sequential run is proved against.
   */
  function Expected(userId: string, sessionId: string, message: string,
                    logs: map<string, seq<Turn>>, env: Env): Result<World, Failure>
  {
    var history := LastTurns(LogOf(logs, Key(userId, sessionId)), 20);
    var summary := SummaryOf(env, history);
    var triage := TriageOf(env, message);
    match IntentOf(triage)
    case None => Err(NoIntent(triage))
    case Some(intent) =>
      var profile := env.profileOf(userId);
      var sensors := env.sensorsOf(userId);
      var weather := env.weatherAt(LocationOf(profile));
      var analysis := AnalysisOf(env, summary, profile, sensors);
      var risk := RiskOf(env, summary, profile, sensors, weather);
      var plan := PlanOf(env, profile, weather);
      var final := FinalOf(env, message, profile, summary, analysis, risk, plan, Reading(weather), Reading(sensors));
      Ok(World(
        State(Some(userId), Some(sessionId), Some(message), Some(intent), Some(history), Some(summary),
              Some(profile), Some(sensors), Some(weather), Some(analysis), Some(risk), Some(plan),
              Some(final), Some(RunTrace(intent))),
        Appended(logs, Key(userId, sessionId), Turn(message, final))))
  }

  // ---------- the run computes the dataflow ----------

  /** A run from position `k` whose node succeeds continues from `k + 1` in the world that node left. */
  lemma RunContinues(k: nat, n: Node, w: World, env: Env, next: World)
    requires k < |Order| && Order[k] == n && Step(n, w, env) == Ok(next)
    ensures RunFrom(k, w, env) == RunFrom(k + 1, next, env)
  {
  }

  lemma ChatHistoryStep(st: State, logs: map<string, seq<Turn>>, env: Env)
    requires st.userId.Some? && st.sessionId.Some?
    ensures Step(ChatHistory, World(st, logs), env) == Ok(World(ChatHistoryNode(st, logs, env), logs))
  {
  }

  lemma FarmerInteractionStep(st: State, logs: map<string, seq<Turn>>, env: Env)
    requires st.message.Some?
    ensures FarmerInteractionNode(st, env).Err? ==> Step(FarmerInteraction, World(st, logs), env) == Err(FarmerInteractionNode(st, env).error)
    ensures FarmerInteractionNode(st, env).Ok? ==>
      Step(FarmerInteraction, World(st, logs), env) == Ok(World(FarmerInteractionNode(st, env).value, logs))
  {
  }

  lemma FarmerProfileStep(st: State, logs: map<string, seq<Turn>>, env: Env)
    requires st.userId.Some?
    ensures Step(FarmerProfile, World(st, logs), env) == Ok(World(FarmerProfileNode(st, env), logs))
  {
  }

  lemma SensorDataStep(st: State, logs: map<string, seq<Turn>>, env: Env)
    requires st.userId.Some?
    ensures Step(SensorData, World(st, logs), env) == Ok(World(SensorDataNode(st, env), logs))
  {
  }

  lemma WeatherStep(st: State, logs: map<string, seq<Turn>>, env: Env)
    ensures Step(Weather, World(st, logs), env) == Ok(World(WeatherNode(st, env), logs))
  {
  }

  lemma CropHealthStep(st: State, logs: map<string, seq<Turn>>, env: Env)
    ensures Step(CropHealth, World(st, logs), env) == Ok(World(CropHealthNode(st, env), logs))
  {
  }

  lemma DiseasePredictionStep(st: State, logs: map<string, seq<Turn>>, env: Env)
    ensures Step(DiseasePrediction, World(st, logs), env) == Ok(World(DiseasePredictionNode(st, env), logs))
  {
  }

  lemma LifecyclePlanningStep(st: State, logs: map<string, seq<Turn>>, env: Env)
    ensures Step(LifecyclePlanning, World(st, logs), env) == Ok(World(LifecyclePlanningNode(st, env), logs))
  {
  }

  lemma ResponseStep(w: World, env: Env)
    requires w.state.message.Some? && w.state.userId.Some? && w.state.sessionId.Some?
    ensures Step(Response, w, env) == Ok(ResponseNode(w, env))
  {
  }

  /** The three tool nodes run after triage. */
  lemma ToolsRun(st: State, logs: map<string, seq<Turn>>, env: Env)
    requires st.userId.Some?
    ensures RunFrom(2, World(st, logs), env) ==
      RunFrom(5, World(WeatherNode(SensorDataNode(FarmerProfileNode(st, env), env), env), logs), env)
  {
    var s3 := FarmerProfileNode(st, env);
    FarmerProfileRuns(st, logs, env);
    SensorDataRuns(s3, logs, env);
    WeatherRuns(SensorDataNode(s3, env), logs, env);
  }

  /** The three analysis nodes and the response node end the run. */
  lemma AnalysesRun(st: State, logs: map<string, seq<Turn>>, env: Env)
    requires st.message.Some? && st.userId.Some? && st.sessionId.Some?
    ensures RunFrom(5, World(st, logs), env) ==
      Ok(ResponseNode(World(LifecyclePlanningNode(DiseasePredictionNode(CropHealthNode(st, env), env), env), logs), env))
  {
    var s6 := CropHealthNode(st, env);
    var s7 := DiseasePredictionNode(s6, env);
    CropHealthRuns(st, logs, env);
    DiseasePredictionRuns(s6, logs, env);
    LifecyclePlanningRuns(s7, logs, env);
    ResponseRuns(World(LifecyclePlanningNode(s7, env), logs), env);
  }

  lemma ChatHistoryRuns(st: State, logs: map<string, seq<Turn>>, env: Env)
    requires st.userId.Some? && st.sessionId.Some?
    ensures RunFrom(0, World(st, logs), env) == RunFrom(1, World(ChatHistoryNode(st, logs, env), logs), env)
  {
    ChatHistoryStep(st, logs, env);
    RunContinues(0, ChatHistory, World(st, logs), env, World(ChatHistoryNode(st, logs, env), logs));
  }

  /** Triage either ends the run with its error or hands its state on to the tools. */
  lemma FarmerInteractionRuns(st: State, logs: map<string, seq<Turn>>, env: Env)
    requires st.message.Some?
    ensures FarmerInteractionNode(st, env).Err? ==> RunFrom(1, World(st, logs), env) == Err(FarmerInteractionNode(st, env).error)
    ensures FarmerInteractionNode(st, env).Ok? ==>
      RunFrom(1, World(st, logs), env) == RunFrom(2, World(FarmerInteractionNode(st, env).value, logs), env)
  {
    FarmerInteractionStep(st, logs, env);
    if FarmerInteractionNode(st, env).Ok? {
      RunContinues(1, FarmerInteraction, World(st, logs), env, World(FarmerInteractionNode(st, env).value, logs));
    }
  }

  lemma FarmerProfileRuns(st: State, logs: map<string, seq<Turn>>, env: Env)
    requires st.userId.Some?
    ensures RunFrom(2, World(st, logs), env) == RunFrom(3, World(FarmerProfileNode(st, env), logs), env)
  {
    FarmerProfileStep(st, logs, env);
    RunContinues(2, FarmerProfile, World(st, logs), env, World(FarmerProfileNode(st, env), logs));
  }

  lemma SensorDataRuns(st: State, logs: map<string, seq<Turn>>, env: Env)
    requires st.userId.Some?
    ensures RunFrom(3, World(st, logs), env) == RunFrom(4, World(SensorDataNode(st, env), logs), env)
  {
    SensorDataStep(st, logs, env);
    RunContinues(3, SensorData, World(st, logs), env, World(SensorDataNode(st, env), logs));
  }

  lemma WeatherRuns(st: State, logs: map<string, seq<Turn>>, env: Env)
    ensures RunFrom(4, World(st, logs), env) == RunFrom(5, World(WeatherNode(st, env), logs), env)
  {
    WeatherStep(st, logs, env);
    RunContinues(4, Weather, World(st, logs), env, World(WeatherNode(st, env), logs));
  }

  lemma CropHealthRuns(st: State, logs: map<string, seq<Turn>>, env: Env)
    ensures RunFrom(5, World(st, logs), env) == RunFrom(6, World(CropHealthNode(st, env), logs), env)
  {
    CropHealthStep(st, logs, env);
    RunContinues(5, CropHealth, World(st, logs), env, World(CropHealthNode(st, env), logs));
  }

  lemma DiseasePredictionRuns(st: State, logs: map<string, seq<Turn>>, env: Env)
    ensures RunFrom(6, World(st, logs), env) == RunFrom(7, World(DiseasePredictionNode(st, env), logs), env)
  {
    DiseasePredictionStep(st, logs, env);
    RunContinues(6, DiseasePrediction, World(st, logs), env, World(DiseasePredictionNode(st, env), logs));
  }

  lemma LifecyclePlanningRuns(st: State, logs: map<string, seq<Turn>>, env: Env)
    ensures RunFrom(7, World(st, logs), env) == RunFrom(8, World(LifecyclePlanningNode(st, env), logs), env)
  {
    LifecyclePlanningStep(st, logs, env);
    RunContinues(7, LifecyclePlanning, World(st, logs), env, World(LifecyclePlanningNode(st, env), logs));
  }

  lemma ResponseRuns(w: World, env: Env)
    requires w.state.message.Some? && w.state.userId.Some? && w.state.sessionId.Some?
    ensures RunFrom(8, w, env) == Ok(ResponseNode(w, env))
  {
    ResponseStep(w, env);
    RunContinues(8, Response, w, env, ResponseNode(w, env));
  }

  /** What the three tool nodes assign. */
  lemma ToolsAssign(st: State, env: Env)
    requires st.userId.Some?
    ensures var profile := env.profileOf(st.userId.value);
      WeatherNode(SensorDataNode(FarmerProfileNode(st, env), env), env) ==
        st.(profile := Some(profile), sensors := Some(env.sensorsOf(st.userId.value)),
            weather := Some(env.weatherAt(LocationOf(profile))),
            trace := Some(TraceOf(st) + ["profile", "sensors", "weather"]))
  {
    assert TraceOf(st) + ["profile"] + ["sensors"] + ["weather"] == TraceOf(st) + ["profile", "sensors", "weather"];
  }

  /** What the three analysis nodes and the response node assign, and the turn saved. */
  lemma AnalysesAssign(w: World, env: Env)
    requires w.state.message.Some? && w.state.userId.Some? && w.state.sessionId.Some?
    ensures var st := w.state;
      var summary := TextOr(st.historySummary, "");
      var profile := ProfileIn(st);
      var analysis := AnalysisOf(env, summary, profile, ReadingOr(st.sensors));
      var risk := RiskOf(env, summary, profile, ReadingOr(st.sensors), ReadingOr(st.weather));
      var plan := PlanOf(env, profile, ReadingOr(st.weather));
      var final := FinalOf(env, st.message.value, profile, summary, analysis, risk, plan, Shown(st.weather), Shown(st.sensors));
      ResponseNode(World(LifecyclePlanningNode(DiseasePredictionNode(CropHealthNode(st, env), env), env), w.logs), env) ==
        World(st.(cropAnalysis := Some(analysis), diseaseRisk := Some(risk), plan := Some(plan), finalResponse := Some(final),
                  trace := Some(TraceOf(st) + ["crop_analysis", "disease_risk", "plan", "final"])),
              Appended(w.logs, Key(st.userId.value, st.sessionId.value), Turn(st.message.value, final)))
  {
    var t := TraceOf(w.state);
    assert t + ["crop_analysis"] + ["disease_risk"] + ["plan"] + ["final"] == t + ["crop_analysis", "disease_risk", "plan", "final"];
  }

  /** What the history and triage nodes assign to the initial state. */
  lemma EarlyAssign(userId: string, sessionId: string, message: string,
                    logs: map<string, seq<Turn>>, env: Env, intent: string)
    requires IntentOf(TriageOf(env, message)) == Some(intent)
    ensures var history := LastTurns(LogOf(logs, Key(userId, sessionId)), 20);
      FarmerInteractionNode(ChatHistoryNode(Initial(userId, sessionId, message), logs, env), env) ==
        Ok(State(Some(userId), Some(sessionId), Some(message), Some(intent), Some(history),
                 Some(SummaryOf(env, history)), None, None, None, None, None, None, None,
                 Some(["history_loaded", "intent=" + intent])))
  {
    var history := LastTurns(LogOf(logs, Key(userId, sessionId)), 20);
    var s1 := State(Some(userId), Some(sessionId), Some(message), None, Some(history),
                    Some(SummaryOf(env, history)), None, None, None, None, None, None, None, Some(["history_loaded"]));
    HistoryAssign(userId, sessionId, message, logs, env);
    assert ["history_loaded"] + ["intent=" + intent] == ["history_loaded", "intent=" + intent];
    assert FarmerInteractionNode(s1, env) == Ok(AppendTrace(s1.(intent := Some(intent)), "intent=" + intent));
  }

  /** What the history node assigns to the initial state. */
  lemma HistoryAssign(userId: string, sessionId: string, message: string,
                      logs: map<string, seq<Turn>>, env: Env)
    ensures var history := LastTurns(LogOf(logs, Key(userId, sessionId)), 20);
      ChatHistoryNode(Initial(userId, sessionId, message), logs, env) ==
        State(Some(userId), Some(sessionId), Some(message), None, Some(history),
              Some(SummaryOf(env, history)), None, None, None, None, None, None, None, Some(["history_loaded"]))
  {
    var s0 := Initial(userId, sessionId, message);
    var history := HistoryRead(s0, logs);
    var filled := s0.(history := Some(history), historySummary := Some(SummaryOf(env, history)));
    assert TraceOf(filled) == [];
    assert [] + ["history_loaded"] == ["history_loaded"];
    assert AppendTrace(filled, "history_loaded") == filled.(trace := Some(["history_loaded"]));
  }

  lemma RunTraceParts(intent: string)
    ensures ["history_loaded", "intent=" + intent] + ["profile", "sensors", "weather"]
      + ["crop_analysis", "disease_risk", "plan", "final"] == RunTrace(intent)
  {
  }

  /** The sequential run of the nine nodes is the dataflow `Expected`. */
  lemma WorkflowIsDataflow(userId: string, sessionId: string, message: string,
                           logs: map<string, seq<Turn>>, env: Env)
    ensures Workflow(userId, sessionId, message, logs, env) == Expected(userId, sessionId, message, logs, env)
  {
    var s0 := Initial(userId, sessionId, message);
    var s1 := ChatHistoryNode(s0, logs, env);
    ChatHistoryRuns(s0, logs, env);
    FarmerInteractionRuns(s1, logs, env);
    var triage := TriageOf(env, message);
    match IntentOf(triage)
    case None =>
    case Some(intent) =>
      EarlyAssign(userId, sessionId, message, logs, env, intent);
      var s2 := FarmerInteractionNode(s1, env).value;
      ToolsRun(s2, logs, env);
      ToolsAssign(s2, env);
      var s5 := WeatherNode(SensorDataNode(FarmerProfileNode(s2, env), env), env);
      AnalysesRun(s5, logs, env);
      AnalysesAssign(World(s5, logs), env);
      RunTraceParts(intent);
  }

  // ---------- one node in general ----------

  /** The note a node appends to `trace`, given the state it leaves; triage records the intent it assigned. */
  function NoteOf(n: Node, st: State): string
  {
    match n
    case ChatHistory => "history_loaded"
    case FarmerInteraction => "intent=" + TextOr(st.intent, "")
    case FarmerProfile => "profile"
    case SensorData => "sensors"
    case Weather => "weather"
    case CropHealth => "crop_analysis"
    case DiseasePrediction => "disease_risk"
    case LifecyclePlanning => "plan"
    case Response => "final"
  }

  /** `f"{user_id}:{session_id}"` for the state's identity keys. */
  function SessionKey(st: State): string
  {
    Key(TextOr(st.userId, ""), TextOr(st.sessionId, ""))
  }

  /**
   * A node raises exactly when a key it subscripts is missing (`KeyError` on the
   * first one, in reading order) or, for `farmer_interaction`, when the triage
   * reply is blank (`IndexError`).
   */
  lemma StepFails(n: Node, w: World, env: Env)
    ensures Step(n, w, env).Err? <==>
      FirstAbsent(Subscripts(n), w.state).Some? ||
      (n == FarmerInteraction && IntentOf(TriageOf(env, TextOr(w.state.message, ""))).None?)
    ensures FirstAbsent(Subscripts(n), w.state).Some? ==>
      Step(n, w, env) == Err(MissingField(FirstAbsent(Subscripts(n), w.state).value))
    ensures FirstAbsent(Subscripts(n), w.state).None? && Step(n, w, env).Err? ==>
      Step(n, w, env) == Err(NoIntent(TriageOf(env, TextOr(w.state.message, ""))))
  {
    if n == FarmerInteraction && FirstAbsent(Subscripts(n), w.state).None? {
      assert Present(w.state, Subscripts(n)[0]);
    }
  }

  /** Every key of `st` but `trace` and those in `written` has the same value in `r`. */
  predicate Keeps(st: State, r: State, written: set<Field>)
  {
    forall f :: f !in written && f != Trace ==> Lookup(r, f) == Lookup(st, f)
  }

  /** Every key in `written` is present in `r`. */
  predicate Fills(r: State, written: set<Field>)
  {
    forall f :: f in written ==> Present(r, f)
  }

  /**
   * What a node that succeeds does to the world: it assigns every key it writes,
   * leaves every other key but `trace` as it was, appends its one note to `trace`,
   * and changes the store only if it is `response`, which appends the turn
   * `{user: message, agent: final_response}` under the session key.
   */
  predicate Footprint(n: Node, w: World, r: World)
  {
    && Keeps(w.state, r.state, Writes(n))
    && Fills(r.state, Writes(n))
    && TraceOf(r.state) == TraceOf(w.state) + [NoteOf(n, r.state)]
    && (n != Response ==> r.logs == w.logs)
    && (n == Response ==>
          r.logs == Appended(w.logs, SessionKey(w.state), Turn(TextOr(w.state.message, ""), TextOr(r.state.finalResponse, ""))))
  }

  /** Every node that succeeds leaves the footprint `Footprint` describes. */
  lemma StepFootprint(n: Node, w: World, env: Env)
    requires Step(n, w, env).Ok?
    ensures Footprint(n, w, Step(n, w, env).value)
  {
    match n {
      case ChatHistory => ChatHistoryStepFootprint(w, env);
      case FarmerInteraction => FarmerInteractionStepFootprint(w, env);
      case FarmerProfile => FarmerProfileStepFootprint(w, env);
      case SensorData => SensorDataStepFootprint(w, env);
      case Weather => WeatherStepFootprint(w, env);
      case CropHealth => CropHealthStepFootprint(w, env);
      case DiseasePrediction => DiseasePredictionStepFootprint(w, env);
      case LifecyclePlanning => LifecyclePlanningStepFootprint(w, env);
      case Response => ResponseStepFootprint(w, env);
    }
  }

  lemma ChatHistoryStepFootprint(w: World, env: Env)
    requires Step(ChatHistory, w, env).Ok?
    ensures Footprint(ChatHistory, w, Step(ChatHistory, w, env).value)
  {
    assert FirstAbsent(Subscripts(ChatHistory), w.state).None?;
    assert Present(w.state, Subscripts(ChatHistory)[0]) && Present(w.state, Subscripts(ChatHistory)[1]);
    ChatHistoryStep(w.state, w.logs, env);
    ChatHistoryFootprint(w.state, w.logs, env);
  }

  lemma FarmerInteractionStepFootprint(w: World, env: Env)
    requires Step(FarmerInteraction, w, env).Ok?
    ensures Footprint(FarmerInteraction, w, Step(FarmerInteraction, w, env).value)
  {
    assert FirstAbsent(Subscripts(FarmerInteraction), w.state).None?;
    assert Present(w.state, Subscripts(FarmerInteraction)[0]);
    FarmerInteractionStep(w.state, w.logs, env);
    FarmerInteractionFootprint(w.state, env);
  }

  lemma FarmerProfileStepFootprint(w: World, env: Env)
    requires Step(FarmerProfile, w, env).Ok?
    ensures Footprint(FarmerProfile, w, Step(FarmerProfile, w, env).value)
  {
    assert FirstAbsent(Subscripts(FarmerProfile), w.state).None?;
    assert Present(w.state, Subscripts(FarmerProfile)[0]);
    FarmerProfileStep(w.state, w.logs, env);
    FarmerProfileFootprint(w.state, env);
  }

  lemma SensorDataStepFootprint(w: World, env: Env)
    requires Step(SensorData, w, env).Ok?
    ensures Footprint(SensorData, w, Step(SensorData, w, env).value)
  {
    assert FirstAbsent(Subscripts(SensorData), w.state).None?;
    assert Present(w.state, Subscripts(SensorData)[0]);
    SensorDataStep(w.state, w.logs, env);
    SensorDataFootprint(w.state, env);
  }

  lemma WeatherStepFootprint(w: World, env: Env)
    requires Step(Weather, w, env).Ok?
    ensures Footprint(Weather, w, Step(Weather, w, env).value)
  {
    WeatherStep(w.state, w.logs, env);
    WeatherFootprint(w.state, env);
  }

  lemma CropHealthStepFootprint(w: World, env: Env)
    requires Step(CropHealth, w, env).Ok?
    ensures Footprint(CropHealth, w, Step(CropHealth, w, env).value)
  {
    CropHealthStep(w.state, w.logs, env);
    CropHealthFootprint(w.state, env);
  }

  lemma DiseasePredictionStepFootprint(w: World, env: Env)
    requires Step(DiseasePrediction, w, env).Ok?
    ensures Footprint(DiseasePrediction, w, Step(DiseasePrediction, w, env).value)
  {
    DiseasePredictionStep(w.state, w.logs, env);
    DiseasePredictionFootprint(w.state, env);
  }

  lemma LifecyclePlanningStepFootprint(w: World, env: Env)
    requires Step(LifecyclePlanning, w, env).Ok?
    ensures Footprint(LifecyclePlanning, w, Step(LifecyclePlanning, w, env).value)
  {
    LifecyclePlanningStep(w.state, w.logs, env);
    LifecyclePlanningFootprint(w.state, env);
  }

  lemma ResponseStepFootprint(w: World, env: Env)
    requires Step(Response, w, env).Ok?
    ensures Footprint(Response, w, Step(Response, w, env).value)
  {
    assert FirstAbsent(Subscripts(Response), w.state).None?;
    assert Present(w.state, Subscripts(Response)[0]) && Present(w.state, Subscripts(Response)[1]) && Present(w.state, Subscripts(Response)[2]);
    ResponseStep(w, env);
    ResponseFootprint(w, env);
  }

  lemma ChatHistoryFootprint(st: State, logs: map<string, seq<Turn>>, env: Env)
    requires st.userId.Some? && st.sessionId.Some?
    ensures var r := ChatHistoryNode(st, logs, env);
      Keeps(st, r, Writes(ChatHistory)) && Fills(r, Writes(ChatHistory)) && TraceOf(r) == TraceOf(st) + [NoteOf(ChatHistory, r)]
  {
  }

  lemma FarmerInteractionFootprint(st: State, env: Env)
    requires st.message.Some? && FarmerInteractionNode(st, env).Ok?
    ensures var r := FarmerInteractionNode(st, env).value;
      Keeps(st, r, Writes(FarmerInteraction)) && Fills(r, Writes(FarmerInteraction)) && TraceOf(r) == TraceOf(st) + [NoteOf(FarmerInteraction, r)]
  {
  }

  lemma FarmerProfileFootprint(st: State, env: Env)
    requires st.userId.Some?
    ensures var r := FarmerProfileNode(st, env);
      Keeps(st, r, Writes(FarmerProfile)) && Fills(r, Writes(FarmerProfile)) && TraceOf(r) == TraceOf(st) + [NoteOf(FarmerProfile, r)]
  {
  }

  lemma SensorDataFootprint(st: State, env: Env)
    requires st.userId.Some?
    ensures var r := SensorDataNode(st, env);
      Keeps(st, r, Writes(SensorData)) && Fills(r, Writes(SensorData)) && TraceOf(r) == TraceOf(st) + [NoteOf(SensorData, r)]
  {
  }

  lemma WeatherFootprint(st: State, env: Env)
    ensures var r := WeatherNode(st, env);
      Keeps(st, r, Writes(Weather)) && Fills(r, Writes(Weather)) && TraceOf(r) == TraceOf(st) + [NoteOf(Weather, r)]
  {
  }

  lemma CropHealthFootprint(st: State, env: Env)
    ensures var r := CropHealthNode(st, env);
      Keeps(st, r, Writes(CropHealth)) && Fills(r, Writes(CropHealth)) && TraceOf(r) == TraceOf(st) + [NoteOf(CropHealth, r)]
  {
  }

  lemma DiseasePredictionFootprint(st: State, env: Env)
    ensures var r := DiseasePredictionNode(st, env);
      Keeps(st, r, Writes(DiseasePrediction)) && Fills(r, Writes(DiseasePrediction)) && TraceOf(r) == TraceOf(st) + [NoteOf(DiseasePrediction, r)]
  {
  }

  lemma LifecyclePlanningFootprint(st: State, env: Env)
    ensures var r := LifecyclePlanningNode(st, env);
      Keeps(st, r, Writes(LifecyclePlanning)) && Fills(r, Writes(LifecyclePlanning)) && TraceOf(r) == TraceOf(st) + [NoteOf(LifecyclePlanning, r)]
  {
  }

  lemma ResponseFootprint(w: World, env: Env)
    requires w.state.message.Some? && w.state.userId.Some? && w.state.sessionId.Some?
    ensures var st := w.state;
      var r := ResponseNode(w, env);
      && Keeps(st, r.state, Writes(Response)) && Fills(r.state, Writes(Response))
      && TraceOf(r.state) == TraceOf(st) + [NoteOf(Response, r.state)]
      && r.logs == Appended(w.logs, SessionKey(st), Turn(st.message.value, r.state.finalResponse.value))
  {
  }

  /** `FirstAbsent` depends only on which of the listed keys are present. */
  lemma {:induction false} SameFirstAbsent(fs: seq<Field>, a: State, b: State)
    requires forall i :: 0 <= i < |fs| ==> Present(a, fs[i]) == Present(b, fs[i])
    ensures FirstAbsent(fs, a) == FirstAbsent(fs, b)
    decreases |fs|
  {
    if fs != [] && Present(a, fs[0]) {
      SameFirstAbsent(fs[1..], a, b);
    }
  }

  /** The two worlds have the same store and agree on every key node `n` reads. */
  predicate AgreeOnReads(n: Node, w1: World, w2: World)
  {
    w1.logs == w2.logs && forall f :: f in Reads(n) ==> Lookup(w1.state, f) == Lookup(w2.state, f)
  }

  /** The two worlds left by node `n` have the same store and the same values under the keys `n` writes. */
  predicate SameWritten(n: Node, r1: World, r2: World)
  {
    r1.logs == r2.logs && forall f :: f in Writes(n) ==> Lookup(r1.state, f) == Lookup(r2.state, f)
  }

  /**
   * Node `n` behaves alike on the two worlds: it raises the same error on both,
   * or on both it leaves the same store and the same values under the keys it writes.
   */
  predicate SameOutcome(n: Node, w1: World, w2: World, env: Env)
  {
    match (Step(n, w1, env), Step(n, w2, env))
    case (Err(e1), Err(e2)) => e1 == e2
    case (Ok(r1), Ok(r2)) => SameWritten(n, r1, r2)
    case _ => false
  }

  /**
   * What node `n` does depends only on the keys in `Reads(n)` and the store:
   * two worlds that agree on those make it raise the same error, or assign the
   * same values to the keys it writes and leave the same store.
   */
  lemma StepReadsOnly(n: Node, w1: World, w2: World, env: Env)
    requires AgreeOnReads(n, w1, w2)
    ensures SameOutcome(n, w1, w2, env)
  {
    match n {
      case ChatHistory => ChatHistoryReadsOnly(w1, w2, env);
      case FarmerInteraction => FarmerInteractionReadsOnly(w1, w2, env);
      case FarmerProfile => FarmerProfileReadsOnly(w1, w2, env);
      case SensorData => SensorDataReadsOnly(w1, w2, env);
      case Weather => WeatherReadsOnly(w1, w2, env);
      case CropHealth => CropHealthReadsOnly(w1, w2, env);
      case DiseasePrediction => DiseasePredictionReadsOnly(w1, w2, env);
      case LifecyclePlanning => LifecyclePlanningReadsOnly(w1, w2, env);
      case Response => ResponseReadsOnly(w1, w2, env);
    }
  }

  /** The keys a node subscripts are among those it reads, so agreeing worlds miss the same one first. */
  lemma SubscriptsAgree(n: Node, w1: World, w2: World)
    requires AgreeOnReads(n, w1, w2)
    ensures FirstAbsent(Subscripts(n), w1.state) == FirstAbsent(Subscripts(n), w2.state)
  {
    var fs := Subscripts(n);
    forall i | 0 <= i < |fs|
      ensures Present(w1.state, fs[i]) == Present(w2.state, fs[i])
    {
      assert fs[i] in Reads(n);
    }
    SameFirstAbsent(fs, w1.state, w2.state);
  }

  /** The record slots behind the keys node `n` reads hold the same values in `a` and `b`. */
  predicate SameSlots(n: Node, a: State, b: State)
  {
    match n
    case ChatHistory => a.userId == b.userId && a.sessionId == b.sessionId
    case FarmerInteraction => a.message == b.message
    case FarmerProfile => a.userId == b.userId
    case SensorData => a.userId == b.userId
    case Weather => a.profile == b.profile
    case CropHealth => a.profile == b.profile && a.sensors == b.sensors && a.historySummary == b.historySummary
    case DiseasePrediction =>
      a.profile == b.profile && a.sensors == b.sensors && a.weather == b.weather && a.historySummary == b.historySummary
    case LifecyclePlanning => a.profile == b.profile && a.weather == b.weather
    case Response =>
      && a.message == b.message && a.userId == b.userId && a.sessionId == b.sessionId
      && a.historySummary == b.historySummary && a.cropAnalysis == b.cropAnalysis
      && a.diseaseRisk == b.diseaseRisk && a.plan == b.plan
      && a.profile == b.profile && a.weather == b.weather && a.sensors == b.sensors
  }

  /** Agreeing on the keys `n` reads is agreeing on the slots behind them. */
  lemma ReadsDetermineSlots(n: Node, w1: World, w2: World)
    requires AgreeOnReads(n, w1, w2)
    ensures SameSlots(n, w1.state, w2.state)
  {
    var a, b := w1.state, w2.state;
    match n {
      case ChatHistory =>
        SameSlot(a, b, UserId);
        SameSlot(a, b, SessionId);
      case FarmerInteraction =>
        SameSlot(a, b, Message);
      case FarmerProfile =>
        SameSlot(a, b, UserId);
      case SensorData =>
        SameSlot(a, b, UserId);
      case Weather =>
        SameSlot(a, b, Profile);
      case CropHealth =>
        SameSlot(a, b, Profile);
        SameSlot(a, b, Sensors);
        SameSlot(a, b, HistorySummary);
      case DiseasePrediction =>
        SameSlot(a, b, Profile);
        SameSlot(a, b, Sensors);
        SameSlot(a, b, WeatherReport);
        SameSlot(a, b, HistorySummary);
      case LifecyclePlanning =>
        SameSlot(a, b, Profile);
        SameSlot(a, b, WeatherReport);
      case Response =>
        assert a.message == b.message && a.userId == b.userId && a.sessionId == b.sessionId by {
          SameSlot(a, b, Message);
          SameSlot(a, b, UserId);
          SameSlot(a, b, SessionId);
        }
        assert a.historySummary == b.historySummary && a.cropAnalysis == b.cropAnalysis by {
          SameSlot(a, b, HistorySummary);
          SameSlot(a, b, CropAnalysis);
        }
        assert a.diseaseRisk == b.diseaseRisk && a.plan == b.plan by {
          SameSlot(a, b, DiseaseRisk);
          SameSlot(a, b, Plan);
        }
        assert a.profile == b.profile && a.weather == b.weather && a.sensors == b.sensors by {
          SameSlot(a, b, Profile);
          SameSlot(a, b, WeatherReport);
          SameSlot(a, b, Sensors);
        }
    }
  }

  lemma ChatHistoryReadsOnly(w1: World, w2: World, env: Env)
    requires AgreeOnReads(ChatHistory, w1, w2)
    ensures SameOutcome(ChatHistory, w1, w2, env)
  {
    SubscriptsAgree(ChatHistory, w1, w2);
    if FirstAbsent(Subscripts(ChatHistory), w1.state).None? {
      assert Present(w1.state, Subscripts(ChatHistory)[0]) && Present(w1.state, Subscripts(ChatHistory)[1]);
      assert Present(w2.state, Subscripts(ChatHistory)[0]) && Present(w2.state, Subscripts(ChatHistory)[1]);
      ChatHistoryStep(w1.state, w1.logs, env);
      ChatHistoryStep(w2.state, w2.logs, env);
      ReadsDetermineSlots(ChatHistory, w1, w2);
      ChatHistorySame(w1, w2, env);
    }
  }

  /** What `ChatHistory` writes and saves depends only on the slots it reads. */
  lemma ChatHistorySame(w1: World, w2: World, env: Env)
    requires w1.logs == w2.logs && SameSlots(ChatHistory, w1.state, w2.state)
    requires w1.state.userId.Some? && w1.state.sessionId.Some? && w2.state.userId.Some? && w2.state.sessionId.Some?
    ensures SameWritten(ChatHistory, World(ChatHistoryNode(w1.state, w1.logs, env), w1.logs),
                        World(ChatHistoryNode(w2.state, w2.logs, env), w2.logs))
  {
  }

  lemma FarmerInteractionReadsOnly(w1: World, w2: World, env: Env)
    requires AgreeOnReads(FarmerInteraction, w1, w2)
    ensures SameOutcome(FarmerInteraction, w1, w2, env)
  {
    SubscriptsAgree(FarmerInteraction, w1, w2);
    if FirstAbsent(Subscripts(FarmerInteraction), w1.state).None? {
      assert Present(w1.state, Subscripts(FarmerInteraction)[0]);
      assert Present(w2.state, Subscripts(FarmerInteraction)[0]);
      FarmerInteractionStep(w1.state, w1.logs, env);
      FarmerInteractionStep(w2.state, w2.logs, env);
      ReadsDetermineSlots(FarmerInteraction, w1, w2);
      FarmerInteractionSame(w1, w2, env);
    }
  }

  /** What `FarmerInteraction` writes and saves depends only on the slots it reads. */
  lemma FarmerInteractionSame(w1: World, w2: World, env: Env)
    requires w1.logs == w2.logs && SameSlots(FarmerInteraction, w1.state, w2.state)
    requires w1.state.message.Some? && w2.state.message.Some?
    ensures var r1, r2 := FarmerInteractionNode(w1.state, env), FarmerInteractionNode(w2.state, env);
      && r1.Err? == r2.Err?
      && (r1.Err? ==> r1.error == r2.error)
      && (r1.Ok? ==> SameWritten(FarmerInteraction, World(r1.value, w1.logs), World(r2.value, w2.logs)))
  {
  }

  lemma FarmerProfileReadsOnly(w1: World, w2: World, env: Env)
    requires AgreeOnReads(FarmerProfile, w1, w2)
    ensures SameOutcome(FarmerProfile, w1, w2, env)
  {
    SubscriptsAgree(FarmerProfile, w1, w2);
    if FirstAbsent(Subscripts(FarmerProfile), w1.state).None? {
      assert Present(w1.state, Subscripts(FarmerProfile)[0]);
      assert Present(w2.state, Subscripts(FarmerProfile)[0]);
      FarmerProfileStep(w1.state, w1.logs, env);
      FarmerProfileStep(w2.state, w2.logs, env);
      ReadsDetermineSlots(FarmerProfile, w1, w2);
      FarmerProfileSame(w1, w2, env);
    }
  }

  /** What `FarmerProfile` writes and saves depends only on the slots it reads. */
  lemma FarmerProfileSame(w1: World, w2: World, env: Env)
    requires w1.logs == w2.logs && SameSlots(FarmerProfile, w1.state, w2.state)
    requires w1.state.userId.Some? && w2.state.userId.Some?
    ensures SameWritten(FarmerProfile, World(FarmerProfileNode(w1.state, env), w1.logs),
                        World(FarmerProfileNode(w2.state, env), w2.logs))
  {
  }

  lemma SensorDataReadsOnly(w1: World, w2: World, env: Env)
    requires AgreeOnReads(SensorData, w1, w2)
    ensures SameOutcome(SensorData, w1, w2, env)
  {
    SubscriptsAgree(SensorData, w1, w2);
    if FirstAbsent(Subscripts(SensorData), w1.state).None? {
      assert Present(w1.state, Subscripts(SensorData)[0]);
      assert Present(w2.state, Subscripts(SensorData)[0]);
      SensorDataStep(w1.state, w1.logs, env);
      SensorDataStep(w2.state, w2.logs, env);
      ReadsDetermineSlots(SensorData, w1, w2);
      SensorDataSame(w1, w2, env);
    }
  }

  /** What `SensorData` writes and saves depends only on the slots it reads. */
  lemma SensorDataSame(w1: World, w2: World, env: Env)
    requires w1.logs == w2.logs && SameSlots(SensorData, w1.state, w2.state)
    requires w1.state.userId.Some? && w2.state.userId.Some?
    ensures SameWritten(SensorData, World(SensorDataNode(w1.state, env), w1.logs),
                        World(SensorDataNode(w2.state, env), w2.logs))
  {
  }

  lemma WeatherReadsOnly(w1: World, w2: World, env: Env)
    requires AgreeOnReads(Weather, w1, w2)
    ensures SameOutcome(Weather, w1, w2, env)
  {
    WeatherStep(w1.state, w1.logs, env);
    WeatherStep(w2.state, w2.logs, env);
    ReadsDetermineSlots(Weather, w1, w2);
    WeatherSame(w1, w2, env);
  }

  /** What `Weather` writes and saves depends only on the slots it reads. */
  lemma WeatherSame(w1: World, w2: World, env: Env)
    requires w1.logs == w2.logs && SameSlots(Weather, w1.state, w2.state)
    ensures SameWritten(Weather, World(WeatherNode(w1.state, env), w1.logs),
                        World(WeatherNode(w2.state, env), w2.logs))
  {
  }

  lemma CropHealthReadsOnly(w1: World, w2: World, env: Env)
    requires AgreeOnReads(CropHealth, w1, w2)
    ensures SameOutcome(CropHealth, w1, w2, env)
  {
    CropHealthStep(w1.state, w1.logs, env);
    CropHealthStep(w2.state, w2.logs, env);
    ReadsDetermineSlots(CropHealth, w1, w2);
    CropHealthSame(w1, w2, env);
  }

  /** What `CropHealth` writes and saves depends only on the slots it reads. */
  lemma CropHealthSame(w1: World, w2: World, env: Env)
    requires w1.logs == w2.logs && SameSlots(CropHealth, w1.state, w2.state)
    ensures SameWritten(CropHealth, World(CropHealthNode(w1.state, env), w1.logs),
                        World(CropHealthNode(w2.state, env), w2.logs))
  {
  }

  lemma DiseasePredictionReadsOnly(w1: World, w2: World, env: Env)
    requires AgreeOnReads(DiseasePrediction, w1, w2)
    ensures SameOutcome(DiseasePrediction, w1, w2, env)
  {
    DiseasePredictionStep(w1.state, w1.logs, env);
    DiseasePredictionStep(w2.state, w2.logs, env);
    ReadsDetermineSlots(DiseasePrediction, w1, w2);
    DiseasePredictionSame(w1, w2, env);
  }

  /** What `DiseasePrediction` writes and saves depends only on the slots it reads. */
  lemma DiseasePredictionSame(w1: World, w2: World, env: Env)
    requires w1.logs == w2.logs && SameSlots(DiseasePrediction, w1.state, w2.state)
    ensures SameWritten(DiseasePrediction, World(DiseasePredictionNode(w1.state, env), w1.logs),
                        World(DiseasePredictionNode(w2.state, env), w2.logs))
  {
  }

  lemma LifecyclePlanningReadsOnly(w1: World, w2: World, env: Env)
    requires AgreeOnReads(LifecyclePlanning, w1, w2)
    ensures SameOutcome(LifecyclePlanning, w1, w2, env)
  {
    LifecyclePlanningStep(w1.state, w1.logs, env);
    LifecyclePlanningStep(w2.state, w2.logs, env);
    ReadsDetermineSlots(LifecyclePlanning, w1, w2);
    LifecyclePlanningSame(w1, w2, env);
  }

  /** What `LifecyclePlanning` writes and saves depends only on the slots it reads. */
  lemma LifecyclePlanningSame(w1: World, w2: World, env: Env)
    requires w1.logs == w2.logs && SameSlots(LifecyclePlanning, w1.state, w2.state)
    ensures SameWritten(LifecyclePlanning, World(LifecyclePlanningNode(w1.state, env), w1.logs),
                        World(LifecyclePlanningNode(w2.state, env), w2.logs))
  {
  }

  lemma ResponseReadsOnly(w1: World, w2: World, env: Env)
    requires AgreeOnReads(Response, w1, w2)
    ensures SameOutcome(Response, w1, w2, env)
  {
    SubscriptsAgree(Response, w1, w2);
    if FirstAbsent(Subscripts(Response), w1.state).None? {
      assert Present(w1.state, Subscripts(Response)[0]) && Present(w1.state, Subscripts(Response)[1]) && Present(w1.state, Subscripts(Response)[2]);
      assert Present(w2.state, Subscripts(Response)[0]) && Present(w2.state, Subscripts(Response)[1]) && Present(w2.state, Subscripts(Response)[2]);
      ResponseStep(w1, env);
      ResponseStep(w2, env);
      ReadsDetermineSlots(Response, w1, w2);
      ResponseSame(w1, w2, env);
    }
  }

  /** What `Response` writes and saves depends only on the slots it reads. */
  lemma ResponseSame(w1: World, w2: World, env: Env)
    requires w1.logs == w2.logs && SameSlots(Response, w1.state, w2.state)
    requires w1.state.message.Some? && w1.state.userId.Some? && w1.state.sessionId.Some? && w2.state.message.Some? && w2.state.userId.Some? && w2.state.sessionId.Some?
    ensures SameWritten(Response, ResponseNode(w1, env), ResponseNode(w2, env))
  {
  }

  // ---------- the run as the engine drives it ----------

  /**
   * What one run promises: it fails only when the triage reply is blank, with
   * that error; a successful run sets every key of `State` (so the caller never
   * sees the fallback text), leaves one trace note per node in the order the
   * nodes ran, and saves exactly the turn `{user: message, agent:
   * final_response}` under the session key.
   */
  predicate RunPromise(run: Result<World, Failure>, userId: string, sessionId: string, message: string,
                       logs: map<string, seq<Turn>>, env: Env)
  {
    && (run.Err? <==> IntentOf(TriageOf(env, message)).None?)
    && (run.Err? ==> run.error == NoIntent(TriageOf(env, message)))
    && (run.Ok? ==>
          var st := run.value.state;
          && st.finalResponse.Some?
          && FinalOrFallback(st) == st.finalResponse.value
          && |TraceOf(st)| == |Order|
          && (forall i :: 0 <= i < |Order| ==> TraceOf(st)[i] == NoteOf(Order[i], st))
          && (forall f :: Present(st, f))
          && run.value.logs == Appended(logs, Key(userId, sessionId), Turn(message, st.finalResponse.value)))
  }

  /** The dataflow reference keeps the promise. */
  lemma ExpectedPromise(userId: string, sessionId: string, message: string,
                        logs: map<string, seq<Turn>>, env: Env)
    ensures RunPromise(Expected(userId, sessionId, message, logs, env), userId, sessionId, message, logs, env)
  {
    var run := Expected(userId, sessionId, message, logs, env);
    var triage := TriageOf(env, message);
    match IntentOf(triage)
    case None =>
      assert run == Err(NoIntent(triage));
    case Some(intent) =>
      var history := LastTurns(LogOf(logs, Key(userId, sessionId)), 20);
      var w := run.value;
      var st := w.state;
      assert st.intent == Some(intent) && st.trace == Some(RunTrace(intent));
      assert st.finalResponse.Some?;
      assert w.logs == Appended(logs, Key(userId, sessionId), Turn(message, st.finalResponse.value));
      FullTraceFollowsOrder(st, intent);
      AllPresent(st);
  }

  /** A state whose every slot is set has every key present. */
  lemma AllPresent(st: State)
    requires st.userId.Some? && st.sessionId.Some? && st.message.Some? && st.intent.Some?
    requires st.history.Some? && st.historySummary.Some? && st.profile.Some? && st.sensors.Some?
    requires st.weather.Some? && st.cropAnalysis.Some? && st.diseaseRisk.Some? && st.plan.Some?
    requires st.finalResponse.Some? && st.trace.Some?
    ensures forall f :: Present(st, f)
  {
  }

  /** Every sequential run keeps the promise. */
  lemma RunOutcome(userId: string, sessionId: string, message: string,
                   logs: map<string, seq<Turn>>, env: Env)
    ensures RunPromise(Workflow(userId, sessionId, message, logs, env), userId, sessionId, message, logs, env)
  {
    WorkflowIsDataflow(userId, sessionId, message, logs, env);
    ExpectedPromise(userId, sessionId, message, logs, env);
  }

  /** The trace of a full run holds each node's note at that node's position in `Order`. */
  lemma FullTraceFollowsOrder(st: State, intent: string)
    requires st.intent == Some(intent)
    ensures |RunTrace(intent)| == |Order|
    ensures forall i :: 0 <= i < |Order| ==> RunTrace(intent)[i] == NoteOf(Order[i], st)
  {
  }

  /**
   * `_compiled_graph.ainvoke(initial)` as a loop: the nodes of `Order` run one at
   * a time, each replacing the shared state with the one it leaves, and the first
   * node that raises ends the run with its error.
   */
  method RunGraph(userId: string, sessionId: string, message: string,
                  logs: map<string, seq<Turn>>, env: Env) returns (outcome: Result<World, Failure>)
    ensures outcome == Expected(userId, sessionId, message, logs, env)
  {
    WorkflowIsDataflow(userId, sessionId, message, logs, env);
    var w := World(Initial(userId, sessionId, message), logs);
    var i := 0;
    while i < |Order|
      invariant i <= |Order|
      invariant RunFrom(i, w, env) == Workflow(userId, sessionId, message, logs, env)
    {
      match Step(Order[i], w, env) {
        case Err(e) =>
          return Err(e);
        case Ok(next) =>
          w := next;
      }
      i := i + 1;
    }
    outcome := Ok(w);
  }

  /**
   * `run_langgraph_workflow(user_id, session_id, message)` against the store:
   * the reply is `final_response` (the fallback text where it is unset) and the
   * store gains the one turn the response node saves; a run that raises returns
   * the error and leaves the store as it was.
   */
  method RunLangGraphWorkflow(store: Store, userId: string, sessionId: string, message: string, env: Env)
    returns (reply: Result<string, Failure>)
    modifies store
    ensures var run := Workflow(userId, sessionId, message, old(store.logs), env);
      && (run.Err? ==> reply == Err(run.error) && store.logs == old(store.logs))
      && (run.Ok? ==> reply == Ok(FinalOrFallback(run.value.state)) && store.logs == run.value.logs)
    ensures reply.Ok? ==> store.GetChatHistory(userId, sessionId, 1) == [Turn(message, reply.value)]
  {
    WorkflowIsDataflow(userId, sessionId, message, store.logs, env);
    RunOutcome(userId, sessionId, message, store.logs, env);
    var outcome := RunGraph(userId, sessionId, message, store.logs, env);
    match outcome {
      case Err(e) =>
        reply := Err(e);
      case Ok(w) =>
        var final := FinalOrFallback(w.state);
        store.SaveChatTurn(userId, sessionId, message, final);
        reply := Ok(final);
    }
  }
}
