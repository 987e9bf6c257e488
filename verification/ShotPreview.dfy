/** The concrete workflow (internal/service/pipeline/shot_preview.go) and the builders that turn its snapshots into
    invocations (internal/service/pipeline/runtime.go). JSON decoding is a parameter. */
module ShotPreview {
  import opened Types
  import opened TaskOps
  import opened TaskInvariant
  import opened Validate
  import opened System
  import opened SystemInvariant
  import opened SystemResults

  // ---------------------------------------------------------------- the workflow

  const INITIALIZE := "Initialize"
  const INTENT := "Intent"
  const VALIDATE_SPEC := "ValidateSpec"
  const SCENE_PLAN := "ScenePlan"
  const CREATE_ASSETS := "CreateAssets"
  const DESIGN_SHOTS := "DesignShots"
  const ASSEMBLE_SCENE := "AssembleScene"
  const PREVIEW_RENDER := "PreviewRender"
  const INSPECT := "Inspect"
  const FINAL_RENDER := "FinalRender"
  const ENCODE := "Encode"
  const VERIFY := "Verify"
  const PUBLISH := "Publish"

  const ASSET_CREATOR := "asset-creator-agent"

  function StageNode(id: NodeID, dependencies: seq<NodeID>, input: string): NodeSpec {
    NodeSpec(id, dependencies, input, Invocation(STEP, id), 0)
  }

  function AgentNode(id: NodeID, dependencies: seq<NodeID>, agentID: string): NodeSpec {
    NodeSpec(id, dependencies, "", Invocation(AGENT, agentID), 0)
  }

  function ToolNode(id: NodeID, dependencies: seq<NodeID>, toolID: string): NodeSpec {
    NodeSpec(id, dependencies, "", Invocation(TOOL, toolID), 0)
  }

  function ShotPreviewWorkflow(initialInput: string): Workflow {
    Workflow([
               StageNode(INITIALIZE, [], initialInput),
               AgentNode(INTENT, [INITIALIZE], "intent-agent"),
               StageNode(VALIDATE_SPEC, [INTENT], ""),
               AgentNode(SCENE_PLAN, [VALIDATE_SPEC], "scene-planner-agent"),
               StageNode(CREATE_ASSETS, [SCENE_PLAN], ""),
               AgentNode(DESIGN_SHOTS, [VALIDATE_SPEC, CREATE_ASSETS], "shot-designer-agent"),
               AgentNode(ASSEMBLE_SCENE, [CREATE_ASSETS, DESIGN_SHOTS], "scene-assembly-agent"),
               ToolNode(PREVIEW_RENDER, [ASSEMBLE_SCENE], "blender.render.submit"),
               StageNode(INSPECT, [PREVIEW_RENDER], ""),
               ToolNode(FINAL_RENDER, [ASSEMBLE_SCENE, INSPECT], "blender.render.submit"),
               ToolNode(ENCODE, [FINAL_RENDER], "ffmpeg.encode"),
               ToolNode(VERIFY, [ENCODE], "ffprobe.inspect"),
               StageNode(PUBLISH, [VERIFY], "")
             ])
  }

  /** The position of an ID in the workflow. */
  function Position(id: NodeID): nat {
    if id == INITIALIZE then 0 else if id == INTENT then 1 else if id == VALIDATE_SPEC then 2
    else if id == SCENE_PLAN then 3 else if id == CREATE_ASSETS then 4 else if id == DESIGN_SHOTS then 5
    else if id == ASSEMBLE_SCENE then 6 else if id == PREVIEW_RENDER then 7 else if id == INSPECT then 8
    else if id == FINAL_RENDER then 9 else if id == ENCODE then 10 else if id == VERIFY then 11 else 12
  }

  /** Every node stands after its dependencies. */
  ghost predicate InOrder(nodes: seq<NodeSpec>) {
    forall i :: 0 <= i < |nodes| ==> InPlace(nodes, i)
  }

  ghost predicate InPlace(nodes: seq<NodeSpec>, i: nat)
    requires i < |nodes|
  {
    && Position(nodes[i].id) == i
    && forall j :: 0 <= j < |nodes[i].dependsOn| ==>
      var d := nodes[i].dependsOn[j]; Position(d) < i && nodes[Position(d)].id == d
  }

  ghost predicate NoRepeats(ids: seq<NodeID>) {
    forall j, k :: 0 <= j < k < |ids| ==> ids[j] != ids[k]
  }

  predicate Solid(s: string) {
    s != "" && !IsSpace(s[0])
  }

  ghost predicate NodeSolid(n: NodeSpec, input: string) {
    && Solid(n.id) && Solid(n.invocation.target) && KnownKind(n.invocation.kind) && n.maxAttempts == 0
    && (n.input == "" || n.input == input) && NoRepeats(n.dependsOn)
  }

  lemma PositionsOfNames()
    ensures Position(INITIALIZE) == 0 && Position(INTENT) == 1 && Position(VALIDATE_SPEC) == 2
    ensures Position(SCENE_PLAN) == 3 && Position(CREATE_ASSETS) == 4 && Position(DESIGN_SHOTS) == 5
    ensures Position(ASSEMBLE_SCENE) == 6 && Position(PREVIEW_RENDER) == 7 && Position(INSPECT) == 8
    ensures Position(FINAL_RENDER) == 9 && Position(ENCODE) == 10 && Position(VERIFY) == 11 && Position(PUBLISH) == 12
  {
  }

  lemma WorkflowIsInOrder(input: string)
    ensures InOrder(ShotPreviewWorkflow(input).nodes)
  {
    PositionsOfNames();
  }

  lemma NamesAreSolid()
    ensures Solid(INITIALIZE) && Solid(INTENT) && Solid(VALIDATE_SPEC) && Solid(SCENE_PLAN) && Solid(CREATE_ASSETS)
    ensures Solid(DESIGN_SHOTS) && Solid(ASSEMBLE_SCENE) && Solid(PREVIEW_RENDER) && Solid(INSPECT)
    ensures Solid(FINAL_RENDER) && Solid(ENCODE) && Solid(VERIFY) && Solid(PUBLISH)
    ensures Solid("intent-agent") && Solid("scene-planner-agent") && Solid("shot-designer-agent")
    ensures Solid("scene-assembly-agent") && Solid("blender.render.submit") && Solid("ffmpeg.encode")
    ensures Solid("ffprobe.inspect")
  {
  }

  lemma StageIsSolid(id: NodeID, dependencies: seq<NodeID>, input: string)
    requires Solid(id) && |dependencies| <= 1
    ensures NodeSolid(StageNode(id, dependencies, ""), input) && NodeSolid(StageNode(id, dependencies, input), input)
  {
  }

  lemma AgentOrToolIsSolid(id: NodeID, dependencies: seq<NodeID>, target: string, input: string)
    requires Solid(id) && Solid(target) && NoRepeats(dependencies)
    ensures NodeSolid(AgentNode(id, dependencies, target), input)
    ensures NodeSolid(ToolNode(id, dependencies, target), input)
  {
  }

  lemma WorkflowIsSolid(input: string)
    ensures forall i :: 0 <= i < |ShotPreviewWorkflow(input).nodes| ==>
      NodeSolid(ShotPreviewWorkflow(input).nodes[i], input)
  {
    NamesAreSolid();
    StageIsSolid(INITIALIZE, [], input);
    AgentOrToolIsSolid(INTENT, [INITIALIZE], "intent-agent", input);
    StageIsSolid(VALIDATE_SPEC, [INTENT], input);
    AgentOrToolIsSolid(SCENE_PLAN, [VALIDATE_SPEC], "scene-planner-agent", input);
    StageIsSolid(CREATE_ASSETS, [SCENE_PLAN], input);
    AgentOrToolIsSolid(DESIGN_SHOTS, [VALIDATE_SPEC, CREATE_ASSETS], "shot-designer-agent", input);
    AgentOrToolIsSolid(ASSEMBLE_SCENE, [CREATE_ASSETS, DESIGN_SHOTS], "scene-assembly-agent", input);
    AgentOrToolIsSolid(PREVIEW_RENDER, [ASSEMBLE_SCENE], "blender.render.submit", input);
    StageIsSolid(INSPECT, [PREVIEW_RENDER], input);
    AgentOrToolIsSolid(FINAL_RENDER, [ASSEMBLE_SCENE, INSPECT], "blender.render.submit", input);
    AgentOrToolIsSolid(ENCODE, [FINAL_RENDER], "ffmpeg.encode", input);
    AgentOrToolIsSolid(VERIFY, [ENCODE], "ffprobe.inspect", input);
    StageIsSolid(PUBLISH, [VERIFY], input);
  }

  lemma InOrderIsAcyclic(nodes: seq<NodeSpec>)
    requires InOrder(nodes)
    ensures Acyclic(nodes) && forall i, j :: 0 <= i < j < |nodes| ==> nodes[i].id != nodes[j].id
    ensures forall n <- nodes :: NoRepeats(n.dependsOn) ==> DependenciesWellFormed(nodes, n)
  {
    forall i, j | 0 <= i < j < |nodes| ensures nodes[i].id != nodes[j].id {
      assert InPlace(nodes, i) && InPlace(nodes, j);
    }
    var rank := map id | id in (set i | 0 <= i < |nodes| :: nodes[i].id) :: Position(id);
    forall n <- nodes
      ensures n.id in rank && forall d <- n.dependsOn :: d in rank && rank[d] < rank[n.id] && Known(nodes, d)
    {
      var i :| 0 <= i < |nodes| && nodes[i] == n;
      assert InPlace(nodes, i);
      forall d <- n.dependsOn ensures d in rank && rank[d] < rank[n.id] && Known(nodes, d) {
        assert nodes[Position(d)] in nodes;
      }
    }
    assert IsRank(nodes, rank);
  }

  /** The graph every production request runs passes Validate. */
  lemma WorkflowIsValid(input: string, valid: string -> bool)
    requires input == "" || valid(input)
    ensures WellFormed(ShotPreviewWorkflow(input), valid) && Acyclic(ShotPreviewWorkflow(input).nodes)
  {
    var w := ShotPreviewWorkflow(input);
    WorkflowIsInOrder(input);
    WorkflowIsSolid(input);
    InOrderIsAcyclic(w.nodes);
    SolidIsWellFormed(w, input, valid);
  }

  lemma SolidIsWellFormed(w: Workflow, input: string, valid: string -> bool)
    requires input == "" || valid(input)
    requires forall i :: 0 <= i < |w.nodes| ==> NodeSolid(w.nodes[i], input)
    ensures forall n <- w.nodes :: NodeWellFormed(n, valid) && NoRepeats(n.dependsOn)
  {
  }

  // ---------------------------------------------------------------- the input builders

  datatype Json = Null | Bool(b: bool) | Number(n: real) | Str(s: string) | Arr(items: seq<Json>)
    | Obj(fields: map<string, Json>)

  datatype Identity = Identity(userID: string, keyID: string, prompt: string, conversationID: string)

  /** encoding/json, as far as the builders use it: validity, decoding to a value, and decoding into the identity
      struct on top of what it already holds. */
  datatype Codec = Codec(valid: string -> bool, decode: string -> Option<Json>,
                         merge: (string, Identity) -> Option<Identity>)

  datatype Request = Request(taskID: string, nodeID: NodeID, target: string, taskInput: Snapshot, input: Snapshot,
                             dependencies: map<NodeID, Snapshot>)

  datatype BuildError =
    | MissingDependency(id: NodeID) | NoBuilder(id: NodeID) | NoStep(step: string) | WrongStep(step: string)
    | NoKind(kind: string)
    | BadTaskInput | BadInput | PromptRequired | Undecodable(id: NodeID) | FieldRequired(id: NodeID, field: string)
    | BadSpec
    | NoAssetTasks

  /** Errors about the data a node was given, as opposed to the wiring of the workflow. */
  predicate AboutData(e: BuildError) {
    e.BadTaskInput? || e.BadInput? || e.PromptRequired? || e.Undecodable? || e.FieldRequired? || e.BadSpec?
        || e.NoAssetTasks?
  }

  /** What is handed to the agent, the step or the tool. */
  datatype Payload = Raw(json: string) | Built(value: map<string, Json>) | AssetTasks(items: seq<Json>)

  function DependencyJson(dependencies: map<NodeID, Snapshot>, id: NodeID): Result<string, BuildError> {
    if id !in dependencies then Err(MissingDependency(id)) else Ok(dependencies[id].json)
  }

  function DependencyValue(codec: Codec, dependencies: map<NodeID, Snapshot>, id: NodeID): Result<Json, BuildError> {
    if id !in dependencies then Err(MissingDependency(id))
    else match codec.decode(dependencies[id].json) case None => Err(Undecodable(id)) case Some(value) => Ok(value)
  }

  function DependencyField(codec: Codec, dependencies: map<NodeID, Snapshot>, id: NodeID, field: string)
    : Result<Json, BuildError>
  {
    match DependencyValue(codec, dependencies, id)
    case Err(e) => Err(e)
    case Ok(value) =>
      if !value.Obj? || field !in value.fields || value.fields[field].Null? then Err(FieldRequired(id, field))
      else Ok(value.fields[field])
  }

  /** stringField of a dependency that must be an object. */
  function DependencyString(codec: Codec, dependencies: map<NodeID, Snapshot>, id: NodeID, field: string)
    : Result<string, BuildError>
  {
    match DependencyValue(codec, dependencies, id)
    case Err(e) => Err(e)
    case Ok(value) =>
      if !value.Obj? || field !in value.fields || !value.fields[field].Str? || TrimSpace(value.fields[field].s) == ""
      then Err(FieldRequired(id, field))
      else Ok(TrimSpace(value.fields[field].s))
  }

  /** A string member of a Go struct decoded from the value: empty when absent or null, refused when of another type. */
  function MemberString(value: Json, member: string): Option<string> {
    match value
    case Null => Some("")
    case Obj(fields) =>
      if member !in fields || fields[member].Null? then Some("")
      else if fields[member].Str? then Some(fields[member].s) else None
    case _ => None
  }

  function TaskIdentity(codec: Codec, input: Snapshot): Result<Identity, BuildError> {
    var blank := Identity("", "", "", "");
    if input.json == "" then Ok(blank)
    else match codec.merge(input.json, blank) case None => Err(BadTaskInput) case Some(identity) => Ok(identity)
  }

  /** buildAgentInput. */
  function AgentInput(codec: Codec, r: Request): Result<Payload, BuildError> {
    match TaskIdentity(codec, r.taskInput)
    case Err(e) => Err(e)
    case Ok(identity) =>
      if r.target == ASSET_CREATOR then Ok(Raw(r.input.json))
      else if r.nodeID == INTENT then
        match DependencyJson(r.dependencies, INITIALIZE)
        case Err(e) => Err(e)
        case Ok(initial) =>
          (match codec.merge(initial, identity)
           case None => Err(PromptRequired)
           case Some(full) =>
             if TrimSpace(full.prompt) == "" then Err(PromptRequired) else Ok(Built(map["prompt" := Str(full.prompt)])))
      else if r.nodeID == SCENE_PLAN then
        match DependencyJson(r.dependencies, VALIDATE_SPEC)
        case Err(e) => Err(e)
        case Ok(json) => Ok(Raw(json))
      else if r.nodeID == DESIGN_SHOTS then
        match DependencyValue(codec, r.dependencies, VALIDATE_SPEC)
        case Err(e) => Err(e)
        case Ok(spec) =>
          (match DependencyField(codec, r.dependencies, CREATE_ASSETS, "asset_manifests")
           case Err(e) => Err(e)
           case Ok(assets) => Ok(Built(map["scene_spec" := spec, "asset_manifests" := assets])))
      else if r.nodeID == ASSEMBLE_SCENE then
        match DependencyField(codec, r.dependencies, CREATE_ASSETS, "asset_manifests")
        case Err(e) => Err(e)
        case Ok(assets) =>
          (match DependencyValue(codec, r.dependencies, DESIGN_SHOTS)
           case Err(e) => Err(e)
           case Ok(shots) =>
             Ok(Built(map["asset_manifests" := assets, "shot_plan" := shots,
                          "output_path" := Str("tasks/" + r.taskID + "/scene.blend")])))
      else Err(NoBuilder(r.nodeID))
  }

  /** ShotPreviewSteps.InvokeStep, with the fan-out of CreateAssets left to its own module. */
  function StepOutput(codec: Codec, r: Request): Result<Payload, BuildError> {
    if r.nodeID == INITIALIZE then
      if !codec.valid(r.input.json) then Err(BuildError.BadInput) else Ok(Raw(r.input.json))
    else if r.nodeID == VALIDATE_SPEC then
      match DependencyJson(r.dependencies, INTENT)
      case Err(e) => Err(e)
      case Ok(raw) =>
        var value := codec.decode(raw);
        if value.None? then Err(BadSpec)
        else
          var version, scene := MemberString(value.value, "version"), MemberString(value.value, "scene_id");
          if version != Some("scene-spec/v1") || scene.None? || TrimSpace(scene.value) == "" then Err(BadSpec)
          else Ok(Raw(raw))
    else if r.nodeID == CREATE_ASSETS then
      if r.target != CREATE_ASSETS then Err(WrongStep(r.target))
      else if SCENE_PLAN !in r.dependencies then Err(MissingDependency(SCENE_PLAN))
      else
        match DependencyField(codec, r.dependencies, SCENE_PLAN, "asset_tasks")
        case Err(_) => Err(NoAssetTasks)
        case Ok(tasks) => if !tasks.Arr? || tasks.items == [] then Err(NoAssetTasks) else Ok(AssetTasks(tasks.items))
    else if r.nodeID == INSPECT then
      match DependencyValue(codec, r.dependencies, PREVIEW_RENDER)
      case Err(e) => Err(e)
      case Ok(value) => Ok(Built(map["passed" := Bool(true), "preview" := value]))
    else if r.nodeID == PUBLISH then
      match DependencyValue(codec, r.dependencies, VERIFY)
      case Err(e) => Err(e)
      case Ok(value) => Ok(Built(map["published" := Bool(true), "artifact" := value]))
    else Err(NoStep(r.target))
  }

  /** buildToolInput. */
  function ToolInput(codec: Codec, r: Request): Result<Payload, BuildError> {
    if r.nodeID == PREVIEW_RENDER || r.nodeID == FINAL_RENDER then
      match DependencyString(codec, r.dependencies, ASSEMBLE_SCENE, "blend_file")
      case Err(e) => Err(e)
      case Ok(file) =>
        var kind := if r.nodeID == FINAL_RENDER then "final" else "preview";
        Ok(Built(map["project_path" := Str(file), "output_path" := Str("tasks/" + r.taskID + "/" + kind + "/frame_"),
                     "frame_start" := Number(1.0),
                     "frame_end" := Number(if r.nodeID == FINAL_RENDER then 250.0 else 1.0)]))
    else if r.nodeID == ENCODE then
      Ok(Built(map["input_path" := Str("tasks/" + r.taskID + "/final/frame_%04d.png"),
                   "output_path" := Str("tasks/" + r.taskID + "/shot-preview.mp4"),
                   "fps" := Number(24.0), "codec" := Str("libx264")]))
    else if r.nodeID == VERIFY then
      match DependencyString(codec, r.dependencies, ENCODE, "output_path")
      case Err(e) => Err(e)
      case Ok(path) => Ok(Built(map["path" := Str(path)]))
    else Err(NoBuilder(r.nodeID))
  }

  /** The dispatch of Runner.invoke. */
  function Build(codec: Codec, kind: string, r: Request): Result<Payload, BuildError> {
    if kind == AGENT then AgentInput(codec, r)
    else if kind == STEP then StepOutput(codec, r)
    else if kind == TOOL then ToolInput(codec, r)
    else Err(NoKind(kind))
  }

  // ---------------------------------------------------------------- the render chain fits together

  /** A text member of what is handed to a tool. */
  function Text(payload: Result<Payload, BuildError>, member: string): Option<string> {
    if payload.Ok? && payload.value.Built? && member in payload.value.value && payload.value.value[member].Str?
    then Some(payload.value.value[member].s) else None
  }

  lemma MembersOfRender(codec: Codec, r: Request)
    requires (r.nodeID == PREVIEW_RENDER || r.nodeID == FINAL_RENDER) && ToolInput(codec, r).Ok?
    ensures var file := DependencyString(codec, r.dependencies, ASSEMBLE_SCENE, "blend_file");
            file.Ok? && Text(ToolInput(codec, r), "project_path") == Some(file.value)
    ensures Text(ToolInput(codec, r), "output_path")
            == Some("tasks/" + r.taskID + "/" + (if r.nodeID == FINAL_RENDER then "final" else "preview") + "/frame_")
  {
    PositionsOfNames();
    assert "project_path" != "output_path" && "frame_start" != "output_path" && "frame_end" != "output_path";
    assert "project_path"[0] != "frame_start"[0] && "project_path"[0] != "frame_end"[0];
  }

  lemma MembersOfEncode(codec: Codec, r: Request)
    requires r.nodeID == ENCODE
    ensures Text(ToolInput(codec, r), "input_path") == Some("tasks/" + r.taskID + "/final/frame_%04d.png")
    ensures Text(ToolInput(codec, r), "output_path") == Some("tasks/" + r.taskID + "/shot-preview.mp4")
  {
    PositionsOfNames();
    assert "input_path"[0] != "output_path"[0] && "output_path"[0] != "fps"[0] && "output_path"[0] != "codec"[0];
    assert "input_path"[0] != "fps"[0] && "input_path"[0] != "codec"[0];
  }

  lemma PathsFit(id: string)
    ensures "tasks/" + id + "/" + "final" + "/frame_" + "%04d.png" == "tasks/" + id + "/final/frame_%04d.png"
    ensures "tasks/" + id + "/" + "preview" + "/frame_" != "tasks/" + id + "/" + "final" + "/frame_"
  {
    var stem := "tasks/" + id + "/";
    assert stem + "final" + "/frame_" + "%04d.png" == stem + ("final" + "/frame_" + "%04d.png");
    assert "final" + "/frame_" + "%04d.png" == "final/frame_%04d.png";
    assert "tasks/" + id + "/final/frame_%04d.png" == stem + "final/frame_%04d.png";
    assert (stem + "preview" + "/frame_")[|stem|] == 'p' && (stem + "final" + "/frame_")[|stem|] == 'f';
  }

  /** Within a task both renders read the file that scene assembly named, write to different places, and the encoder
      reads exactly the frames the final render writes. */
  lemma RenderChainFits(codec: Codec, preview: Request, final: Request, encode: Request)
    requires preview.nodeID == PREVIEW_RENDER && final.nodeID == FINAL_RENDER && encode.nodeID == ENCODE
    requires preview.taskID == final.taskID == encode.taskID
    requires ToolInput(codec, preview).Ok? && ToolInput(codec, final).Ok?
    ensures var p, f, e := ToolInput(codec, preview), ToolInput(codec, final), ToolInput(codec, encode);
            && Text(p, "output_path").Some? && Text(f, "output_path").Some?
            && Text(p, "output_path") != Text(f, "output_path")
            && Text(e, "input_path") == Some(Text(f, "output_path").value + "%04d.png")
            && (ASSEMBLE_SCENE in preview.dependencies && ASSEMBLE_SCENE in final.dependencies
                && preview.dependencies[ASSEMBLE_SCENE] == final.dependencies[ASSEMBLE_SCENE] ==>
                  Text(p, "project_path").Some? && Text(p, "project_path") == Text(f, "project_path"))
  {
    PositionsOfNames();
    MembersOfRender(codec, preview);
    MembersOfRender(codec, final);
    MembersOfEncode(codec, encode);
    PathsFit(final.taskID);
  }

  // ---------------------------------------------------------------- no run misses a dependency

  /** The dependencies the builder of a node may ask for. */
  function Needs(id: NodeID): set<NodeID> {
    if id == INTENT then {INITIALIZE} else if id == VALIDATE_SPEC then {INTENT}
    else if id == SCENE_PLAN then {VALIDATE_SPEC}
    else if id == CREATE_ASSETS then {SCENE_PLAN} else if id == DESIGN_SHOTS then {VALIDATE_SPEC, CREATE_ASSETS}
    else if id == ASSEMBLE_SCENE then {CREATE_ASSETS, DESIGN_SHOTS}
    else if id == PREVIEW_RENDER || id == FINAL_RENDER then {ASSEMBLE_SCENE}
    else if id == INSPECT then {PREVIEW_RENDER} else if id == VERIFY then {ENCODE} else if id == PUBLISH then {VERIFY}
    else {}
  }

  predicate IsAgent(id: NodeID) {
    id == INTENT || id == SCENE_PLAN || id == DESIGN_SHOTS || id == ASSEMBLE_SCENE
  }

  predicate IsTool(id: NodeID) {
    id == PREVIEW_RENDER || id == FINAL_RENDER || id == ENCODE || id == VERIFY
  }

  predicate IsStage(id: NodeID) {
    id == INITIALIZE || id == VALIDATE_SPEC || id == CREATE_ASSETS || id == INSPECT || id == PUBLISH
  }

  /** Given what it needs, a builder fails only on the data. */
  lemma AgentFailsOnlyOnData(codec: Codec, r: Request)
    requires IsAgent(r.nodeID) && Needs(r.nodeID) <= r.dependencies.Keys
    ensures AgentInput(codec, r).Err? ==> AboutData(AgentInput(codec, r).error)
  {
    PositionsOfNames();
  }

  lemma StepFailsOnlyOnData(codec: Codec, r: Request)
    requires IsStage(r.nodeID) && r.target == r.nodeID && Needs(r.nodeID) <= r.dependencies.Keys
    ensures StepOutput(codec, r).Err? ==> AboutData(StepOutput(codec, r).error)
  {
    PositionsOfNames();
  }

  lemma ToolFailsOnlyOnData(codec: Codec, r: Request)
    requires IsTool(r.nodeID) && Needs(r.nodeID) <= r.dependencies.Keys
    ensures ToolInput(codec, r).Err? ==> AboutData(ToolInput(codec, r).error)
  {
    PositionsOfNames();
  }

  /** The workflow gives each node a kind and a target its builder knows, and every dependency the builder asks for. */
  ghost predicate Fits(n: NodeSpec) {
    && (forall id <- Needs(n.id) :: id in n.dependsOn)
    && match n.invocation
       case Invocation(kind, target) =>
         || (kind == AGENT && IsAgent(n.id))
         || (kind == TOOL && IsTool(n.id))
         || (kind == STEP && IsStage(n.id) && target == n.id)
  }

  lemma StageFits(id: NodeID, dependencies: seq<NodeID>, input: string)
    requires IsStage(id) && forall d <- Needs(id) :: d in dependencies
    ensures Fits(StageNode(id, dependencies, input))
  {
  }

  lemma NeedsOfNames()
    ensures Needs(INITIALIZE) == {} && Needs(VALIDATE_SPEC) == {INTENT} && Needs(CREATE_ASSETS) == {SCENE_PLAN}
    ensures Needs(INSPECT) == {PREVIEW_RENDER} && Needs(PUBLISH) == {VERIFY} && Needs(VERIFY) == {ENCODE}
    ensures Needs(ENCODE) == {}
    ensures Needs(FINAL_RENDER) == {ASSEMBLE_SCENE} == Needs(PREVIEW_RENDER)
    ensures Needs(INTENT) == {INITIALIZE} && Needs(SCENE_PLAN) == {VALIDATE_SPEC}
    ensures Needs(DESIGN_SHOTS) == {VALIDATE_SPEC, CREATE_ASSETS}
    ensures Needs(ASSEMBLE_SCENE) == {CREATE_ASSETS, DESIGN_SHOTS}
  {
    PositionsOfNames();
  }

  lemma WorkflowFits(input: string)
    ensures forall i :: 0 <= i < |ShotPreviewWorkflow(input).nodes| ==> Fits(ShotPreviewWorkflow(input).nodes[i])
  {
    NeedsOfNames();
    StageFits(INITIALIZE, [], input);
    StageFits(VALIDATE_SPEC, [INTENT], "");
    StageFits(CREATE_ASSETS, [SCENE_PLAN], "");
    StageFits(INSPECT, [PREVIEW_RENDER], "");
    StageFits(PUBLISH, [VERIFY], "");
  }

  /** The request of an executor inside its agent, step or tool. */
  function RequestOf(t: Task, e: Exec): Request
    requires e.phase.Invoking?
  {
    Request(t.id, e.node.id, e.node.invocation.target, t.input, e.node.input, e.phase.inputs)
  }

  lemma FittedFailsOnlyOnData(codec: Codec, n: NodeSpec, r: Request)
    requires Fits(n) && r.nodeID == n.id && r.target == n.invocation.target
    requires forall d <- n.dependsOn :: d in r.dependencies
    ensures Build(codec, n.invocation.kind, r).Err? ==> AboutData(Build(codec, n.invocation.kind, r).error)
  {
    if n.invocation.kind == AGENT && IsAgent(n.id) {
      AgentFailsOnlyOnData(codec, r);
    } else if n.invocation.kind == TOOL && IsTool(n.id) {
      ToolFailsOnlyOnData(codec, r);
    } else {
      StepFailsOnlyOnData(codec, r);
    }
  }

  lemma WorkflowGraphIsOk(input: string, nodes: seq<Node>)
    requires BuiltFrom(nodes, ShotPreviewWorkflow(input).nodes)
    ensures GraphOk(nodes)
  {
    WorkflowIsValid(input, (json: string) => true);
    ValidatedGraphIsOk(ShotPreviewWorkflow(input), (json: string) => true, nodes);
  }

  /** The node of an executor has the shape of a node the task began with, and its inputs are all of its
      dependencies. */
  lemma InvokingSeesItsDependencies(s: State, schedule: seq<Step>, s': State, w: nat, k: nat) returns (i: nat)
    requires Initial(s) && GraphOk(s.task.nodes) && Reaches(s, schedule, s')
    requires HasExec(s', w, k) && ExecAt(s', w, k).phase.Invoking?
    ensures i < |s.task.nodes| && SameShape(s.task.nodes[i], ExecAt(s', w, k).node)
    ensures ExecAt(s', w, k).phase.inputs.Keys == DepSet(ExecAt(s', w, k).node)
  {
    var e := ExecAt(s', w, k);
    InitialOk(s);
    RunsKeep(s, schedule);
    SuccessIsPermanent(s, schedule, s');
    assert WorkerOk(s'.task, s'.workers[w]) && ExecOk(s'.task, e);
    i :| 0 <= i < |s'.task.nodes| && s'.task.nodes[i].id == e.node.id;
    assert ExecNodeOk(e, s'.task.nodes[i]) && SameShape(s.task.nodes[i], s'.task.nodes[i]);
  }

  /** In no run of the workflow - crashes, retries, adjustments and a failing repository included - does a builder find
      a dependency missing, a node without a builder, or a step it does not know. */
  lemma EveryInvocationIsComplete(codec: Codec, input: string, s: State, schedule: seq<Step>, s': State, w: nat, k: nat)
    requires Initial(s) && BuiltFrom(s.task.nodes, ShotPreviewWorkflow(input).nodes)
    requires Reaches(s, schedule, s') && HasExec(s', w, k) && ExecAt(s', w, k).phase.Invoking?
    ensures var e := ExecAt(s', w, k);
            && e.phase.inputs.Keys == DepSet(e.node)
            && var built := Build(codec, e.node.invocation.kind, RequestOf(s'.task, e));
               built.Err? ==> AboutData(built.error)
  {
    WorkflowGraphIsOk(input, s.task.nodes);
    var i := InvokingSeesItsDependencies(s, schedule, s', w, k);
    WorkflowFits(input);
    FittedFailsOnlyOnData(codec, ShotPreviewWorkflow(input).nodes[i], RequestOf(s'.task, ExecAt(s', w, k)));
  }
}
