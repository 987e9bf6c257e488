/** What the input builders of the shot-preview workflow (internal/service/pipeline/runtime.go) hand to agents, steps
    and tools, in terms of what the dependencies decode to, and how the data flows from one node to the next. */
module Payloads {
  import opened Types
  import opened TaskOps
  import opened ShotPreview
  import opened System
  import opened SystemInvariant
  import opened SystemResults
  import opened TaskInvariant
  import opened Validate
  import opened Provenance

  // ---------------------------------------------------------------- what the dependencies say

  /** The dependency is there and decodes to the value. */
  ghost predicate Says(codec: Codec, r: Request, id: NodeID, value: Json) {
    id in r.dependencies && codec.decode(r.dependencies[id].json) == Some(value)
  }

  /** The dependency decodes to an object with the member, which is not null. */
  ghost predicate SaysMember(codec: Codec, r: Request, id: NodeID, member: string, value: Json) {
    exists fields :: Says(codec, r, id, Obj(fields)) && member in fields && fields[member] == value && !value.Null?
  }

  /** Likewise with a text member that is not blank; `text` is it without surrounding space. */
  ghost predicate SaysText(codec: Codec, r: Request, id: NodeID, member: string, text: string) {
    exists raw :: SaysMember(codec, r, id, member, Str(raw)) && text == TrimSpace(raw) && text != ""
  }

  /** The payload is an object with the one member, the two, or the three. */
  ghost predicate IsObject1(p: Result<Payload, BuildError>, a: string, x: Json) {
    p.Ok? && p.value.Built? && p.value.value.Keys == {a} && p.value.value[a] == x
  }

  ghost predicate IsObject2(p: Result<Payload, BuildError>, a: string, x: Json, b: string, y: Json) {
    && p.Ok? && p.value.Built? && p.value.value.Keys == {a, b}
    && p.value.value[a] == x && p.value.value[b] == y
  }

  ghost predicate IsObject3(p: Result<Payload, BuildError>, a: string, x: Json, b: string, y: Json, c: string,
                            z: Json) {
    && p.Ok? && p.value.Built? && p.value.value.Keys == {a, b, c}
    && p.value.value[a] == x && p.value.value[b] == y && p.value.value[c] == z
  }

  ghost predicate IsObject4(p: Result<Payload, BuildError>, a: string, x: Json, b: string, y: Json, c: string, z: Json,
                            d: string, u: Json)
  {
    && p.Ok? && p.value.Built? && p.value.value.Keys == {a, b, c, d}
    && p.value.value[a] == x && p.value.value[b] == y && p.value.value[c] == z && p.value.value[d] == u
  }

  lemma ValueSays(codec: Codec, r: Request, id: NodeID)
    ensures var v := DependencyValue(codec, r.dependencies, id);
      && (v.Ok? <==> exists value :: Says(codec, r, id, value)) && (v.Ok? ==> Says(codec, r, id, v.value))
  {
    var v := DependencyValue(codec, r.dependencies, id);
    assert v.Ok? ==> Says(codec, r, id, v.value);
  }

  lemma MemberSays(codec: Codec, r: Request, id: NodeID, member: string)
    ensures var v := DependencyField(codec, r.dependencies, id, member);
      && (v.Ok? <==> exists value :: SaysMember(codec, r, id, member, value))
      && (v.Ok? ==> SaysMember(codec, r, id, member, v.value))
  {
    var v := DependencyField(codec, r.dependencies, id, member);
    if v.Ok? {
      var fields := DependencyValue(codec, r.dependencies, id).value.fields;
      assert Says(codec, r, id, Obj(fields)) && fields[member] == v.value;
      assert SaysMember(codec, r, id, member, v.value);
    }
    forall value | SaysMember(codec, r, id, member, value) ensures v == Ok(value) {
      MemberFound(codec, r, id, member, value);
    }
  }

  lemma MemberFound(codec: Codec, r: Request, id: NodeID, member: string, value: Json)
    requires SaysMember(codec, r, id, member, value)
    ensures DependencyField(codec, r.dependencies, id, member) == Ok(value)
  {
    var fields :| Says(codec, r, id, Obj(fields)) && member in fields && fields[member] == value;
  }

  lemma TextSays(codec: Codec, r: Request, id: NodeID, member: string)
    ensures var v := DependencyString(codec, r.dependencies, id, member);
      && (v.Ok? <==> exists text :: SaysText(codec, r, id, member, text))
      && (v.Ok? ==> SaysText(codec, r, id, member, v.value))
  {
    var v := DependencyString(codec, r.dependencies, id, member);
    if v.Ok? {
      var fields := DependencyValue(codec, r.dependencies, id).value.fields;
      assert Says(codec, r, id, Obj(fields));
      assert fields[member] == Str(fields[member].s);
      assert SaysMember(codec, r, id, member, Str(fields[member].s));
      assert SaysText(codec, r, id, member, v.value);
    }
    forall text | SaysText(codec, r, id, member, text) ensures v == Ok(text) {
      TextFound(codec, r, id, member, text);
    }
  }

  lemma TextFound(codec: Codec, r: Request, id: NodeID, member: string, text: string)
    requires SaysText(codec, r, id, member, text)
    ensures DependencyString(codec, r.dependencies, id, member) == Ok(text)
  {
    var raw :| SaysMember(codec, r, id, member, Str(raw)) && text == TrimSpace(raw);
    var fields :| Says(codec, r, id, Obj(fields)) && member in fields && fields[member] == Str(raw);
  }

  // ---------------------------------------------------------------- agents

  /** The identity the task input speaks of; an empty input speaks of nobody. */
  ghost predicate Identifies(codec: Codec, input: Snapshot, identity: Identity) {
    var nobody := Identity("", "", "", "");
    if input.json == "" then identity == nobody else codec.merge(input.json, nobody) == Some(identity)
  }

  /** A task input that cannot be decoded stops every agent, and nothing else is blamed on it. */
  lemma BadTaskInputExactly(codec: Codec, r: Request)
    ensures AgentInput(codec, r) == Err(BadTaskInput) <==> !exists identity :: Identifies(codec, r.taskInput, identity)
    ensures TaskIdentity(codec, r.taskInput).Ok? <==> exists identity :: Identifies(codec, r.taskInput, identity)
  {
    var nobody := Identity("", "", "", "");
    if r.taskInput.json == "" {
      assert Identifies(codec, r.taskInput, nobody);
    } else if codec.merge(r.taskInput.json, nobody).Some? {
      assert Identifies(codec, r.taskInput, codec.merge(r.taskInput.json, nobody).value);
    }
  }

  /** The intent agent is handed the prompt and nothing else: the one of the initial input, or of the task input where
      the initial input has none. */
  lemma IntentInput(codec: Codec, r: Request, identity: Identity)
    requires r.nodeID == INTENT && r.target != ASSET_CREATOR && Identifies(codec, r.taskInput, identity)
    requires INITIALIZE in r.dependencies
    ensures var full := codec.merge(r.dependencies[INITIALIZE].json, identity);
      if full.Some? && TrimSpace(full.value.prompt) != "" then
        IsObject1(AgentInput(codec, r), "prompt", Str(full.value.prompt))
      else AgentInput(codec, r) == Err(PromptRequired)
  {
  }

  /** The scene planner is handed the checked specification byte for byte. */
  lemma PlannerInput(codec: Codec, r: Request)
    requires r.nodeID == SCENE_PLAN && r.target != ASSET_CREATOR && TaskIdentity(codec, r.taskInput).Ok?
    ensures AgentInput(codec, r)
      == if VALIDATE_SPEC in r.dependencies then Ok(Raw(r.dependencies[VALIDATE_SPEC].json))
         else Err(MissingDependency(VALIDATE_SPEC))
  {
    PositionsOfNames();
  }

  /** The shot designer is handed the specification as `scene_spec` and the manifests as `asset_manifests`, exactly when
      both are there. */
  lemma DesignerInput(codec: Codec, r: Request)
    requires r.nodeID == DESIGN_SHOTS && r.target != ASSET_CREATOR && TaskIdentity(codec, r.taskInput).Ok?
    ensures forall spec, assets ::
      Says(codec, r, VALIDATE_SPEC, spec) && SaysMember(codec, r, CREATE_ASSETS, "asset_manifests", assets) ==>
        IsObject2(AgentInput(codec, r), "scene_spec", spec, "asset_manifests", assets)
    ensures AgentInput(codec, r).Ok? <==>
      && (exists spec :: Says(codec, r, VALIDATE_SPEC, spec))
      && (exists assets :: SaysMember(codec, r, CREATE_ASSETS, "asset_manifests", assets))
  {
    PositionsOfNames();
    ValueSays(codec, r, VALIDATE_SPEC);
    MemberSays(codec, r, CREATE_ASSETS, "asset_manifests");
    assert "scene_spec"[0] != "asset_manifests"[0];
  }

  /** The assembler is handed the manifests, the shot plan, and where to write the scene of this task. */
  lemma AssemblerInput(codec: Codec, r: Request)
    requires r.nodeID == ASSEMBLE_SCENE && r.target != ASSET_CREATOR && TaskIdentity(codec, r.taskInput).Ok?
    ensures forall assets, shots ::
      SaysMember(codec, r, CREATE_ASSETS, "asset_manifests", assets) && Says(codec, r, DESIGN_SHOTS, shots) ==>
        IsObject3(AgentInput(codec, r), "asset_manifests", assets, "shot_plan", shots,
                  "output_path", Str("tasks/" + r.taskID + "/scene.blend"))
    ensures AgentInput(codec, r).Ok? <==>
      && (exists assets :: SaysMember(codec, r, CREATE_ASSETS, "asset_manifests", assets))
      && (exists shots :: Says(codec, r, DESIGN_SHOTS, shots))
  {
    PositionsOfNames();
    ValueSays(codec, r, DESIGN_SHOTS);
    MemberSays(codec, r, CREATE_ASSETS, "asset_manifests");
    assert "shot_plan"[0] != "asset_manifests"[0] && "output_path"[0] != "asset_manifests"[0]
      && "output_path"[0] != "shot_plan"[0];
  }

  /** An asset creator is handed the input of its own node. */
  lemma CreatorInput(codec: Codec, r: Request)
    requires r.target == ASSET_CREATOR && TaskIdentity(codec, r.taskInput).Ok?
    ensures AgentInput(codec, r) == Ok(Raw(r.input.json))
  {
  }

  // ---------------------------------------------------------------- steps

  /** Initialization passes its input on unchanged, exactly if it is JSON. */
  lemma InitializeOutput(codec: Codec, r: Request)
    requires r.nodeID == INITIALIZE
    ensures StepOutput(codec, r)
      == if codec.valid(r.input.json) then Ok(Raw(r.input.json)) else Err(BuildError.BadInput)
  {
  }

  /** The specification passes byte for byte, exactly if it is an object of the one version with a scene ID. */
  lemma SpecOutput(codec: Codec, r: Request)
    requires r.nodeID == VALIDATE_SPEC && INTENT in r.dependencies
    ensures StepOutput(codec, r).Ok? ==> StepOutput(codec, r) == Ok(Raw(r.dependencies[INTENT].json))
    ensures StepOutput(codec, r).Err? ==> StepOutput(codec, r) == Err(BadSpec)
    ensures StepOutput(codec, r).Ok? <==>
      && SaysMember(codec, r, INTENT, "version", Str("scene-spec/v1"))
      && exists scene :: SaysText(codec, r, INTENT, "scene_id", scene)
  {
    PositionsOfNames();
    MemberSays(codec, r, INTENT, "version");
    TextSays(codec, r, INTENT, "scene_id");
    if StepOutput(codec, r).Ok? {
      var value := codec.decode(r.dependencies[INTENT].json).value;
      BlankIsNoVersion();
      assert Says(codec, r, INTENT, Obj(value.fields));
      assert SaysMember(codec, r, INTENT, "version", value.fields["version"]);
      assert SaysMember(codec, r, INTENT, "scene_id", Str(value.fields["scene_id"].s));
    }
  }

  lemma BlankIsNoVersion()
    ensures "scene-spec/v1" != "" && TrimSpace("") == ""
  {
  }

  /** The fan-out is handed the asset tasks of the plan, exactly if there are any. */
  lemma FanOutInput(codec: Codec, r: Request)
    requires r.nodeID == CREATE_ASSETS && r.target == CREATE_ASSETS && SCENE_PLAN in r.dependencies
    ensures forall items :: items != [] && SaysMember(codec, r, SCENE_PLAN, "asset_tasks", Arr(items)) ==>
      StepOutput(codec, r) == Ok(AssetTasks(items))
    ensures StepOutput(codec, r).Ok? <==>
      exists items :: items != [] && SaysMember(codec, r, SCENE_PLAN, "asset_tasks", Arr(items))
    ensures StepOutput(codec, r).Err? ==> StepOutput(codec, r) == Err(NoAssetTasks)
  {
    PositionsOfNames();
    MemberSays(codec, r, SCENE_PLAN, "asset_tasks");
    if StepOutput(codec, r).Ok? {
      assert SaysMember(codec, r, SCENE_PLAN, "asset_tasks", Arr(StepOutput(codec, r).value.items));
    }
  }

  /** Inspection and publishing wrap the one dependency they have. */
  lemma InspectOutput(codec: Codec, r: Request)
    requires r.nodeID == INSPECT
    ensures forall preview :: Says(codec, r, PREVIEW_RENDER, preview) ==>
      IsObject2(StepOutput(codec, r), "passed", Bool(true), "preview", preview)
    ensures StepOutput(codec, r).Ok? <==> exists preview :: Says(codec, r, PREVIEW_RENDER, preview)
  {
    PositionsOfNames();
    ValueSays(codec, r, PREVIEW_RENDER);
    assert "passed"[1] != "preview"[1];
  }

  lemma PublishOutput(codec: Codec, r: Request)
    requires r.nodeID == PUBLISH
    ensures forall artifact :: Says(codec, r, VERIFY, artifact) ==>
      IsObject2(StepOutput(codec, r), "published", Bool(true), "artifact", artifact)
    ensures StepOutput(codec, r).Ok? <==> exists artifact :: Says(codec, r, VERIFY, artifact)
  {
    PositionsOfNames();
    ValueSays(codec, r, VERIFY);
    assert "published"[0] != "artifact"[0];
  }

  // ---------------------------------------------------------------- tools

  function Place(id: NodeID): string {
    if id == FINAL_RENDER then "/final/" else "/preview/"
  }

  /** A render is handed the file the assembler named and a place within the task: one frame for the preview, 250 for
      the final render. */
  lemma RenderInput(codec: Codec, r: Request)
    requires r.nodeID == PREVIEW_RENDER || r.nodeID == FINAL_RENDER
    ensures forall file :: SaysText(codec, r, ASSEMBLE_SCENE, "blend_file", file) ==>
      IsObject4(ToolInput(codec, r), "project_path", Str(file),
                "output_path", Str("tasks/" + r.taskID + Place(r.nodeID) + "frame_"), "frame_start", Number(1.0),
                "frame_end", Number(if r.nodeID == FINAL_RENDER then 250.0 else 1.0))
    ensures ToolInput(codec, r).Ok? <==> exists file :: SaysText(codec, r, ASSEMBLE_SCENE, "blend_file", file)
  {
    PositionsOfNames();
    TextSays(codec, r, ASSEMBLE_SCENE, "blend_file");
    FourNames();
    RenderPath(r.taskID);
  }

  lemma FourNames()
    ensures "project_path" != "output_path" && "project_path" != "frame_start" && "project_path" != "frame_end"
    ensures "output_path" != "frame_start" && "output_path" != "frame_end" && "frame_start" != "frame_end"
  {
    assert "frame_start"[6] != "frame_end"[6] && "output_path"[0] != "frame_start"[0];
    assert "output_path"[0] != "frame_end"[0] && "project_path"[0] != "frame_start"[0];
    assert "project_path"[0] != "frame_end"[0] && "project_path"[0] != "output_path"[0];
  }

  lemma RenderPath(id: string)
    ensures "tasks/" + id + "/" + "final" + "/frame_" == "tasks/" + id + "/final/" + "frame_"
    ensures "tasks/" + id + "/" + "preview" + "/frame_" == "tasks/" + id + "/preview/" + "frame_"
  {
    var stem := "tasks/" + id;
    assert stem + "/" + "final" + "/frame_" == stem + ("/" + "final" + "/frame_");
    assert "/" + "final" + "/frame_" == "/final/frame_" == "/final/" + "frame_";
    assert stem + "/" + "preview" + "/frame_" == stem + ("/" + "preview" + "/frame_");
    assert "/" + "preview" + "/frame_" == "/preview/frame_" == "/preview/" + "frame_";
  }

  lemma EncodeInput(codec: Codec, r: Request)
    requires r.nodeID == ENCODE
    ensures IsObject4(ToolInput(codec, r), "input_path", Str("tasks/" + r.taskID + "/final/frame_%04d.png"),
                      "output_path", Str("tasks/" + r.taskID + "/shot-preview.mp4"),
                      "fps", Number(24.0), "codec", Str("libx264"))
  {
    PositionsOfNames();
    assert "input_path"[0] != "output_path"[0] && "input_path"[0] != "fps"[0] && "input_path"[0] != "codec"[0];
    assert "output_path"[0] != "fps"[0] && "output_path"[0] != "codec"[0] && "fps"[0] != "codec"[0];
  }

  lemma VerifyInput(codec: Codec, r: Request)
    requires r.nodeID == VERIFY
    ensures forall path :: SaysText(codec, r, ENCODE, "output_path", path) ==>
      IsObject1(ToolInput(codec, r), "path", Str(path))
    ensures ToolInput(codec, r).Ok? <==> exists path :: SaysText(codec, r, ENCODE, "output_path", path)
  {
    PositionsOfNames();
    TextSays(codec, r, ENCODE, "output_path");
  }

  // ---------------------------------------------------------------- from node to node

  /** The specification the planner works from is the answer of the intent agent, byte for byte, once it has passed the
      check; and a step that fails the check passes nothing. */
  lemma SpecIsPassedOn(codec: Codec, check: Request, plan: Request, intent: Snapshot)
    requires check.nodeID == VALIDATE_SPEC && INTENT in check.dependencies && check.dependencies[INTENT] == intent
    requires plan.nodeID == SCENE_PLAN && plan.target != ASSET_CREATOR && TaskIdentity(codec, plan.taskInput).Ok?
    requires StepOutput(codec, check).Ok? && StepOutput(codec, check).value.Raw?
    requires VALIDATE_SPEC in plan.dependencies
    requires plan.dependencies[VALIDATE_SPEC].json == StepOutput(codec, check).value.json
    ensures AgentInput(codec, plan) == Ok(Raw(intent.json))
  {
    SpecOutput(codec, check);
    PlannerInput(codec, plan);
  }

  /** The designer and the assembler of one task see the same manifests: those of CreateAssets. */
  lemma SameManifests(codec: Codec, design: Request, assemble: Request, assets: Json)
    requires design.nodeID == DESIGN_SHOTS && assemble.nodeID == ASSEMBLE_SCENE
    requires design.target != ASSET_CREATOR && assemble.target != ASSET_CREATOR
    requires AgentInput(codec, design).Ok? && AgentInput(codec, assemble).Ok?
    requires CREATE_ASSETS in design.dependencies && CREATE_ASSETS in assemble.dependencies
    requires design.dependencies[CREATE_ASSETS] == assemble.dependencies[CREATE_ASSETS]
    requires SaysMember(codec, design, CREATE_ASSETS, "asset_manifests", assets)
    ensures var d, a := AgentInput(codec, design).value, AgentInput(codec, assemble).value;
      && d.Built? && "asset_manifests" in d.value && d.value["asset_manifests"] == assets
      && a.Built? && "asset_manifests" in a.value && a.value["asset_manifests"] == assets
  {
    assert TaskIdentity(codec, design.taskInput).Ok? && TaskIdentity(codec, assemble.taskInput).Ok?;
    DesignerInput(codec, design);
    AssemblerInput(codec, assemble);
    var spec :| Says(codec, design, VALIDATE_SPEC, spec);
    assert IsObject2(AgentInput(codec, design), "scene_spec", spec, "asset_manifests", assets);
    var shots :| Says(codec, assemble, DESIGN_SHOTS, shots);
    SameMember(codec, design, assemble, CREATE_ASSETS, "asset_manifests", assets);
  }

  lemma SameMember(codec: Codec, r: Request, r': Request, id: NodeID, member: string, value: Json)
    requires SaysMember(codec, r, id, member, value) && id in r'.dependencies
    requires r.dependencies[id] == r'.dependencies[id]
    ensures SaysMember(codec, r', id, member, value)
  {
    var fields :| Says(codec, r, id, Obj(fields)) && member in fields && fields[member] == value;
    assert Says(codec, r', id, Obj(fields));
  }

  /** In every run the request of an executor speaks of its own node and of the task as submitted: the task's ID and
      input, and the ID, the target and the input of the node it was started for. */
  lemma RequestsSayTheRun(s: State, schedule: seq<Step>, s': State, w: nat, k: nat) returns (i: nat)
    requires Initial(s) && GraphOk(s.task.nodes) && Reaches(s, schedule, s')
    requires HasExec(s', w, k) && ExecAt(s', w, k).phase.Invoking?
    ensures var r := RequestOf(s'.task, ExecAt(s', w, k));
      && i < |s.task.nodes| && r.taskID == s.task.id && r.taskInput == s.task.input
      && r.nodeID == s.task.nodes[i].id && r.target == s.task.nodes[i].invocation.target
      && r.input == s.task.nodes[i].input
      && (forall d :: d in r.dependencies <==> d in s.task.nodes[i].dependsOn)
      && r.dependencies == ExecAt(s', w, k).phase.inputs
  {
    i := InvokingSeesItsDependencies(s, schedule, s', w, k);
    SuccessIsPermanent(s, schedule, s');
    forall d ensures d in ExecAt(s', w, k).phase.inputs <==> d in DepSet(ExecAt(s', w, k).node) {
      assert d in ExecAt(s', w, k).phase.inputs <==> d in ExecAt(s', w, k).phase.inputs.Keys;
    }
  }

  /** So whatever happens in between, Initialize hands on the very text the workflow was built with. */
  lemma InitializeHandsOnTheInput(codec: Codec, text: string, s: State, schedule: seq<Step>, s': State, w: nat, k: nat)
    requires Initial(s) && BuiltFrom(s.task.nodes, ShotPreviewWorkflow(text).nodes) && Reaches(s, schedule, s')
    requires s.task.nodes[0].input.json == text && codec.valid(text)
    requires HasExec(s', w, k) && ExecAt(s', w, k).phase.Invoking? && ExecAt(s', w, k).node.id == INITIALIZE
    ensures var e := ExecAt(s', w, k); Build(codec, e.node.invocation.kind, RequestOf(s'.task, e)) == Ok(Raw(text))
  {
    WorkflowGraphIsOk(text, s.task.nodes);
    var i := RequestsSayTheRun(s, schedule, s', w, k);
    var j := InvokingSeesItsDependencies(s, schedule, s', w, k);
    assert s.task.nodes[0].id == INITIALIZE && i == 0 && j == 0;
    InitializeOutput(codec, RequestOf(s'.task, ExecAt(s', w, k)));
    assert ExecAt(s', w, k).node.invocation.kind == STEP && STEP != AGENT;
  }

  /** No agent of the workflow is the asset creator, which only the fan-out calls, and no two nodes share an agent. */
  lemma AgentsOfTheWorkflow(text: string, i: nat, j: nat)
    requires i < |ShotPreviewWorkflow(text).nodes| && ShotPreviewWorkflow(text).nodes[i].invocation.kind == AGENT
    requires j < |ShotPreviewWorkflow(text).nodes| && ShotPreviewWorkflow(text).nodes[j].invocation.kind == AGENT
    ensures ShotPreviewWorkflow(text).nodes[i].invocation.target != ASSET_CREATOR
    ensures ShotPreviewWorkflow(text).nodes[i].invocation.target == ShotPreviewWorkflow(text).nodes[j].invocation.target
      ==> i == j
  {
    KindsDiffer();
    AgentNamesDiffer();
  }

  lemma KindsDiffer()
    ensures AGENT != STEP && AGENT != TOOL && STEP != TOOL
  {
    assert AGENT[0] != STEP[0] && AGENT[0] != TOOL[0] && STEP[0] != TOOL[0];
  }

  lemma AgentNamesDiffer()
    ensures "intent-agent" != ASSET_CREATOR && "scene-planner-agent" != ASSET_CREATOR
    ensures "shot-designer-agent" != ASSET_CREATOR && "scene-assembly-agent" != ASSET_CREATOR
    ensures "intent-agent" != "scene-planner-agent" && "intent-agent" != "shot-designer-agent"
    ensures "intent-agent" != "scene-assembly-agent" && "scene-planner-agent" != "shot-designer-agent"
    ensures "scene-planner-agent" != "scene-assembly-agent" && "shot-designer-agent" != "scene-assembly-agent"
  {
    assert "scene-planner-agent"[6] != "scene-assembly-agent"[6];
    assert "shot-designer-agent"[1] != "scene-assembly-agent"[1];
    assert "scene-planner-agent"[1] != "shot-designer-agent"[1] && "intent-agent"[0] != "scene-planner-agent"[0];
    assert "intent-agent"[0] != "shot-designer-agent"[0] && "intent-agent"[0] != "scene-assembly-agent"[0];
    assert ASSET_CREATOR[0] == 'a';
  }

  /** In every run the shot designer works from what ValidateSpec and CreateAssets were given by their own invocations
      or by a human: its `scene_spec` is the one decoded, its `asset_manifests` the member of the other. */
  lemma DesignerSeesSpecAndManifests(codec: Codec, text: string, s: State, schedule: seq<Step>, s': State, w: nat,
                                     k: nat)
    returns (spec: Json, assets: Json)
    requires Initial(s) && BuiltFrom(s.task.nodes, ShotPreviewWorkflow(text).nodes) && Reaches(s, schedule, s')
    requires HasExec(s', w, k) && ExecAt(s', w, k).phase.Invoking? && ExecAt(s', w, k).node.id == DESIGN_SHOTS
    requires Build(codec, AGENT, RequestOf(s'.task, ExecAt(s', w, k))).Ok?
    ensures var r := RequestOf(s'.task, ExecAt(s', w, k));
      && IsObject2(Build(codec, AGENT, r), "scene_spec", spec, "asset_manifests", assets)
      && Says(codec, r, VALIDATE_SPEC, spec) && SaysMember(codec, r, CREATE_ASSETS, "asset_manifests", assets)
      && Authored(s, schedule, VALIDATE_SPEC, r.dependencies[VALIDATE_SPEC])
      && Authored(s, schedule, CREATE_ASSETS, r.dependencies[CREATE_ASSETS])
  {
    var e, r := ExecAt(s', w, k), RequestOf(s'.task, ExecAt(s', w, k));
    WorkflowGraphIsOk(text, s.task.nodes);
    var i := RequestsSayTheRun(s, schedule, s', w, k);
    DesignerTarget(text, s.task.nodes, i);
    assert TaskIdentity(codec, r.taskInput).Ok?;
    DesignerInput(codec, r);
    spec :| Says(codec, r, VALIDATE_SPEC, spec);
    assets :| SaysMember(codec, r, CREATE_ASSETS, "asset_manifests", assets);
    DraftedHaveNoOutput(text, s.task.nodes);
    InputsHaveAuthors(s, schedule, s', w, k, VALIDATE_SPEC);
    InputsHaveAuthors(s, schedule, s', w, k, CREATE_ASSETS);
  }

  lemma DesignerTarget(text: string, nodes: seq<Node>, i: nat)
    requires BuiltFrom(nodes, ShotPreviewWorkflow(text).nodes) && i < |nodes| && nodes[i].id == DESIGN_SHOTS
    ensures nodes[i].invocation.target != ASSET_CREATOR
  {
    PositionsOfNames();
    AgentNamesDiffer();
    assert i == 5;
  }

  lemma DraftedHaveNoOutput(text: string, nodes: seq<Node>)
    requires BuiltFrom(nodes, ShotPreviewWorkflow(text).nodes)
    ensures forall n <- nodes :: n.output.None?
  {
    forall n <- nodes ensures n.output.None? {
      var i :| 0 <= i < |nodes| && nodes[i] == n;
      assert nodes[i] == NodeOf(ShotPreviewWorkflow(text).nodes[i], nodes[i].input);
    }
  }

  // ---------------------------------------------------------------- tools take what they are given

  /** The arguments a production tool decodes; any other member makes it refuse the call. */
  function Arguments(tool: string): set<string> {
    if tool == "blender.render.submit" then {"project_path", "output_path", "frame_start", "frame_end"}
    else if tool == "ffmpeg.encode" then {"input_path", "output_path", "fps", "codec"}
    else if tool == "ffprobe.inspect" then {"path"}
    else {}
  }

  lemma ToolNamesDiffer()
    ensures "blender.render.submit" != "ffmpeg.encode" && "blender.render.submit" != "ffprobe.inspect"
    ensures "ffmpeg.encode" != "ffprobe.inspect"
  {
    assert "blender.render.submit"[0] != "ffmpeg.encode"[0] && "blender.render.submit"[0] != "ffprobe.inspect"[0];
    assert "ffmpeg.encode"[2] != "ffprobe.inspect"[2];
  }

  lemma ToolTargets(text: string, i: nat)
    requires i < |ShotPreviewWorkflow(text).nodes| && ShotPreviewWorkflow(text).nodes[i].invocation.kind == TOOL
    ensures var spec := ShotPreviewWorkflow(text).nodes[i];
      || ((spec.id == PREVIEW_RENDER || spec.id == FINAL_RENDER) && spec.invocation.target == "blender.render.submit")
      || (spec.id == ENCODE && spec.invocation.target == "ffmpeg.encode")
      || (spec.id == VERIFY && spec.invocation.target == "ffprobe.inspect")
  {
    KindsDiffer();
  }

  lemma RenderArguments(codec: Codec, r: Request)
    requires (r.nodeID == PREVIEW_RENDER || r.nodeID == FINAL_RENDER) && ToolInput(codec, r).Ok?
    ensures ToolInput(codec, r).value.Built?
    ensures ToolInput(codec, r).value.value.Keys == {"project_path", "output_path", "frame_start", "frame_end"}
  {
    RenderInput(codec, r);
    var file :| SaysText(codec, r, ASSEMBLE_SCENE, "blend_file", file);
  }

  lemma VerifyArguments(codec: Codec, r: Request)
    requires r.nodeID == VERIFY && ToolInput(codec, r).Ok?
    ensures ToolInput(codec, r).value.Built? && ToolInput(codec, r).value.value.Keys == {"path"}
  {
    VerifyInput(codec, r);
    var path :| SaysText(codec, r, ENCODE, "output_path", path);
    assert IsObject1(ToolInput(codec, r), "path", Str(path));
  }

  lemma ArgumentsByName()
    ensures Arguments("blender.render.submit") == {"project_path", "output_path", "frame_start", "frame_end"}
    ensures Arguments("ffmpeg.encode") == {"input_path", "output_path", "fps", "codec"}
    ensures Arguments("ffprobe.inspect") == {"path"}
  {
    ToolNamesDiffer();
  }

  /** Every tool of the workflow is handed exactly the arguments it decodes, no more and no fewer. */
  lemma ToolsGetTheirArguments(codec: Codec, spec: NodeSpec, text: string, i: nat, r: Request)
    requires i < |ShotPreviewWorkflow(text).nodes| && spec == ShotPreviewWorkflow(text).nodes[i]
    requires spec.invocation.kind == TOOL && r.nodeID == spec.id && ToolInput(codec, r).Ok?
    ensures ToolInput(codec, r).value.Built?
    ensures ToolInput(codec, r).value.value.Keys == Arguments(spec.invocation.target)
  {
    ToolTargets(text, i);
    ArgumentsByName();
    if r.nodeID == PREVIEW_RENDER || r.nodeID == FINAL_RENDER {
      RenderArguments(codec, r);
      ToolIdsDiffer();
    } else if r.nodeID == ENCODE {
      EncodeInput(codec, r);
      ToolIdsDiffer();
    } else {
      VerifyArguments(codec, r);
    }
  }

  lemma ToolIdsDiffer()
    ensures PREVIEW_RENDER != ENCODE && FINAL_RENDER != ENCODE && VERIFY != ENCODE
    ensures PREVIEW_RENDER != VERIFY && FINAL_RENDER != VERIFY
  {
    PositionsOfNames();
  }
}
