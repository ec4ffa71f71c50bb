/**
 * The Agent2Agent (A2A) protocol types of the Python agents: the agent card with
 * its skills and capabilities, the task status enumeration, and the task request
 * and response records, each with the defaults its pydantic model declares.
 */
module A2AModels {
  import opened Wrappers
  import opened Json

  datatype AgentCapabilities = AgentCapabilities(streaming: bool, pushNotifications: bool)

  datatype AgentSkill = AgentSkill(
    id: string,
    name: string,
    description: string,
    examples: seq<string>,
    tags: seq<string>)

  datatype AgentCard = AgentCard(
    name: string,
    description: string,
    url: string,
    version: string,
    protocolVersion: string,
    defaultInputModes: seq<string>,
    defaultOutputModes: seq<string>,
    capabilities: AgentCapabilities,
    skills: seq<AgentSkill>)

  /** `AgentCapabilities()`: streaming on, push notifications off. */
  function NewCapabilities(): (c: AgentCapabilities)
    ensures c.streaming && !c.pushNotifications
  {
    AgentCapabilities(true, false)
  }

  /** `AgentSkill(id=…, name=…, description=…)`: no examples and no tags. */
  function NewSkill(id: string, name: string, description: string): (s: AgentSkill)
    ensures s.id == id && s.name == name && s.description == description
    ensures s.examples == [] && s.tags == []
  {
    AgentSkill(id, name, description, [], [])
  }

  /**
   * `AgentCard(name=…, description=…, url=…, version=…)`: protocol version "1.0",
   * text in and text out, default capabilities and no skills.
   */
  function NewCard(name: string, description: string, url: string, version: string): (c: AgentCard)
    ensures c.name == name && c.description == description && c.url == url && c.version == version
    ensures c.protocolVersion == "1.0"
    ensures c.defaultInputModes == ["text"] && c.defaultOutputModes == ["text"]
    ensures c.capabilities.streaming && !c.capabilities.pushNotifications
    ensures c.skills == []
  {
    AgentCard(name, description, url, version, "1.0", ["text"], ["text"], NewCapabilities(), [])
  }

  /** `A2ATaskStatus`, a string enumeration. */
  datatype TaskStatus = Pending | Running | Completed | Failed | Cancelled {
    /** The member's string value. */
    function Value(): string {
      match this
      case Pending => "pending"
      case Running => "running"
      case Completed => "completed"
      case Failed => "failed"
      case Cancelled => "cancelled"
    }
  }

  /** `A2ATaskStatus(s)`: the member whose value is `s`, if there is one. */
  function ParseStatus(s: string): Option<TaskStatus> {
    if s == "pending" then Some(Pending)
    else if s == "running" then Some(Running)
    else if s == "completed" then Some(Completed)
    else if s == "failed" then Some(Failed)
    else if s == "cancelled" then Some(Cancelled)
    else None
  }

  const AllStatuses: seq<TaskStatus> := [Pending, Running, Completed, Failed, Cancelled]

  /**
   * The enumeration has exactly the five members listed, with five distinct values,
   * and a value names its member.
   */
  lemma StatusEnumeration(st: TaskStatus, s: string)
    ensures st in AllStatuses
    ensures forall i, j :: 0 <= i < j < |AllStatuses| ==> AllStatuses[i].Value() != AllStatuses[j].Value()
    ensures ParseStatus(st.Value()) == Some(st)
    ensures ParseStatus(s).Some? <==> s in {"pending", "running", "completed", "failed", "cancelled"}
    ensures ParseStatus(s).Some? ==> ParseStatus(s).value.Value() == s
  {
  }

  /** `A2ATaskRequest`: `parameters` and `metadata` are optional. */
  datatype TaskRequest = TaskRequest(
    id: string,
    agentId: string,
    taskType: string,
    inputData: Dict,
    parameters: Option<Dict>,
    metadata: Option<Dict>)

  /** `A2ATaskRequest(id=…, agentId=…, taskType=…, inputData=…)` */
  function NewTaskRequest(id: string, agentId: string, taskType: string, inputData: Dict): (r: TaskRequest)
    ensures r.id == id && r.agentId == agentId && r.taskType == taskType && r.inputData == inputData
    ensures r.parameters == None && r.metadata == None
  {
    TaskRequest(id, agentId, taskType, inputData, None, None)
  }

  /** `A2ATaskResponse`: `result` (any value, `JNull` for None), `error` and `metadata` are optional. */
  datatype TaskResponse = TaskResponse(
    id: string,
    status: TaskStatus,
    result: Json,
    error: Option<string>,
    metadata: Option<Dict>)

  /** `A2ATaskResponse(id=…, status=…)` */
  function NewTaskResponse(id: string, status: TaskStatus): (r: TaskResponse)
    ensures r.id == id && r.status == status
    ensures r.result == JNull && r.error == None && r.metadata == None
  {
    TaskResponse(id, status, JNull, None, None)
  }

  predicate IsStrField(data: Dict, key: string) {
    key in data && data[key].JStr?
  }

  predicate IsDictField(data: Dict, key: string) {
    key in data && data[key].JObject?
  }

  predicate IsOptionalDictField(data: Dict, key: string) {
    key !in data || data[key].JNull? || data[key].JObject?
  }

  /**
   * The locations pydantic reports when it validates `A2ATaskRequest(**data)`:
   * every required field that is missing or has the wrong type, under its alias,
   * in declaration order. Unknown keys are ignored.
   */
  function RequestErrors(data: Dict): seq<string> {
    (if IsStrField(data, "id") then [] else ["id"])
    + (if IsStrField(data, "agentId") then [] else ["agentId"])
    + (if IsStrField(data, "taskType") then [] else ["taskType"])
    + (if IsDictField(data, "inputData") then [] else ["inputData"])
    + (if IsOptionalDictField(data, "parameters") then [] else ["parameters"])
    + (if IsOptionalDictField(data, "metadata") then [] else ["metadata"])
  }

  function OptionalDict(data: Dict, key: string): Option<Dict>
    requires IsOptionalDictField(data, key)
  {
    if key in data && data[key].JObject? then Some(data[key].fields) else None
  }

  /** `A2ATaskRequest(**data)`: the request, or the failing field locations. */
  function ParseTaskRequest(data: Dict): Result<TaskRequest, seq<string>> {
    if RequestErrors(data) != [] then Err(RequestErrors(data))
    else
      Ok(TaskRequest(
        data["id"].s, data["agentId"].s, data["taskType"].s, data["inputData"].fields,
        OptionalDict(data, "parameters"), OptionalDict(data, "metadata")))
  }

  /** The request as a dictionary under its aliases (`model_dump(by_alias=True)`). */
  function DumpTaskRequest(r: TaskRequest): Dict {
    map[
      "id" := JStr(r.id),
      "agentId" := JStr(r.agentId),
      "taskType" := JStr(r.taskType),
      "inputData" := JObject(r.inputData),
      "parameters" := OptionDict(r.parameters),
      "metadata" := OptionDict(r.metadata)]
  }

  /** Validation accepts every dumped request and gives it back unchanged. */
  lemma TaskRequestRoundTrip(r: TaskRequest)
    ensures ParseTaskRequest(DumpTaskRequest(r)) == Ok(r)
  {
  }

  /** Validation fails exactly when a required field is missing, and names it. */
  lemma TaskRequestRequiredFields(data: Dict, key: string)
    requires key in {"id", "agentId", "taskType", "inputData"}
    requires key !in data
    ensures ParseTaskRequest(data).Err?
    ensures key in ParseTaskRequest(data).error
  {
  }

  /** The response as `model_dump(by_alias=True)` gives it, the status by its value. */
  function DumpTaskResponse(r: TaskResponse): Json {
    JObject(map[
      "id" := JStr(r.id),
      "status" := JStr(r.status.Value()),
      "result" := r.result,
      "error" := OptionStr(r.error),
      "metadata" := OptionDict(r.metadata)])
  }

  /** Reads a dumped response back. */
  function LoadTaskResponse(v: Json): Option<TaskResponse> {
    if !v.JObject? then None
    else
      var d := v.fields;
      if !(IsStrField(d, "id") && IsStrField(d, "status") && "result" in d
           && "error" in d && (d["error"].JNull? || d["error"].JStr?)
           && IsOptionalDictField(d, "metadata"))
      then None
      else
        match ParseStatus(d["status"].s)
        case None => None
        case Some(st) =>
          Some(TaskResponse(
            d["id"].s, st, d["result"],
            if d["error"].JStr? then Some(d["error"].s) else None,
            OptionalDict(d, "metadata")))
  }

  /** Dumping a response loses nothing. */
  lemma TaskResponseRoundTrip(r: TaskResponse)
    ensures LoadTaskResponse(DumpTaskResponse(r)) == Some(r)
  {
    StatusEnumeration(r.status, r.status.Value());
  }

  function SkillDocument(s: AgentSkill): Json {
    JObject(map[
      "id" := JStr(s.id),
      "name" := JStr(s.name),
      "description" := JStr(s.description),
      "examples" := StrList(s.examples),
      "tags" := StrList(s.tags)])
  }

  /**
   * The discovery document of a card, as the host agent's discovery handler builds it:
   * the card's fields under their aliases and one entry per skill, in order.
   */
  function DiscoveryDocument(c: AgentCard): Json {
    JObject(map[
      "name" := JStr(c.name),
      "description" := JStr(c.description),
      "url" := JStr(c.url),
      "version" := JStr(c.version),
      "protocolVersion" := JStr(c.protocolVersion),
      "defaultInputModes" := StrList(c.defaultInputModes),
      "defaultOutputModes" := StrList(c.defaultOutputModes),
      "capabilities" := JObject(map[
        "streaming" := JBool(c.capabilities.streaming),
        "pushNotifications" := JBool(c.capabilities.pushNotifications)]),
      "skills" := JList(SkillDocuments(c.skills))])
  }

  function SkillDocuments(skills: seq<AgentSkill>): seq<Json> {
    seq(|skills|, i requires 0 <= i < |skills| => SkillDocument(skills[i]))
  }

  function LoadSkill(v: Json): Option<AgentSkill> {
    if !v.JObject? then None
    else
      var d := v.fields;
      if !(IsStrField(d, "id") && IsStrField(d, "name") && IsStrField(d, "description")
           && "examples" in d && "tags" in d)
      then None
      else
        match (AsStrList(d["examples"]), AsStrList(d["tags"]))
        case (Some(ex), Some(tg)) => Some(AgentSkill(d["id"].s, d["name"].s, d["description"].s, ex, tg))
        case _ => None
  }

  function LoadSkills(items: seq<Json>): Option<seq<AgentSkill>>
    decreases |items|
  {
    if items == [] then Some([])
    else
      match (LoadSkill(items[0]), LoadSkills(items[1..]))
      case (Some(s), Some(rest)) => Some([s] + rest)
      case _ => None
  }

  function LoadCapabilities(v: Json): Option<AgentCapabilities> {
    if v.JObject? && "streaming" in v.fields && v.fields["streaming"].JBool?
       && "pushNotifications" in v.fields && v.fields["pushNotifications"].JBool?
    then Some(AgentCapabilities(v.fields["streaming"].b, v.fields["pushNotifications"].b))
    else None
  }

  function LoadSkillList(v: Json): Option<seq<AgentSkill>> {
    if v.JList? then LoadSkills(v.items) else None
  }

  /** Reads a card back from its discovery document. */
  function LoadCard(v: Json): Option<AgentCard> {
    if !v.JObject? then None
    else
      var d := v.fields;
      if !(IsStrField(d, "name") && IsStrField(d, "description") && IsStrField(d, "url")
           && IsStrField(d, "version") && IsStrField(d, "protocolVersion")
           && "defaultInputModes" in d && "defaultOutputModes" in d
           && "capabilities" in d && "skills" in d)
      then None
      else
        var ins := AsStrList(d["defaultInputModes"]);
        var outs := AsStrList(d["defaultOutputModes"]);
        var caps := LoadCapabilities(d["capabilities"]);
        var skills := LoadSkillList(d["skills"]);
        if ins.None? || outs.None? || caps.None? || skills.None? then None
        else
          Some(AgentCard(
            d["name"].s, d["description"].s, d["url"].s, d["version"].s, d["protocolVersion"].s,
            ins.value, outs.value, caps.value, skills.value))
  }

  lemma SkillRoundTrip(s: AgentSkill)
    ensures LoadSkill(SkillDocument(s)) == Some(s)
  {
    StrListRoundTrip(s.examples);
    StrListRoundTrip(s.tags);
  }

  lemma {:induction false} SkillsRoundTrip(skills: seq<AgentSkill>)
    ensures LoadSkills(SkillDocuments(skills)) == Some(skills)
    decreases |skills|
  {
    var docs := SkillDocuments(skills);
    if skills != [] {
      SkillRoundTrip(skills[0]);
      assert docs[1..] == SkillDocuments(skills[1..]);
      SkillsRoundTrip(skills[1..]);
      assert [skills[0]] + skills[1..] == skills;
    }
  }

  lemma LoadCardFromFields(c: AgentCard, d: Dict)
    requires "defaultInputModes" in d && "defaultOutputModes" in d && "capabilities" in d && "skills" in d
    requires LoadCapabilities(d["capabilities"]) == Some(c.capabilities)
    requires LoadSkillList(d["skills"]) == Some(c.skills)
    requires AsStrList(d["defaultInputModes"]) == Some(c.defaultInputModes)
    requires AsStrList(d["defaultOutputModes"]) == Some(c.defaultOutputModes)
    requires IsStrField(d, "name") && IsStrField(d, "description") && IsStrField(d, "url")
    requires IsStrField(d, "version") && IsStrField(d, "protocolVersion")
    requires d["name"].s == c.name && d["description"].s == c.description && d["url"].s == c.url
    requires d["version"].s == c.version && d["protocolVersion"].s == c.protocolVersion
    ensures LoadCard(JObject(d)) == Some(c)
  {
  }

  /**
   * The discovery document carries the whole card: every field, and the skills
   * in their order and number, can be read back from it.
   */
  lemma DiscoveryRoundTrip(c: AgentCard)
    ensures LoadCard(DiscoveryDocument(c)) == Some(c)
  {
    DiscoveryScalars(c);
    DiscoveryCollections(c);
    LoadCardFromFields(c, DiscoveryDocument(c).fields);
  }

  /** The string fields of the discovery document hold the card's strings. */
  lemma DiscoveryScalars(c: AgentCard)
    ensures var d := DiscoveryDocument(c).fields;
      && IsStrField(d, "name") && IsStrField(d, "description") && IsStrField(d, "url")
      && IsStrField(d, "version") && IsStrField(d, "protocolVersion")
      && d["name"].s == c.name && d["description"].s == c.description && d["url"].s == c.url
      && d["version"].s == c.version && d["protocolVersion"].s == c.protocolVersion
  {
  }

  /** The list and object fields of the discovery document read back as the card's. */
  lemma DiscoveryCollections(c: AgentCard)
    ensures var d := DiscoveryDocument(c).fields;
      && "defaultInputModes" in d && "defaultOutputModes" in d && "capabilities" in d && "skills" in d
      && AsStrList(d["defaultInputModes"]) == Some(c.defaultInputModes)
      && AsStrList(d["defaultOutputModes"]) == Some(c.defaultOutputModes)
      && LoadCapabilities(d["capabilities"]) == Some(c.capabilities)
      && LoadSkillList(d["skills"]) == Some(c.skills)
  {
    StrListRoundTrip(c.defaultInputModes);
    StrListRoundTrip(c.defaultOutputModes);
    SkillsRoundTrip(c.skills);
    var d := DiscoveryDocument(c).fields;
    assert LoadCapabilities(d["capabilities"]) == Some(c.capabilities);
  }
}
