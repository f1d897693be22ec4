/** The project record: everything the orchestrator persists about one project, its
    dictionary form, and the PROJECT STATUS summary. */
module Project {
  import opened Wrappers
  import opened Text
  import opened Values
  import opened Models
  import opened Vision

  datatype Project = Project(
    projectId: string,
    projectName: string,
    createdAt: string,
    vision: VisionContract,
    architectureTemplate: string,
    subsystemSpecs: seq<(string, string)>,
    currentTier: int,
    currentPhase: string,
    taskQueue: seq<Task>,
    activeTasks: seq<(string, Task)>,
    completedTasks: seq<Task>,
    gates: seq<Gate>,
    pendingGate: Option<Gate>,
    artifacts: seq<(string, Artifact)>,
    decisionLog: seq<Decision>,
    reviewLog: seq<ReviewResult>,
    blockedOn: seq<string>,
    health: Health,
    architectSessionId: string)

  /** The dictionaries of a project hold no repeated keys. */
  predicate WellKeyed(p: Project) {
    DistinctKeys(p.subsystemSpecs) && DistinctKeys(p.activeTasks) && DistinctKeys(p.artifacts) &&
    DistinctKeys(p.vision.feel) && DistinctKeys(p.vision.timeModel)
  }

  /** `ProjectState(project_id=id, project_name=name, created_at=createdAt)`. An empty id or
      creation time is replaced by `freshId` (`generate_id()`) or `now` (the current time). */
  function NewProject(id: string, name: string, createdAt: string, freshId: string, now: string): (p: Project)
    ensures p.projectId == (if id != "" then id else freshId)
    ensures p.createdAt == (if createdAt != "" then createdAt else now)
    ensures p.taskQueue == [] && p.activeTasks == [] && p.completedTasks == []
    ensures p.gates == [] && p.blockedOn == [] && p.pendingGate == None
    ensures p.currentTier == 0 && p.currentPhase == Phase.VisionIntake.Value()
    ensures WellKeyed(p)
  {
    Project(if id != "" then id else freshId, name, if createdAt != "" then createdAt else now,
            EmptyVision(""), "", [], 0, Phase.VisionIntake.Value(), [], [], [], [], None, [], [], [], [],
            Health(0, 0, 0, 0), "")
  }

  // ---------------------------------------------------------------------------
  // Dictionary form
  // ---------------------------------------------------------------------------

  const ProjectKeys: seq<string> := [
    "project_id", "project_name", "created_at", "vision_contract", "architecture_template",
    "subsystem_specs", "current_tier", "current_phase", "task_queue", "active_tasks",
    "completed_tasks", "gates", "pending_gate", "artifacts", "decision_log", "review_log",
    "blocked_on", "health", "architect_session_id"]

  /** The value stored under `ProjectKeys[i]`. */
  function ProjectField(p: Project, i: nat): Value
    requires i < |ProjectKeys|
  {
    match i
    case 0 => Str(p.projectId)
    case 1 => Str(p.projectName)
    case 2 => Str(p.createdAt)
    case 3 => VisionToDict(p.vision)
    case 4 => Str(p.architectureTemplate)
    case 5 => EncodeStrMap(p.subsystemSpecs)
    case 6 => Int(p.currentTier)
    case 7 => Str(p.currentPhase)
    case 8 => EncodeList(p.taskQueue, TaskToDict)
    case 9 => EncodeAssoc(p.activeTasks, TaskToDict)
    case 10 => EncodeList(p.completedTasks, TaskToDict)
    case 11 => EncodeList(p.gates, GateToDict)
    case 12 => if p.pendingGate.Some? then GateToDict(p.pendingGate.value) else Null
    case 13 => EncodeAssoc(p.artifacts, ArtifactToDict)
    case 14 => EncodeList(p.decisionLog, DecisionToDict)
    case 15 => EncodeList(p.reviewLog, ReviewResultToDict)
    case 16 => StrList(p.blockedOn)
    case 17 => HealthToDict(p.health)
    case _ => Str(p.architectSessionId)
  }

  function ProjectFieldValues(p: Project): (v: seq<Value>)
    ensures |v| == |ProjectKeys|
    ensures forall i :: 0 <= i < |ProjectKeys| ==> v[i] == ProjectField(p, i)
  {
    seq(|ProjectKeys|, i requires 0 <= i < |ProjectKeys| => ProjectField(p, i))
  }

  /** `ProjectState.to_dict()` */
  function ProjectToDict(p: Project): Value {
    Record(ProjectKeys, ProjectFieldValues(p))
  }

  /** A stored value, or Null when the key is missing. */
  function ValueOrNull(o: Option<Value>): Value {
    if o.Some? then o.value else Null
  }

  function ProjectFromFields(f: seq<Option<Value>>, freshId: string, now: string): Project
    requires |f| == |ProjectKeys|
  {
    var id := AsStr(f[0], "");
    var created := AsStr(f[2], "");
    var pending := ValueOrNull(f[12]);
    var health := ValueOrNull(f[17]);
    Project(
      if id != "" then id else freshId,
      AsStr(f[1], ""),
      if created != "" then created else now,
      VisionFromDict(ValueOrNull(f[3])),
      AsStr(f[4], ""),
      DecodeStrMap(ValueOrNull(f[5])),
      AsInt(f[6], 0),
      AsStr(f[7], Phase.VisionIntake.Value()),
      DecodeList(ValueOrNull(f[8]), TaskFromDict),
      DecodeAssoc(ValueOrNull(f[9]), TaskFromDict),
      DecodeList(ValueOrNull(f[10]), TaskFromDict),
      DecodeList(ValueOrNull(f[11]), GateFromDict),
      if Truthy(pending) then Some(GateFromDict(pending)) else None,
      DecodeAssoc(ValueOrNull(f[13]), ArtifactFromDict),
      DecodeList(ValueOrNull(f[14]), DecisionFromDict),
      DecodeList(ValueOrNull(f[15]), ReviewResultFromDict),
      AsStrListOpt(f[16]),
      if Truthy(health) then HealthFromDict(health) else Health(0, 0, 0, 0),
      AsStr(f[18], ""))
  }

  /** `ProjectState.from_dict(data)`; `freshId` and `now` stand in for `generate_id()` and the
      clock, which the constructor consults when the id or creation time is empty. */
  function ProjectFromDict(d: Value, freshId: string, now: string): Project {
    ProjectFromFields(Lookup(d, ProjectKeys), freshId, now)
  }

  /** Reading an empty dictionary gives a fresh project. */
  lemma ProjectFromEmptyDict(freshId: string, now: string)
    ensures ProjectFromDict(Dict([], map[]), freshId, now) == NewProject("", "", "", freshId, now)
  {
    var f := Lookup(Dict([], map[]), ProjectKeys);
    assert forall i :: 0 <= i < |f| ==> f[i] == None;
    VisionFromEmptyDict();
    ProjectFromNoFields(f, freshId, now);
  }

  lemma ProjectFromNoFields(f: seq<Option<Value>>, freshId: string, now: string)
    requires |f| == |ProjectKeys| && forall i :: 0 <= i < |f| ==> f[i] == None
    requires VisionFromDict(Null) == EmptyVision("")
    ensures ProjectFromFields(f, freshId, now) == NewProject("", "", "", freshId, now)
  {
  }

  lemma ProjectLookup(p: Project)
    ensures Lookup(ProjectToDict(p), ProjectKeys) == Somes(ProjectFieldValues(p))
  {
    ProjectKeysDistinct();
    LookupRecord(ProjectKeys, ProjectFieldValues(p));
  }

  lemma ProjectKeysDistinct()
    ensures DistinctStrings(ProjectKeys)
  {
    DistinctBySignature(ProjectKeys);
  }

  lemma TaskListRoundTrip(ts: seq<Task>)
    ensures DecodeList(EncodeList(ts, TaskToDict), TaskFromDict) == ts
  {
    forall t: Task ensures TaskFromDict(TaskToDict(t)) == t {
      TaskRoundTrip(t);
    }
    ListRoundTrip(ts, TaskToDict, TaskFromDict);
  }

  lemma TaskAssocRoundTrip(ts: seq<(string, Task)>)
    requires DistinctKeys(ts)
    ensures DecodeAssoc(EncodeAssoc(ts, TaskToDict), TaskFromDict) == ts
  {
    forall t: Task ensures TaskFromDict(TaskToDict(t)) == t {
      TaskRoundTrip(t);
    }
    AssocRoundTrip(ts, TaskToDict, TaskFromDict);
  }

  lemma GateListRoundTrip(gs: seq<Gate>)
    ensures DecodeList(EncodeList(gs, GateToDict), GateFromDict) == gs
  {
    forall g: Gate ensures GateFromDict(GateToDict(g)) == g {
      GateRoundTrip(g);
    }
    ListRoundTrip(gs, GateToDict, GateFromDict);
  }

  lemma ArtifactAssocRoundTrip(arts: seq<(string, Artifact)>)
    requires DistinctKeys(arts)
    ensures DecodeAssoc(EncodeAssoc(arts, ArtifactToDict), ArtifactFromDict) == arts
  {
    forall a: Artifact ensures ArtifactFromDict(ArtifactToDict(a)) == a {
      ArtifactRoundTrip(a);
    }
    AssocRoundTrip(arts, ArtifactToDict, ArtifactFromDict);
  }

  lemma LogRoundTrips(decisions: seq<Decision>, reviews: seq<ReviewResult>)
    ensures DecodeList(EncodeList(decisions, DecisionToDict), DecisionFromDict) == decisions
    ensures DecodeList(EncodeList(reviews, ReviewResultToDict), ReviewResultFromDict) == reviews
  {
    forall x: Decision ensures DecisionFromDict(DecisionToDict(x)) == x {
      DecisionRoundTrip(x);
    }
    ListRoundTrip(decisions, DecisionToDict, DecisionFromDict);
    forall r: ReviewResult ensures ReviewResultFromDict(ReviewResultToDict(r)) == r {
      ReviewResultRoundTrip(r);
    }
    ListRoundTrip(reviews, ReviewResultToDict, ReviewResultFromDict);
  }

  /** The stored fields of `p`, one by one: the header fields, */
  predicate StoredHeader(f: seq<Option<Value>>, p: Project) {
    |f| == |ProjectKeys| &&
    f[0] == Some(Str(p.projectId)) && f[1] == Some(Str(p.projectName)) &&
    f[2] == Some(Str(p.createdAt)) && f[3] == Some(VisionToDict(p.vision)) &&
    f[4] == Some(Str(p.architectureTemplate)) && f[5] == Some(EncodeStrMap(p.subsystemSpecs))
  }

  /** the progress fields, */
  predicate StoredProgress(f: seq<Option<Value>>, p: Project) {
    |f| == |ProjectKeys| &&
    f[6] == Some(Int(p.currentTier)) && f[7] == Some(Str(p.currentPhase)) &&
    f[18] == Some(Str(p.architectSessionId))
  }

  /** the task and gate fields, */
  predicate StoredWork(f: seq<Option<Value>>, p: Project) {
    |f| == |ProjectKeys| &&
    f[8] == Some(EncodeList(p.taskQueue, TaskToDict)) &&
    f[9] == Some(EncodeAssoc(p.activeTasks, TaskToDict)) &&
    f[10] == Some(EncodeList(p.completedTasks, TaskToDict)) &&
    f[11] == Some(EncodeList(p.gates, GateToDict)) &&
    f[12] == Some(if p.pendingGate.Some? then GateToDict(p.pendingGate.value) else Null)
  }

  /** and the record-keeping fields. */
  predicate StoredRecords(f: seq<Option<Value>>, p: Project) {
    |f| == |ProjectKeys| &&
    f[13] == Some(EncodeAssoc(p.artifacts, ArtifactToDict)) &&
    f[14] == Some(EncodeList(p.decisionLog, DecisionToDict)) &&
    f[15] == Some(EncodeList(p.reviewLog, ReviewResultToDict)) &&
    f[16] == Some(StrList(p.blockedOn)) && f[17] == Some(HealthToDict(p.health))
  }

  lemma StoredHeaderValues(p: Project)
    ensures StoredHeader(Somes(ProjectFieldValues(p)), p)
  {
  }

  lemma StoredProgressValues(p: Project)
    ensures StoredProgress(Somes(ProjectFieldValues(p)), p)
  {
  }

  lemma StoredWorkValues(p: Project)
    ensures StoredWork(Somes(ProjectFieldValues(p)), p)
  {
    StoredTaskValues(p);
    StoredGateValues(p);
  }

  lemma StoredTaskValues(p: Project)
    ensures var f := Somes(ProjectFieldValues(p));
      f[8] == Some(EncodeList(p.taskQueue, TaskToDict)) &&
      f[9] == Some(EncodeAssoc(p.activeTasks, TaskToDict)) &&
      f[10] == Some(EncodeList(p.completedTasks, TaskToDict))
  {
  }

  lemma StoredGateValues(p: Project)
    ensures var f := Somes(ProjectFieldValues(p));
      f[11] == Some(EncodeList(p.gates, GateToDict)) &&
      f[12] == Some(if p.pendingGate.Some? then GateToDict(p.pendingGate.value) else Null)
  {
  }

  lemma StoredRecordsValues(p: Project)
    ensures StoredRecords(Somes(ProjectFieldValues(p)), p)
  {
    StoredLogValues(p);
    StoredStatusValues(p);
  }

  lemma StoredLogValues(p: Project)
    ensures var f := Somes(ProjectFieldValues(p));
      f[13] == Some(EncodeAssoc(p.artifacts, ArtifactToDict)) &&
      f[14] == Some(EncodeList(p.decisionLog, DecisionToDict)) &&
      f[15] == Some(EncodeList(p.reviewLog, ReviewResultToDict))
  {
  }

  lemma StoredStatusValues(p: Project)
    ensures var f := Somes(ProjectFieldValues(p));
      f[16] == Some(StrList(p.blockedOn)) && f[17] == Some(HealthToDict(p.health))
  {
  }

  lemma ProjectHeaderRoundTrip(f: seq<Option<Value>>, p: Project, freshId: string, now: string)
    requires StoredHeader(f, p) && StoredProgress(f, p) && WellKeyed(p) && p.projectId != "" && p.createdAt != ""
    ensures var q := ProjectFromFields(f, freshId, now);
      q.projectId == p.projectId && q.projectName == p.projectName && q.createdAt == p.createdAt &&
      q.vision == p.vision && q.architectureTemplate == p.architectureTemplate &&
      q.subsystemSpecs == p.subsystemSpecs && q.currentTier == p.currentTier &&
      q.currentPhase == p.currentPhase && q.architectSessionId == p.architectSessionId
  {
    ProjectScalarsRoundTrip(f, p, freshId, now);
    ProjectNestedRoundTrip(f, p, freshId, now);
  }

  lemma ProjectScalarsRoundTrip(f: seq<Option<Value>>, p: Project, freshId: string, now: string)
    requires StoredHeader(f, p) && StoredProgress(f, p) && p.projectId != "" && p.createdAt != ""
    ensures var q := ProjectFromFields(f, freshId, now);
      q.projectId == p.projectId && q.projectName == p.projectName && q.createdAt == p.createdAt &&
      q.architectureTemplate == p.architectureTemplate && q.currentTier == p.currentTier &&
      q.currentPhase == p.currentPhase && q.architectSessionId == p.architectSessionId
  {
  }

  lemma ProjectNestedRoundTrip(f: seq<Option<Value>>, p: Project, freshId: string, now: string)
    requires StoredHeader(f, p) && WellKeyed(p)
    ensures var q := ProjectFromFields(f, freshId, now);
      q.vision == p.vision && q.subsystemSpecs == p.subsystemSpecs
  {
    VisionRoundTrip(p.vision);
    StrMapRoundTrip(p.subsystemSpecs);
  }

  lemma ProjectWorkRoundTrip(f: seq<Option<Value>>, p: Project, freshId: string, now: string)
    requires StoredWork(f, p) && WellKeyed(p)
    ensures var q := ProjectFromFields(f, freshId, now);
      q.taskQueue == p.taskQueue && q.activeTasks == p.activeTasks &&
      q.completedTasks == p.completedTasks && q.gates == p.gates && q.pendingGate == p.pendingGate
  {
    TaskListRoundTrip(p.taskQueue);
    TaskAssocRoundTrip(p.activeTasks);
    TaskListRoundTrip(p.completedTasks);
    GateListRoundTrip(p.gates);
    if p.pendingGate.Some? {
      GateRoundTrip(p.pendingGate.value);
      assert GateToDict(p.pendingGate.value).keys == GateKeys != [];
      assert Truthy(ValueOrNull(f[12]));
    } else {
      assert ValueOrNull(f[12]) == Null;
    }
  }

  lemma ProjectRecordsRoundTrip(f: seq<Option<Value>>, p: Project, freshId: string, now: string)
    requires StoredRecords(f, p) && WellKeyed(p)
    ensures var q := ProjectFromFields(f, freshId, now);
      q.artifacts == p.artifacts && q.decisionLog == p.decisionLog && q.reviewLog == p.reviewLog &&
      q.blockedOn == p.blockedOn && q.health == p.health
  {
    ArtifactAssocRoundTrip(p.artifacts);
    LogRoundTrips(p.decisionLog, p.reviewLog);
    HealthRoundTrip(p.health);
    assert HealthToDict(p.health).keys == HealthKeys != [];
    assert ValueOrNull(f[17]) == HealthToDict(p.health);
    assert Truthy(HealthToDict(p.health));
  }

  lemma ProjectFieldsRoundTrip(p: Project, freshId: string, now: string)
    requires WellKeyed(p) && p.projectId != "" && p.createdAt != ""
    ensures ProjectFromFields(Somes(ProjectFieldValues(p)), freshId, now) == p
  {
    var f := Somes(ProjectFieldValues(p));
    StoredHeaderValues(p);
    StoredProgressValues(p);
    StoredWorkValues(p);
    StoredRecordsValues(p);
    ProjectHeaderRoundTrip(f, p, freshId, now);
    ProjectWorkRoundTrip(f, p, freshId, now);
    ProjectRecordsRoundTrip(f, p, freshId, now);
  }

  /** `ProjectState.from_dict(p.to_dict())` is `p` again, whenever `p` has an id and a creation
      time (otherwise fresh ones are drawn) and its dictionaries have no repeated keys. */
  lemma ProjectRoundTrip(p: Project, freshId: string, now: string)
    requires WellKeyed(p) && p.projectId != "" && p.createdAt != ""
    ensures ProjectFromDict(ProjectToDict(p), freshId, now) == p
  {
    ProjectLookup(p);
    ProjectFieldsRoundTrip(p, freshId, now);
  }

  lemma ProjectFromDictIgnoresUnknownKeys(d1: Value, d2: Value, freshId: string, now: string)
    requires AgreeOn(d1, d2, set k | k in ProjectKeys)
    ensures ProjectFromDict(d1, freshId, now) == ProjectFromDict(d2, freshId, now)
  {
    LookupAgree(d1, d2, ProjectKeys);
  }

  // ---------------------------------------------------------------------------
  // Status summary
  // ---------------------------------------------------------------------------

  /** The gates whose status is "pending", in order. */
  function PendingGates(gates: seq<Gate>): (r: seq<Gate>)
    ensures |r| <= |gates|
    ensures forall g :: g in r <==> g in gates && g.status == PENDING
    decreases |gates|
  {
    if |gates| == 0 then []
    else
      var rest := PendingGates(gates[1..]);
      assert forall g :: g in gates <==> g == gates[0] || g in gates[1..];
      (if gates[0].status == PENDING then [gates[0]] else []) + rest
  }

  /** How many gates are pending. */
  function CountPending(gates: seq<Gate>): (n: nat)
    ensures n <= |gates|
    decreases |gates|
  {
    if |gates| == 0 then 0 else (if gates[0].status == PENDING then 1 else 0) + CountPending(gates[1..])
  }

  lemma {:induction false} PendingGatesCount(gates: seq<Gate>)
    ensures |PendingGates(gates)| == CountPending(gates)
    decreases |gates|
  {
    if |gates| > 0 {
      PendingGatesCount(gates[1..]);
    }
  }

  function GateLine(g: Gate): string {
    "[" + g.gateId + "] " + g.gateType + ": " + g.summary
  }

  function GateLines(gates: seq<Gate>): (r: seq<string>)
    ensures |r| == |gates|
    ensures forall i :: 0 <= i < |gates| ==> r[i] == GateLine(gates[i])
  {
    seq(|gates|, i requires 0 <= i < |gates| => GateLine(gates[i]))
  }

  const NoneLine: string := "  (none)"
  const PendingHeading: string := "Pending Gates:"

  function Bullet(item: string): string {
    "  - " + item
  }

  /** The body of one section: a bullet line per item, or `NoneLine`. */
  function Bulleted(items: seq<string>): (r: seq<string>)
    ensures items == [] ==> r == [NoneLine]
    ensures items != [] ==> |r| == |items| && forall i :: 0 <= i < |items| ==> r[i] == Bullet(items[i])
  {
    if items == [] then [NoneLine] else seq(|items|, i requires 0 <= i < |items| => Bullet(items[i]))
  }

  function HealthLine(h: Health): string {
    "Health: " + IntToString(h.completedTasks) + "/" + IntToString(h.totalTasks) + " tasks complete"
  }

  function TaskNames(ts: seq<Task>): (r: seq<string>)
    ensures |r| == |ts| && forall i :: 0 <= i < |ts| ==> r[i] == ts[i].taskName
  {
    seq(|ts|, i requires 0 <= i < |ts| => ts[i].taskName)
  }

  /** The names of the tasks in progress: the task names of `active_tasks`' values. */
  function ActiveNames(active: seq<(string, Task)>): (r: seq<string>)
    ensures |r| == |active| && forall i :: 0 <= i < |active| ==> r[i] == active[i].1.taskName
  {
    seq(|active|, i requires 0 <= i < |active| => active[i].1.taskName)
  }

  /** The last lines of the summary: the pending gates and the health line. */
  function PendingAndHealth(p: Project): seq<string> {
    [PendingHeading] + Bulleted(GateLines(PendingGates(p.gates))) + ["", HealthLine(p.health)]
  }

  /** The summary's lines, given the names listed under "In Progress:". */
  function StatusLines(p: Project, inProgress: seq<string>): seq<string> {
    StatusHead(p, inProgress) + PendingAndHealth(p)
  }

  /** The summary's lines up to the "Pending Gates:" section. */
  function StatusHead(p: Project, inProgress: seq<string>): seq<string> {
    ["PROJECT STATUS",
     "==============",
     "Project:        " + p.projectName + " (" + p.projectId + ")",
     "Current Tier:   " + IntToString(p.currentTier) + " of 7",
     "Active Phase:   " + p.currentPhase,
     "",
     "Completed:"] + Bulleted(TaskNames(p.completedTasks)) +
    ["", "In Progress:"] + Bulleted(inProgress) +
    ["", "Blocked:"] + Bulleted(p.blockedOn) +
    [""]
  }

  /** `status_summary()` as written: the in-progress list is built by unpacking
      `active_tasks.items()` as `(t, _)` and reading `t.task_name`, but `t` is the dictionary key,
      a string, so any active task raises AttributeError. */
  function StatusSummaryAsWritten(p: Project): (r: Result<string, string>)
    ensures r.Failure? <==> p.activeTasks != []
  {
    if p.activeTasks != [] then Failure("AttributeError: 'str' object has no attribute 'task_name'")
    else Success(Join(StatusLines(p, []), "\n"))
  }

  /** A project with one active task makes the summary as written fail. */
  lemma StatusSummaryAsWrittenFails(p: Project, key: string, t: Task)
    requires p.activeTasks == [(key, t)]
    ensures StatusSummaryAsWritten(p).Failure?
  {
  }

  /** `status_summary()` with the in-progress names taken from the active tasks themselves. */
  function StatusSummary(p: Project): string {
    Join(StatusLines(p, ActiveNames(p.activeTasks)), "\n")
  }

  /** Where no task is active the corrected summary is exactly the summary as written. */
  lemma StatusSummaryAgrees(p: Project)
    requires p.activeTasks == []
    ensures StatusSummaryAsWritten(p) == Success(StatusSummary(p))
  {
    assert ActiveNames(p.activeTasks) == [];
  }

  /** The corrected summary's "In Progress:" section has one bullet per active task, naming it,
      in order, or `NoneLine` when no task is active. */
  lemma InProgressListsActiveTasks(p: Project)
    ensures var h := StatusHead(p, ActiveNames(p.activeTasks));
      var c := |Bulleted(TaskNames(p.completedTasks))|;
      h[8 + c] == "In Progress:" &&
      (p.activeTasks == [] ==> h[9 + c] == NoneLine) &&
      (forall i :: 0 <= i < |p.activeTasks| ==> h[9 + c + i] == Bullet(p.activeTasks[i].1.taskName))
  {
    var names := ActiveNames(p.activeTasks);
    var front := ["PROJECT STATUS", "==============",
                  "Project:        " + p.projectName + " (" + p.projectId + ")",
                  "Current Tier:   " + IntToString(p.currentTier) + " of 7",
                  "Active Phase:   " + p.currentPhase, "", "Completed:"];
    var done := Bulleted(TaskNames(p.completedTasks));
    var b := Bulleted(names);
    var h := StatusHead(p, names);
    assert h == front + done + ["", "In Progress:"] + b + (["", "Blocked:"] + Bulleted(p.blockedOn) + [""]);
    forall i | 0 <= i < |b| ensures h[9 + |done| + i] == b[i] {
    }
  }

  /** The closing "Pending Gates:" section lists one bullet per pending gate, in order, or
      `NoneLine` when no gate is pending; the health line follows a blank line. */
  lemma PendingSectionListsPendingGates(p: Project)
    ensures var t := PendingAndHealth(p);
      var pend := PendingGates(p.gates);
      t[0] == PendingHeading && t[|t| - 1] == HealthLine(p.health) &&
      (pend == [] ==> t == [PendingHeading, NoneLine, "", HealthLine(p.health)]) &&
      (pend != [] ==> |t| == |pend| + 3 && forall i :: 0 <= i < |pend| ==> t[1 + i] == Bullet(GateLine(pend[i])))
  {
    var pend := PendingGates(p.gates);
    BulletedGateLines(pend);
    Framed(PendingHeading, Bulleted(GateLines(pend)), HealthLine(p.health));
  }

  /** The bullets of a gate list: "(none)" alone, or one bullet per gate. */
  lemma BulletedGateLines(gates: seq<Gate>)
    ensures var b := Bulleted(GateLines(gates));
      (gates == [] ==> b == [NoneLine]) &&
      (gates != [] ==> |b| == |gates| && forall i :: 0 <= i < |gates| ==> b[i] == Bullet(GateLine(gates[i])))
  {
  }

  /** A list between a heading and a blank line with a closing line. */
  lemma Framed(head: string, b: seq<string>, last: string)
    ensures var t := [head] + b + ["", last];
      |t| == |b| + 3 && t[0] == head && t[|t| - 1] == last &&
      forall i :: 0 <= i < |b| ==> t[1 + i] == b[i]
  {
  }


}
