/**
  The tool handlers whose decisions go beyond passing arguments through:
  project creation, listing and creating tasks by project name (two calls),
  task update, moving a task to another project, comment creation with a
  visibility check, assigning a user to a project with a role check, and
  saving task metadata.

  A handler receives its arguments already extracted by the protocol library
  (a required argument is None when it was missing or mistyped; an optional
  one already holds its default when absent) and returns the remote calls it
  made, in order, with the tool result. Results are relayed as JSON values;
  their pretty-printing is not modelled.
 */
module Handlers {
  import opened Common
  import Json
  import Decimal
  import Rpc
  import Lookup
  import Params
  import Validate

  /** The tool errors; `BadArgument` is a required argument that is missing or of the wrong type. */
  datatype ToolError =
    | BadArgument(argument: string)
    | LookupFailed(cause: Rpc.CallError)
    | ProjectNotFound(projectName: string, reason: Lookup.NotFoundReason)
    | ProjectInfoUnparsable
    | CallFailed(action: string, cause: Rpc.CallError)
    | Remote(cause: Rpc.CallError)
    | InvalidVisibility(visibility: string)
    | InvalidRole(role: string)
    | InvalidProjectId(text: string)
    | MetadataNotMap
    | InvalidMetadataValue(key: string)
    | PermissionDenied(projectId: int, userId: int, role: string)
    | UnexpectedResultType

  /** A tool result: JSON to pretty-print, plain text, or an error text. */
  datatype ToolResult = JsonText(value: Json.Value) | PlainText(text: string) | Failed(error: ToolError)

  /** The usual ending: the result as JSON, or the error prefixed with what the tool was doing. */
  function Relay(action: string, r: Result<Json.Value, Rpc.CallError>): ToolResult {
    match r
    case Success(v) => JsonText(v)
    case Failure(e) => Failed(CallFailed(action, e))
  }

  /** The ending of tools that pass the client's error text on unchanged. */
  function RelayRaw(r: Result<Json.Value, Rpc.CallError>): ToolResult {
    match r
    case Success(v) => JsonText(v)
    case Failure(e) => Failed(Remote(e))
  }

  // ---------------------------------------------------------------------------
  // Resolving a project by name

  function ProjectLookupCall(projectName: string): Rpc.RpcCall {
    Rpc.RpcCall("getProjectByName", Json.Obj(map["name" := Json.Str(projectName)]))
  }

  datatype Resolution = Resolved(id: int) | Unresolved(error: ToolError)

  /** The first of the two calls and the classification of its result. */
  function ResolveProject(kc: Rpc.KanboardClient, projectName: string): (r: Resolution)
    ensures r.Resolved? <==>
              && Rpc.Call(kc, ProjectLookupCall(projectName)).Success?
              && Lookup.Classify(Rpc.Call(kc, ProjectLookupCall(projectName)).value).Found?
    ensures r.Resolved? ==> r.id != 0 && Decimal.InInt64(r.id) &&
                            r.id == Lookup.Classify(Rpc.Call(kc, ProjectLookupCall(projectName)).value).id
    ensures Rpc.Call(kc, ProjectLookupCall(projectName)).Failure? ==>
              r == Unresolved(LookupFailed(Rpc.Call(kc, ProjectLookupCall(projectName)).error))
    ensures Rpc.Call(kc, ProjectLookupCall(projectName)).Success? &&
            Lookup.Classify(Rpc.Call(kc, ProjectLookupCall(projectName)).value).NotFound? ==>
              r == Unresolved(ProjectNotFound(projectName,
                     Lookup.Classify(Rpc.Call(kc, ProjectLookupCall(projectName)).value).reason))
    ensures Rpc.Call(kc, ProjectLookupCall(projectName)).Success? &&
            Lookup.Classify(Rpc.Call(kc, ProjectLookupCall(projectName)).value).Unparsable? ==>
              r == Unresolved(ProjectInfoUnparsable)
  {
    match Rpc.Call(kc, ProjectLookupCall(projectName))
    case Failure(e) => Unresolved(LookupFailed(e))
    case Success(v) =>
      match Lookup.Classify(v)
      case Found(id) => Resolved(id)
      case NotFound(reason) => Unresolved(ProjectNotFound(projectName, reason))
      case Unparsable => Unresolved(ProjectInfoUnparsable)
  }

  /**
    When the lookup answers with a sentinel (a boolean, null, an empty array,
    any other non-object, an empty object, or an object whose id is 0), the
    project is not resolved, so no follow-up call is made.
   */
  lemma SentinelsStopLookup(kc: Rpc.KanboardClient, projectName: string, v: Json.Value)
    requires Rpc.Call(kc, ProjectLookupCall(projectName)) == Success(v)
    requires !v.Obj? || v == Json.Obj(map[]) || v == Json.Obj(map["id" := Json.Num(0)])
    ensures ResolveProject(kc, projectName).Unresolved?
    ensures ResolveProject(kc, projectName).error.ProjectNotFound?
  {
    Lookup.SentinelsNotFound();
  }

  /** The `project_id` text passed on reads back (with `strconv.Atoi`) as the id that was found. */
  lemma ProjectIdReadsBack(kc: Rpc.KanboardClient, projectName: string)
    requires ResolveProject(kc, projectName).Resolved?
    ensures Decimal.Atoi(Decimal.Itoa(ResolveProject(kc, projectName).id)) == Some(ResolveProject(kc, projectName).id)
  {
    Decimal.AtoiItoa(ResolveProject(kc, projectName).id);
  }

  // ---------------------------------------------------------------------------
  // Listing the tasks of a project given by name

  method GetTasks(kc: Rpc.KanboardClient, projectName: Option<string>) returns (calls: seq<Rpc.RpcCall>, out: ToolResult)
    ensures projectName.None? ==> calls == [] && out == Failed(BadArgument("project_name"))
    ensures projectName.Some? ==> 1 <= |calls| <= 2 && calls[0] == ProjectLookupCall(projectName.value)
    ensures projectName.Some? ==> (|calls| == 2 <==> ResolveProject(kc, projectName.value).Resolved?)
    ensures projectName.Some? && |calls| == 1 ==> out == Failed(ResolveProject(kc, projectName.value).error)
    ensures |calls| == 2 ==>
              && calls[1] == Rpc.RpcCall("getAllTasks", Json.Obj(map["project_id" :=
                   Json.Str(Decimal.Itoa(ResolveProject(kc, projectName.value).id))]))
              && out == Relay("Failed to get tasks", Rpc.Call(kc, calls[1]))
  {
    if projectName.None? {
      return [], Failed(BadArgument("project_name"));
    }
    var name := projectName.value;
    calls := [ProjectLookupCall(name)];
    var resolution := ResolveProject(kc, name);
    if resolution.Unresolved? {
      return calls, Failed(resolution.error);
    }
    var call := Rpc.RpcCall("getAllTasks", Json.Obj(map["project_id" := Json.Str(Decimal.Itoa(resolution.id))]));
    calls := calls + [call];
    out := Relay("Failed to get tasks", Rpc.Call(kc, call));
  }

  // ---------------------------------------------------------------------------
  // Creating a project

  datatype ProjectFields = ProjectFields(
    description: string, ownerId: int, identifier: string, startDate: string, endDate: string,
    priorityDefault: int, priorityStart: int, priorityEnd: int, email: string)

  function ProjectOptionals(f: ProjectFields): (opts: seq<Params.OptionalArg>)
    ensures Params.DistinctKeys(opts)
  {
    [ Params.StringArg("description", f.description),
      Params.IntArg("owner_id", f.ownerId),
      Params.StringArg("identifier", f.identifier),
      Params.StringArg("start_date", f.startDate),
      Params.StringArg("end_date", f.endDate),
      Params.IntArg("priority_default", f.priorityDefault),
      Params.IntArg("priority_start", f.priorityStart),
      Params.IntArg("priority_end", f.priorityEnd),
      Params.StringArg("email", f.email) ]
  }

  method CreateProject(kc: Rpc.KanboardClient, name: Option<string>, f: ProjectFields)
    returns (calls: seq<Rpc.RpcCall>, out: ToolResult)
    ensures name.None? ==> calls == [] && out == Failed(BadArgument("name"))
    ensures name.Some? ==>
              && |calls| == 1 && calls[0].name == "createProject" && calls[0].params.Obj?
              && Params.Built(calls[0].params.fields, map["name" := Json.Str(name.value)], ProjectOptionals(f))
              && out == RelayRaw(Rpc.Call(kc, calls[0]))
  {
    if name.None? {
      return [], Failed(BadArgument("name"));
    }
    var params := Params.AddOptionals(map["name" := Json.Str(name.value)], ProjectOptionals(f));
    var call := Rpc.RpcCall("createProject", Json.Obj(params));
    calls := [call];
    out := RelayRaw(Rpc.Call(kc, call));
  }

  // ---------------------------------------------------------------------------
  // Creating a task in a project given by name

  datatype TaskFields = TaskFields(
    colorId: string, columnId: int, ownerId: int, creatorId: int, dateDue: string, description: string,
    categoryId: int, score: int, swimlaneId: int, priority: int,
    recurrenceStatus: int, recurrenceTrigger: int, recurrenceFactor: int, recurrenceTimeframe: int,
    recurrenceBasedate: int, reference: string, tags: seq<string>, dateStarted: string)

  function TaskOptionals(f: TaskFields): (opts: seq<Params.OptionalArg>)
    ensures Params.DistinctKeys(opts)
  {
    [ Params.StringArg("color_id", f.colorId),
      Params.IntArg("column_id", f.columnId),
      Params.IntArg("owner_id", f.ownerId),
      Params.IntArg("creator_id", f.creatorId),
      Params.StringArg("date_due", f.dateDue),
      Params.StringArg("description", f.description),
      Params.IntArg("category_id", f.categoryId),
      Params.IntArg("score", f.score),
      Params.IntArg("swimlane_id", f.swimlaneId),
      Params.IntArg("priority", f.priority),
      Params.IntArg("recurrence_status", f.recurrenceStatus),
      Params.IntArg("recurrence_trigger", f.recurrenceTrigger),
      Params.IntArg("recurrence_factor", f.recurrenceFactor),
      Params.IntArg("recurrence_timeframe", f.recurrenceTimeframe),
      Params.IntArg("recurrence_basedate", f.recurrenceBasedate),
      Params.StringArg("reference", f.reference),
      Params.TagsArg("tags", f.tags),
      Params.StringArg("date_started", f.dateStarted) ]
  }

  /** The required entries of a new task: the found project's id as text, and the title. */
  function TaskRequired(projectId: int, title: string): map<string, Json.Value> {
    map["project_id" := Json.Str(Decimal.Itoa(projectId)), "title" := Json.Str(title)]
  }

  method TaskParams(projectId: int, title: string, f: TaskFields) returns (params: map<string, Json.Value>)
    ensures Params.Built(params, TaskRequired(projectId, title), TaskOptionals(f))
  {
    params := Params.AddOptionals(TaskRequired(projectId, title), TaskOptionals(f));
  }

  method CreateTask(kc: Rpc.KanboardClient, projectName: Option<string>, title: Option<string>, f: TaskFields)
    returns (calls: seq<Rpc.RpcCall>, out: ToolResult)
    ensures projectName.None? ==> calls == [] && out == Failed(BadArgument("project_name"))
    ensures projectName.Some? && title.None? ==> calls == [] && out == Failed(BadArgument("title"))
    ensures projectName.Some? && title.Some? ==>
              && 1 <= |calls| <= 2 && calls[0] == ProjectLookupCall(projectName.value)
              && (|calls| == 2 <==> ResolveProject(kc, projectName.value).Resolved?)
              && (|calls| == 1 ==> out == Failed(ResolveProject(kc, projectName.value).error))
    ensures |calls| == 2 ==>
              && calls[1].name == "createTask" && calls[1].params.Obj?
              && Params.Built(calls[1].params.fields,
                   TaskRequired(ResolveProject(kc, projectName.value).id, title.value), TaskOptionals(f))
              && out == Relay("Failed to create task", Rpc.Call(kc, calls[1]))
  {
    if projectName.None? {
      return [], Failed(BadArgument("project_name"));
    }
    if title.None? {
      return [], Failed(BadArgument("title"));
    }
    var name := projectName.value;
    calls := [ProjectLookupCall(name)];
    var resolution := ResolveProject(kc, name);
    if resolution.Unresolved? {
      return calls, Failed(resolution.error);
    }
    var params := TaskParams(resolution.id, title.value, f);
    var call := Rpc.RpcCall("createTask", Json.Obj(params));
    calls := calls + [call];
    out := Relay("Failed to create task", Rpc.Call(kc, call));
  }

  // ---------------------------------------------------------------------------
  // Updating a task

  datatype UpdateFields = UpdateFields(
    title: string, colorId: string, ownerId: int, dateDue: string, description: string,
    categoryId: int, score: int, priority: int,
    recurrenceStatus: int, recurrenceTrigger: int, recurrenceFactor: int, recurrenceTimeframe: int,
    recurrenceBasedate: int, reference: string, tags: seq<string>, dateStarted: string)

  function UpdateOptionals(f: UpdateFields): (opts: seq<Params.OptionalArg>)
    ensures Params.DistinctKeys(opts)
  {
    [ Params.StringArg("title", f.title),
      Params.StringArg("color_id", f.colorId),
      Params.IntArg("owner_id", f.ownerId),
      Params.StringArg("date_due", f.dateDue),
      Params.StringArg("description", f.description),
      Params.IntArg("category_id", f.categoryId),
      Params.IntArg("score", f.score),
      Params.IntArg("priority", f.priority),
      Params.IntArg("recurrence_status", f.recurrenceStatus),
      Params.IntArg("recurrence_trigger", f.recurrenceTrigger),
      Params.IntArg("recurrence_factor", f.recurrenceFactor),
      Params.IntArg("recurrence_timeframe", f.recurrenceTimeframe),
      Params.IntArg("recurrence_basedate", f.recurrenceBasedate),
      Params.StringArg("reference", f.reference),
      Params.TagsArg("tags", f.tags),
      Params.StringArg("date_started", f.dateStarted) ]
  }

  method UpdateTask(kc: Rpc.KanboardClient, id: Option<int>, f: UpdateFields)
    returns (calls: seq<Rpc.RpcCall>, out: ToolResult)
    ensures id.None? ==> calls == [] && out == Failed(BadArgument("id"))
    ensures id.Some? ==>
              && |calls| == 1 && calls[0].name == "updateTask" && calls[0].params.Obj?
              && Params.Built(calls[0].params.fields, map["id" := Json.Num(id.value)], UpdateOptionals(f))
              && out == Relay("Failed to update task", Rpc.Call(kc, calls[0]))
  {
    if id.None? {
      return [], Failed(BadArgument("id"));
    }
    var params := Params.AddOptionals(map["id" := Json.Num(id.value)], UpdateOptionals(f));
    var call := Rpc.RpcCall("updateTask", Json.Obj(params));
    calls := [call];
    out := Relay("Failed to update task", Rpc.Call(kc, call));
  }

  // ---------------------------------------------------------------------------
  // Moving a task to another project

  datatype MoveFields = MoveFields(swimlaneId: int, columnId: int, categoryId: int, ownerId: int)

  function MoveOptionals(f: MoveFields): (opts: seq<Params.OptionalArg>)
    ensures Params.DistinctKeys(opts)
  {
    [ Params.IntArg("swimlane_id", f.swimlaneId),
      Params.IntArg("column_id", f.columnId),
      Params.IntArg("category_id", f.categoryId),
      Params.IntArg("owner_id", f.ownerId) ]
  }

  method MoveTaskToProject(kc: Rpc.KanboardClient, taskId: Option<int>, projectId: Option<int>, f: MoveFields)
    returns (calls: seq<Rpc.RpcCall>, out: ToolResult)
    ensures taskId.None? ==> calls == [] && out == Failed(BadArgument("task_id"))
    ensures taskId.Some? && projectId.None? ==> calls == [] && out == Failed(BadArgument("project_id"))
    ensures taskId.Some? && projectId.Some? ==>
              && |calls| == 1 && calls[0].name == "moveTaskToProject" && calls[0].params.Obj?
              && Params.Built(calls[0].params.fields,
                   map["task_id" := Json.Num(taskId.value), "project_id" := Json.Num(projectId.value)],
                   MoveOptionals(f))
              && out == Relay("Failed to move task", Rpc.Call(kc, calls[0]))
  {
    if taskId.None? {
      return [], Failed(BadArgument("task_id"));
    }
    if projectId.None? {
      return [], Failed(BadArgument("project_id"));
    }
    var required := map["task_id" := Json.Num(taskId.value), "project_id" := Json.Num(projectId.value)];
    var params := Params.AddOptionals(required, MoveOptionals(f));
    var call := Rpc.RpcCall("moveTaskToProject", Json.Obj(params));
    calls := [call];
    out := Relay("Failed to move task", Rpc.Call(kc, call));
  }

  // ---------------------------------------------------------------------------
  // Creating a comment

  function CommentOptionals(reference: string, visibility: string): (opts: seq<Params.OptionalArg>)
    ensures Params.DistinctKeys(opts)
  {
    [Params.StringArg("reference", reference), Params.StringArg("visibility", visibility)]
  }

  method CreateComment(kc: Rpc.KanboardClient, taskId: Option<int>, userId: Option<int>, content: Option<string>,
                       reference: string, visibility: string)
    returns (calls: seq<Rpc.RpcCall>, out: ToolResult)
    ensures taskId.None? ==> calls == [] && out == Failed(BadArgument("task_id"))
    ensures taskId.Some? && userId.None? ==> calls == [] && out == Failed(BadArgument("user_id"))
    ensures taskId.Some? && userId.Some? && content.None? ==> calls == [] && out == Failed(BadArgument("content"))
    ensures taskId.Some? && userId.Some? && content.Some? && visibility != "" &&
            visibility !in Validate.CommentVisibilities ==>
              calls == [] && out == Failed(InvalidVisibility(visibility))
    ensures |calls| <= 1
    ensures |calls| == 1 <==>
              taskId.Some? && userId.Some? && content.Some? &&
              (visibility == "" || visibility in Validate.CommentVisibilities)
    ensures |calls| == 1 ==>
              && calls[0].name == "createComment" && calls[0].params.Obj?
              && Params.Built(calls[0].params.fields,
                   map["task_id" := Json.Num(taskId.value), "user_id" := Json.Num(userId.value),
                       "content" := Json.Str(content.value)],
                   CommentOptionals(reference, visibility))
              && out == Relay("Failed to create comment", Rpc.Call(kc, calls[0]))
  {
    if taskId.None? {
      return [], Failed(BadArgument("task_id"));
    }
    if userId.None? {
      return [], Failed(BadArgument("user_id"));
    }
    if content.None? {
      return [], Failed(BadArgument("content"));
    }
    var required := map["task_id" := Json.Num(taskId.value), "user_id" := Json.Num(userId.value),
                        "content" := Json.Str(content.value)];
    var params := Params.AddOptionals(required, [Params.StringArg("reference", reference)]);
    ghost var withReference := params;
    if visibility != "" {
      var valid := Validate.IsListed(visibility, Validate.CommentVisibilities);
      if !valid {
        return [], Failed(InvalidVisibility(visibility));
      }
      params := params["visibility" := Json.Str(visibility)];
    }
    Params.BuiltAppend(withReference, required, [Params.StringArg("reference", reference)],
                       Params.StringArg("visibility", visibility));
    assert [Params.StringArg("reference", reference)] + [Params.StringArg("visibility", visibility)]
        == CommentOptionals(reference, visibility);
    var call := Rpc.RpcCall("createComment", Json.Obj(params));
    calls := [call];
    out := Relay("Failed to create comment", Rpc.Call(kc, call));
  }

  // ---------------------------------------------------------------------------
  // Assigning a user to a project

  /** The role argument, or "project-member" when it is absent. */
  function EffectiveRole(role: Option<string>): (r: string)
    ensures role.None? ==> r == Validate.DefaultRole && r in Validate.ProjectRoles
    ensures role.Some? ==> r == role.value
  {
    match role
    case None => Validate.DefaultRole
    case Some(r) => r
  }

  /** An absent role passes the role check; an explicitly empty one does not. */
  lemma AbsentRoleAccepted()
    ensures EffectiveRole(None) == "project-member" && EffectiveRole(None) in Validate.ProjectRoles
    ensures EffectiveRole(Some("")) !in Validate.ProjectRoles
  {
  }

  const Forbidden: Rpc.CallError := Rpc.HttpStatus(403, "403 Forbidden")

  method AssignUserToProject(kc: Rpc.KanboardClient, projectIdText: Option<string>, userId: Option<int>,
                             role: Option<string>)
    returns (calls: seq<Rpc.RpcCall>, out: ToolResult)
    ensures projectIdText.None? ==> calls == [] && out == Failed(BadArgument("project_id"))
    ensures projectIdText.Some? && Decimal.Atoi(projectIdText.value).None? ==>
              calls == [] && out == Failed(InvalidProjectId(projectIdText.value))
    ensures projectIdText.Some? && Decimal.Atoi(projectIdText.value).Some? && userId.None? ==>
              calls == [] && out == Failed(BadArgument("user_id"))
    ensures projectIdText.Some? && Decimal.Atoi(projectIdText.value).Some? && userId.Some? &&
            EffectiveRole(role) !in Validate.ProjectRoles ==>
              calls == [] && out == Failed(InvalidRole(EffectiveRole(role)))
    ensures |calls| <= 1
    ensures |calls| == 1 <==>
              projectIdText.Some? && Decimal.Atoi(projectIdText.value).Some? && userId.Some? &&
              EffectiveRole(role) in Validate.ProjectRoles
    ensures |calls| == 1 ==>
              calls[0] == Rpc.RpcCall("addProjectUser", Json.Obj(map[
                "project_id" := Json.Num(Decimal.Atoi(projectIdText.value).value),
                "user_id" := Json.Num(userId.value),
                "role" := Json.Str(EffectiveRole(role))]))
    ensures |calls| == 1 && Rpc.Call(kc, calls[0]).Success? ==> out == JsonText(Rpc.Call(kc, calls[0]).value)
    ensures |calls| == 1 && Rpc.Call(kc, calls[0]) == Failure(Forbidden) ==>
              out == Failed(PermissionDenied(Decimal.Atoi(projectIdText.value).value, userId.value, EffectiveRole(role)))
    ensures |calls| == 1 && Rpc.Call(kc, calls[0]).Failure? && Rpc.Call(kc, calls[0]).error != Forbidden ==>
              out == Failed(CallFailed("Failed to assign user to project", Rpc.Call(kc, calls[0]).error))
  {
    if projectIdText.None? {
      return [], Failed(BadArgument("project_id"));
    }
    var parsed := Decimal.Atoi(projectIdText.value);
    if parsed.None? {
      return [], Failed(InvalidProjectId(projectIdText.value));
    }
    var projectId := parsed.value;
    if userId.None? {
      return [], Failed(BadArgument("user_id"));
    }
    var r := EffectiveRole(role);
    var valid := Validate.IsListed(r, Validate.ProjectRoles);
    if !valid {
      return [], Failed(InvalidRole(r));
    }
    var call := Rpc.RpcCall("addProjectUser", Json.Obj(map[
      "project_id" := Json.Num(projectId), "user_id" := Json.Num(userId.value), "role" := Json.Str(r)]));
    calls := [call];
    match Rpc.Call(kc, call)
    case Success(v) =>
      out := JsonText(v);
    case Failure(e) =>
      Rpc.ForbiddenTextMeans(e);
      if Rpc.ErrorText(e) == Rpc.ForbiddenText {
        out := Failed(PermissionDenied(projectId, userId.value, r));
      } else {
        out := Failed(CallFailed("Failed to assign user to project", e));
      }
  }

  // ---------------------------------------------------------------------------
  // Saving task metadata

  /** The client wrapper's reading of the result: only a boolean is accepted. */
  function MetadataOutcome(r: Result<Json.Value, Rpc.CallError>): (out: ToolResult)
    ensures r.Failure? ==> out == Failed(Remote(r.error))
    ensures out.PlainText? <==> r.Success? && r.value.Bool?
    ensures out.PlainText? ==> (out.text == "true" <==> r.value.b) && (out.text == "false" <==> !r.value.b)
    ensures r.Success? && !r.value.Bool? ==> out == Failed(UnexpectedResultType)
  {
    match r
    case Failure(e) => Failed(Remote(e))
    case Success(Bool(b)) => PlainText(if b then "true" else "false")
    case Success(_) => Failed(UnexpectedResultType)
  }

  method SaveTaskMetadata(kc: Rpc.KanboardClient, taskId: Option<int>, values: Option<Json.Value>)
    returns (calls: seq<Rpc.RpcCall>, out: ToolResult)
    ensures taskId.None? ==> calls == [] && out == Failed(BadArgument("task_id"))
    ensures taskId.Some? && !(values.Some? && values.value.Obj?) ==> calls == [] && out == Failed(MetadataNotMap)
    ensures taskId.Some? && values.Some? && values.value.Obj? && !Validate.AllStrings(values.value.fields) ==>
              && calls == [] && out.Failed? && out.error.InvalidMetadataValue?
              && out.error.key in values.value.fields && !values.value.fields[out.error.key].Str?
    ensures |calls| <= 1
    ensures |calls| == 1 <==>
              taskId.Some? && values.Some? && values.value.Obj? && Validate.AllStrings(values.value.fields)
    ensures |calls| == 1 ==>
              && calls[0] == Rpc.RpcCall("saveTaskMetadata", Json.Obj(map[
                   "task_id" := Json.Num(taskId.value), "values" := values.value]))
              && out == MetadataOutcome(Rpc.Call(kc, calls[0]))
  {
    if taskId.None? {
      return [], Failed(BadArgument("task_id"));
    }
    if !(values.Some? && values.value.Obj?) {
      return [], Failed(MetadataNotMap);
    }
    var fields := values.value.fields;
    var narrowed := Validate.NarrowMetadata(fields);
    if narrowed.Failure? {
      return [], Failed(InvalidMetadataValue(narrowed.error));
    }
    var strings := narrowed.value;
    var sent := map k | k in strings :: Json.Str(strings[k]);
    assert sent == fields;
    var call := Rpc.RpcCall("saveTaskMetadata", Json.Obj(map["task_id" := Json.Num(taskId.value), "values" := Json.Obj(sent)]));
    calls := [call];
    out := MetadataOutcome(Rpc.Call(kc, call));
  }
}
