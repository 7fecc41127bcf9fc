/** The client of Notion's private API: request payloads, the token guard, and the
    projections of the replies the backup uses.  Each remote call is a pure function of its
    arguments and of the reply the service gives; it returns the requests it issued (none,
    when it raises before sending) together with its result. */
module NotionClient {
  import opened Errors
  import opened JsonValues

  /** A POST to the endpoint of the API root, with a JSON body and cookies. */
  datatype Request = Request(endpoint: string, body: Json, cookies: map<string, string>)

  /** What the service answers: a status code, the parsed JSON body and the cookies set. */
  datatype HttpReply = HttpReply(status: int, body: Json, cookies: map<string, string>)

  /** The requests a client call issued, and what it returned or raised. */
  datatype Call<+T> = Call(sent: seq<Request>, result: Result<T>)

  /** The values the login exchange carries from the OTP request to the token request. */
  datatype Csrf = Csrf(state: Json, cookie: string)

  /** The keyword arguments of a block export; None stands for an argument not passed. */
  datatype ExportArgs = ExportArgs(
    recursive: Option<Json>,
    exportComments: Option<Json>,
    exportType: Option<Json>,
    includeContents: Option<Json>)

  const NO_EXPORT_ARGS := ExportArgs(None, None, None, None)

  /** Python truthiness of an optional string: present and not empty. */
  predicate Truthy(s: Option<string>) {
    s.Some? && s.value != ""
  }

  /** How a stored setting is read as text: a string value, or absent. */
  function AsText(v: Option<Json>): Option<string> {
    match v
    case Some(JStr(s)) => Some(s)
    case _ => None
  }

  /** The statuses for which raise_for_status raises. */
  predicate IsErrorStatus(status: int) {
    400 <= status < 600
  }

  /** raise_for_status, then the JSON body. */
  function CheckedBody(reply: HttpReply): (r: Result<Json>)
    ensures r.Failure? <==> IsErrorStatus(reply.status)
    ensures r.Failure? ==> r.error == HttpError(reply.status)
    ensures r.Success? ==> r.value == reply.body
  {
    if IsErrorStatus(reply.status) then Failure(HttpError(reply.status)) else Success(reply.body)
  }

  /** response.cookies[name] */
  function Cookie(reply: HttpReply, name: string): Result<string> {
    if name in reply.cookies then Success(reply.cookies[name]) else Failure(KeyError(name))
  }

  /** Subscripts the result of a call by `key`, keeping what the call sent. */
  function Member(c: Call<Json>, key: string): Call<Json> {
    match c.result
    case Success(body) => Call(c.sent, Get(body, key))
    case Failure(e) => Call(c.sent, Failure(e))
  }

  function OtpRequest(email: Option<string>): Request {
    var address := match email case Some(e) => JStr(e) case None => JNull;
    Request("sendTemporaryPassword",
      JObj([("email", address), ("disableLoginLink", JBool(false)),
            ("native", JBool(false)), ("isSignup", JBool(false))]),
      map[])
  }

  /** Asks the service to e-mail a temporary password to the stored address. */
  function AskOtp(email: Option<string>, reply: HttpReply): (c: Call<Csrf>)
    ensures c.sent == [OtpRequest(email)]
    ensures c.result.Success? <==>
      !IsErrorStatus(reply.status) && Get(reply.body, "csrfState").Success? && "csrf" in reply.cookies
    ensures c.result.Success? ==>
      c.result.value == Csrf(Get(reply.body, "csrfState").value, reply.cookies["csrf"])
    ensures IsErrorStatus(reply.status) ==> c.result == Failure(HttpError(reply.status))
  {
    var sent := [OtpRequest(email)];
    match CheckedBody(reply)
    case Failure(e) => Call(sent, Failure(e))
    case Success(body) =>
      match Get(body, "csrfState")
      case Failure(e) => Call(sent, Failure(e))
      case Success(state) =>
        match Cookie(reply, "csrf")
        case Failure(e) => Call(sent, Failure(e))
        case Success(cookie) => Call(sent, Success(Csrf(state, cookie)))
  }

  function TokenRequest(csrf: Csrf, otp: string): Request {
    Request("loginWithEmail", JObj([("state", csrf.state), ("password", JStr(otp))]),
      map["csrf" := csrf.cookie])
  }

  /** Exchanges the temporary password for the session token set as cookie token_v2. */
  function GetToken(csrf: Csrf, otp: string, reply: HttpReply): (c: Call<string>)
    ensures c.sent == [TokenRequest(csrf, otp)]
    ensures c.result.Success? <==> !IsErrorStatus(reply.status) && "token_v2" in reply.cookies
    ensures c.result.Success? ==> c.result.value == reply.cookies["token_v2"]
    ensures IsErrorStatus(reply.status) ==> c.result == Failure(HttpError(reply.status))
  {
    var sent := [TokenRequest(csrf, otp)];
    match CheckedBody(reply)
    case Failure(e) => Call(sent, Failure(e))
    case Success(_) => Call(sent, Cookie(reply, "token_v2"))
  }

  /** An authenticated call carries the session token as cookie token_v2. */
  function PostRequest(token: string, endpoint: string, body: Json): Request {
    Request(endpoint, body, map["token_v2" := token])
  }

  /** Sends an authenticated request; without a usable token it raises before sending. */
  function SendPostRequest(token: Option<string>, endpoint: string, body: Json, reply: HttpReply): (c: Call<Json>)
    ensures !Truthy(token) ==> c == Call([], Failure(TokenNotSet))
    ensures Truthy(token) ==> c.sent == [PostRequest(token.value, endpoint, body)]
    ensures Truthy(token) ==> c.result == CheckedBody(reply)
  {
    if !Truthy(token) then Call([], Failure(TokenNotSet))
    else Call([PostRequest(token.value, endpoint, body)], CheckedBody(reply))
  }

  /** The record map of the user's content: workspaces and users. */
  function GetUserContent(token: Option<string>, reply: HttpReply): (c: Call<Json>)
    ensures c.sent == if Truthy(token) then [PostRequest(token.value, "loadUserContent", JObj([]))] else []
    ensures c.result.Success? <==>
      Truthy(token) && !IsErrorStatus(reply.status) && Get(reply.body, "recordMap").Success?
    ensures c.result.Success? ==> c.result == Get(reply.body, "recordMap")
    ensures !Truthy(token) ==> c.result == Failure(TokenNotSet)
    ensures Truthy(token) && IsErrorStatus(reply.status) ==> c.result == Failure(HttpError(reply.status))
    ensures Truthy(token) && !IsErrorStatus(reply.status) && Get(reply.body, "recordMap").Failure? ==>
      c.result == Failure(Get(reply.body, "recordMap").error)
  {
    Member(SendPostRequest(token, "loadUserContent", JObj([]), reply), "recordMap")
  }

  /** The task that exports a whole workspace as Markdown. */
  function SpaceExportTask(spaceId: string): Json {
    JObj([("task", JObj([
      ("eventName", JStr("exportSpace")),
      ("request", JObj([
        ("spaceId", JStr(spaceId)),
        ("exportOptions", JObj([
          ("exportType", JStr("markdown")),
          ("timeZone", JStr("Europe/Paris")),
          ("locale", JStr("en"))]))]))]))])
  }

  /** A workspace export names the workspace, asks for Markdown and names no block. */
  lemma SpaceExportTaskPayload(spaceId: string)
    ensures var body := SpaceExportTask(spaceId);
      && At(body, ["task", "eventName"]) == Some(JStr("exportSpace"))
      && At(body, ["task", "request", "spaceId"]) == Some(JStr(spaceId))
      && At(body, ["task", "request", "exportOptions", "exportType"]) == Some(JStr("markdown"))
      && At(body, ["task", "request", "block"]) == None
  {
    var task := SpaceExportTask(spaceId).fields[0].1;
    GetMember(task.fields, 1);
    GetMember(task.fields[1].1.fields, 1);
  }

  /** The value of a keyword argument, or its default when it was not passed. */
  function ArgOr(arg: Option<Json>, default: Json): Json {
    match arg
    case Some(v) => v
    case None => default
  }

  /** The task that exports one block; arguments not passed take their defaults. */
  function BlockExportTask(spaceId: string, blockId: string, args: ExportArgs): Json {
    JObj([("task", JObj([
      ("eventName", JStr("exportBlock")),
      ("request", JObj([
        ("block", JObj([("id", JStr(blockId)), ("spaceId", JStr(spaceId))])),
        ("exportOptions", JObj([
          ("collectionViewExportType", JStr("currentView")),
          ("exportType", ArgOr(args.exportType, JStr("html"))),
          ("includeContents", ArgOr(args.includeContents, JStr("no_files"))),
          ("locale", JStr("en")),
          ("timeZone", JStr("Asia/Jerusalem"))])),
        ("recursive", ArgOr(args.recursive, JBool(false))),
        ("shouldExportComments", ArgOr(args.exportComments, JBool(false)))]))]))])
  }

  /** A block export names the block and its workspace. */
  lemma BlockExportTaskTargetsBlock(spaceId: string, blockId: string, args: ExportArgs)
    ensures var body := BlockExportTask(spaceId, blockId, args);
      && At(body, ["task", "eventName"]) == Some(JStr("exportBlock"))
      && At(body, ["task", "request", "block", "id"]) == Some(JStr(blockId))
      && At(body, ["task", "request", "block", "spaceId"]) == Some(JStr(spaceId))
  {
    var task := BlockExportTask(spaceId, blockId, args).fields[0].1;
    GetMember(task.fields, 1);
    GetMember(task.fields[1].1.fields[0].1.fields, 1);
  }

  /** The recursive and comment flags are the arguments passed, or false. */
  lemma BlockExportTaskFlags(spaceId: string, blockId: string, args: ExportArgs)
    ensures var body := BlockExportTask(spaceId, blockId, args);
      && At(body, ["task", "request", "recursive"]) ==
           Some(if args.recursive.Some? then args.recursive.value else JBool(false))
      && At(body, ["task", "request", "shouldExportComments"]) ==
           Some(if args.exportComments.Some? then args.exportComments.value else JBool(false))
  {
    var task := BlockExportTask(spaceId, blockId, args).fields[0].1;
    GetMember(task.fields, 1);
    GetMember(task.fields[1].1.fields, 2);
    GetMember(task.fields[1].1.fields, 3);
  }

  /** The export format is the argument passed, or "html". */
  lemma BlockExportTaskFormat(spaceId: string, blockId: string, args: ExportArgs)
    ensures At(BlockExportTask(spaceId, blockId, args), ["task", "request", "exportOptions", "exportType"]) ==
      Some(if args.exportType.Some? then args.exportType.value else JStr("html"))
  {
    var task := BlockExportTask(spaceId, blockId, args).fields[0].1;
    var request := task.fields[1].1;
    GetMember(task.fields, 1);
    GetMember(request.fields, 1);
    GetMember(request.fields[1].1.fields, 1);
  }

  /** The contents mode is the argument passed, or "no_files". */
  lemma BlockExportTaskContents(spaceId: string, blockId: string, args: ExportArgs)
    ensures At(BlockExportTask(spaceId, blockId, args), ["task", "request", "exportOptions", "includeContents"]) ==
      Some(if args.includeContents.Some? then args.includeContents.value else JStr("no_files"))
  {
    var task := BlockExportTask(spaceId, blockId, args).fields[0].1;
    var request := task.fields[1].1;
    GetMember(task.fields, 1);
    GetMember(request.fields, 1);
    GetMember(request.fields[1].1.fields, 2);
  }

  /** Enqueues a whole-workspace export and returns the reply's task id. */
  function LaunchSpaceExportTask(token: Option<string>, spaceId: string, reply: HttpReply): (c: Call<Json>)
    ensures c.sent == if Truthy(token) then [PostRequest(token.value, "enqueueTask", SpaceExportTask(spaceId))] else []
    ensures c.result.Success? <==>
      Truthy(token) && !IsErrorStatus(reply.status) && Get(reply.body, "taskId").Success?
    ensures c.result.Success? ==> c.result == Get(reply.body, "taskId")
    ensures !Truthy(token) ==> c.result == Failure(TokenNotSet)
    ensures Truthy(token) && IsErrorStatus(reply.status) ==> c.result == Failure(HttpError(reply.status))
    ensures Truthy(token) && !IsErrorStatus(reply.status) && Get(reply.body, "taskId").Failure? ==>
      c.result == Failure(Get(reply.body, "taskId").error)
  {
    Member(SendPostRequest(token, "enqueueTask", SpaceExportTask(spaceId), reply), "taskId")
  }

  /** Enqueues a block export and returns the reply's task id. */
  function LaunchBlockExportTask(token: Option<string>, spaceId: string, blockId: string, args: ExportArgs,
                                 reply: HttpReply): (c: Call<Json>)
    ensures c.sent ==
      if Truthy(token) then [PostRequest(token.value, "enqueueTask", BlockExportTask(spaceId, blockId, args))] else []
    ensures c.result.Success? <==>
      Truthy(token) && !IsErrorStatus(reply.status) && Get(reply.body, "taskId").Success?
    ensures c.result.Success? ==> c.result == Get(reply.body, "taskId")
    ensures !Truthy(token) ==> c.result == Failure(TokenNotSet)
    ensures Truthy(token) && IsErrorStatus(reply.status) ==> c.result == Failure(HttpError(reply.status))
    ensures Truthy(token) && !IsErrorStatus(reply.status) && Get(reply.body, "taskId").Failure? ==>
      c.result == Failure(Get(reply.body, "taskId").error)
  {
    Member(SendPostRequest(token, "enqueueTask", BlockExportTask(spaceId, blockId, args), reply), "taskId")
  }

  function TaskStatusQuery(taskId: Json): Json {
    JObj([("taskIds", JArr([taskId]))])
  }

  /** list(filter(lambda t: t["id"] == taskId, items)): every item is subscripted, in order,
      so an item without an id raises even when another item matches. */
  function Matching(items: seq<Json>, taskId: Json): (r: Result<seq<Json>>)
    ensures r.Success? <==> forall i :: 0 <= i < |items| ==> Get(items[i], "id").Success?
    ensures r.Success? ==> forall x :: x in r.value ==> x in items && Get(x, "id") == Success(taskId)
    ensures r.Success? ==>
      (r.value == [] <==> forall i :: 0 <= i < |items| ==> Get(items[i], "id") != Success(taskId))
    // a failure is the error of the first result without an id
    ensures r.Failure? ==>
      exists i :: 0 <= i < |items| && Get(items[i], "id") == Failure(r.error)
        && forall j :: 0 <= j < i ==> Get(items[j], "id").Success?
  {
    if items == [] then Success([])
    else match Get(items[0], "id")
      case Failure(e) => Failure(e)
      case Success(id) =>
        match Matching(items[1..], taskId)
        case Failure(e) => Failure(e)
        case Success(rest) => Success(if id == taskId then [items[0]] + rest else rest)
  }

  /** The entries under "results" of a getTasks reply, as Python iterates them. */
  function TaskResults(body: Json): (r: Result<seq<Json>>)
    ensures Get(body, "results").Failure? ==> r == Failure(Get(body, "results").error)
    ensures Get(body, "results").Success? && Get(body, "results").value.JArr? ==>
      r == Success(Get(body, "results").value.items)
    ensures r.Success? ==>
      && Get(body, "results").Success?
      && (Get(body, "results").value.JArr? || Get(body, "results").value.JObj? || Get(body, "results").value.JStr?)
  {
    match Get(body, "results")
    case Success(results) => Iterate(results)
    case Failure(e) => Failure(e)
  }

  /** The status record of task `taskId`: the first result whose id is `taskId`. */
  function GetUserTaskStatus(token: Option<string>, taskId: Json, reply: HttpReply): (c: Call<Fields>)
    ensures c.sent == if Truthy(token) then [PostRequest(token.value, "getTasks", TaskStatusQuery(taskId))] else []
    ensures !Truthy(token) ==> c.result == Failure(TokenNotSet)
    ensures Truthy(token) && IsErrorStatus(reply.status) ==> c.result == Failure(HttpError(reply.status))
    ensures c.result.Success? ==> Get(JObj(c.result.value), "id") == Success(taskId)
    ensures (Truthy(token) && !IsErrorStatus(reply.status) && TaskResults(reply.body).Success? &&
             Matching(TaskResults(reply.body).value, taskId) == Success([])) ==> c.result == Failure(IndexError)
  {
    var post := SendPostRequest(token, "getTasks", TaskStatusQuery(taskId), reply);
    match post.result
    case Failure(e) => Call(post.sent, Failure(e))
    case Success(body) =>
      match TaskResults(body)
      case Failure(e) => Call(post.sent, Failure(e))
      case Success(items) =>
        match Matching(items, taskId)
        case Failure(e) => Call(post.sent, Failure(e))
        case Success(matches) =>
          if matches == [] then Call(post.sent, Failure(IndexError))
          else
            assert matches[0] in matches;
            match matches[0]
            case JObj(fields) => Call(post.sent, Success(fields))
            case _ => assert false; Call(post.sent, Failure(TypeError))
  }

  /** The filter keeps the first result whose id is the requested one in first position. */
  lemma {:induction false} MatchingKeepsFirstMatch(items: seq<Json>, taskId: Json, i: nat)
    requires forall j :: 0 <= j < |items| ==> Get(items[j], "id").Success?
    requires i < |items| && Get(items[i], "id") == Success(taskId)
    requires forall j :: 0 <= j < i ==> Get(items[j], "id") != Success(taskId)
    ensures Matching(items, taskId).Success?
    ensures Matching(items, taskId).value != [] && Matching(items, taskId).value[0] == items[i]
  {
    if i > 0 {
      MatchingKeepsFirstMatch(items[1..], taskId, i - 1);
    }
  }

  /** When every result has an id and the i-th is the first with the requested one, the
      status lookup returns the i-th result. */
  lemma TaskStatusIsFirstMatch(token: Option<string>, taskId: Json, reply: HttpReply, i: nat)
    requires Truthy(token) && !IsErrorStatus(reply.status)
    requires TaskResults(reply.body).Success?
    requires var items := TaskResults(reply.body).value;
      && (forall j :: 0 <= j < |items| ==> Get(items[j], "id").Success?)
      && i < |items| && Get(items[i], "id") == Success(taskId)
      && (forall j :: 0 <= j < i ==> Get(items[j], "id") != Success(taskId))
    ensures var items := TaskResults(reply.body).value;
      items[i].JObj? && GetUserTaskStatus(token, taskId, reply).result == Success(items[i].fields)
  {
    MatchingKeepsFirstMatch(TaskResults(reply.body).value, taskId, i);
  }
}
