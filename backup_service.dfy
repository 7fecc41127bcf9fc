/** The backup orchestration: credentials, workspace selection, the export launch and the
    loop that polls the export task until it is complete.  The remote service is a script of
    replies, one per request, and each prompt is an answer the user may give (None: the user
    accepts the prompt's default, as in a non-interactive run). */
module Backup {
  import opened Errors
  import opened JsonValues
  import opened NotionClient
  import opened Configuration

  /** Seconds slept between two polls of an export task that is not complete. */
  const STATUS_WAIT_TIME := 10

  /** prompt(message, default=d): what the user typed, or the default when they only confirm it. */
  function Prompt(default: string, answer: Option<string>): string {
    match answer
    case Some(typed) => typed
    case None => default
  }

  /** What the service and the user answer during one login. */
  datatype Session = Session(
    emailAnswer: Option<string>,
    otpReply: HttpReply,
    otpAnswer: Option<string>,
    tokenReply: HttpReply)

  /** What the service and the user answer during one interactive workspace backup. */
  datatype Remote = Remote(
    login: Session,               // first-time login, when no token is stored
    probe: HttpReply,             // the credential probe (loadUserContent)
    relogin: Session,             // login again after the probe was refused with 401
    content: HttpReply,           // loadUserContent
    selection: Option<string>,    // the workspace prompt
    launch: HttpReply,            // enqueueTask
    polls: seq<HttpReply>)        // the successive getTasks polls

  /** What the service and the user answer during one block backup. */
  datatype BlockRemote = BlockRemote(login: Session, launch: HttpReply, polls: seq<HttpReply>)

  datatype Destination = File(path: string) | Memory

  /** The download the backup ends with: the export link, where it is written, and the file
      token sent with it. */
  datatype Download = Download(url: Json, destination: Destination, fileToken: Option<string>)

  // ---------------------------------------------------------------- login

  /** The configuration, the requests sent and the result after a login. */
  datatype Effect = Effect(config: map<string, Json>, sent: seq<Request>, result: Result<()>)

  /** The address the user confirms at the e-mail prompt, which offers the stored one. */
  function EnteredEmail(stored: Option<string>, answer: Option<string>): (r: string)
    ensures answer.Some? ==> r == answer.value
    ensures answer.None? && Truthy(stored) ==> r == stored.value
    ensures answer.None? && !Truthy(stored) ==> r == ""
  {
    if Truthy(stored) then Prompt(stored.value, answer) else Prompt("", answer)
  }

  predicate NoExportLaunched(sent: seq<Request>) {
    forall q :: q in sent ==> q.endpoint != "enqueueTask"
  }

  /** Every export launched among `sent` is the export of `task`. */
  predicate ExportsOnly(sent: seq<Request>, task: Json) {
    forall q :: q in sent && q.endpoint == "enqueueTask" ==> q.body == task
  }

  /** Requests without an export followed by requests that launch only `task` launch only
      `task`. */
  lemma ExportsOnlyAfter(before: seq<Request>, after: seq<Request>, task: Json)
    requires NoExportLaunched(before) && ExportsOnly(after, task)
    ensures ExportsOnly(before + after, task)
  {
  }

  /** Appending two stretches of requests one after the other appends them together. */
  lemma Appended(log: seq<Request>, first: seq<Request>, rest: seq<Request>)
    ensures log + first + rest == log + (first + rest)
  {
  }

  /** A login from configuration `config`: the e-mail address is stored before the temporary
      password is requested, and the session token is stored once it has been obtained. */
  function LoginRun(config: map<string, Json>, s: Session): (e: Effect)
    ensures var email := EnteredEmail(AsText(Entry(config, "email")), s.emailAnswer);
      && Entry(e.config, "email") == Some(JStr(email))
      && 1 <= |e.sent| <= 2 && e.sent[0] == OtpRequest(Some(email))
    ensures e.result.Success? ==>
      "token_v2" in s.tokenReply.cookies && Entry(e.config, "token") == Some(JStr(s.tokenReply.cookies["token_v2"]))
    ensures e.result.Failure? ==> Entry(e.config, "token") == Entry(config, "token")
    ensures forall k :: k != "email" && k != "token" ==> Entry(e.config, k) == Entry(config, k)
    ensures NoExportLaunched(e.sent)
  {
    var email := EnteredEmail(AsText(Entry(config, "email")), s.emailAnswer);
    var withEmail := config["email" := JStr(email)];
    var ask := AskOtp(AsText(Entry(withEmail, "email")), s.otpReply);
    match ask.result
    case Failure(err) => Effect(withEmail, ask.sent, Failure(err))
    case Success(csrf) =>
      var login := GetToken(csrf, Prompt("", s.otpAnswer), s.tokenReply);
      match login.result
      case Failure(err) => Effect(withEmail, ask.sent + login.sent, Failure(err))
      case Success(token) => Effect(withEmail["token" := JStr(token)], ask.sent + login.sent, Success(()))
  }

  /** The first call of a login that fails decides its error, and nothing is sent after it. */
  lemma LoginStopsAtFirstFailure(config: map<string, Json>, s: Session)
    ensures var e := LoginRun(config, s);
      var ask := AskOtp(Some(EnteredEmail(AsText(Entry(config, "email")), s.emailAnswer)), s.otpReply);
      if ask.result.Failure? then e.sent == ask.sent && e.result == Failure(ask.result.error)
      else
        var login := GetToken(ask.result.value, Prompt("", s.otpAnswer), s.tokenReply);
        && e.sent == ask.sent + login.sent
        && (login.result.Failure? ==> e.result == Failure(login.result.error))
  {
  }

  /** A login succeeds exactly when both replies carry what the next step needs; the token
      request then carries the CSRF state and cookie of the first reply and the password
      typed. */
  lemma LoginSucceedsIff(config: map<string, Json>, s: Session)
    ensures var e := LoginRun(config, s);
      && (e.result.Success? <==>
            && !IsErrorStatus(s.otpReply.status) && Get(s.otpReply.body, "csrfState").Success?
            && "csrf" in s.otpReply.cookies
            && !IsErrorStatus(s.tokenReply.status) && "token_v2" in s.tokenReply.cookies)
      && (e.result.Success? ==>
            && |e.sent| == 2
            && e.sent[1] == TokenRequest(Csrf(Get(s.otpReply.body, "csrfState").value, s.otpReply.cookies["csrf"]),
                                         Prompt("", s.otpAnswer)))
  {
  }

  // ---------------------------------------------------------------- polling

  /** What one poll decides: poll again after a sleep, or stop with the export link or an error. */
  datatype PollStep = Continue | Stop(result: Result<Json>)

  /** A record without "status", or whose status type is not "complete", keeps the loop
      polling; a complete record stops it with its export link; an error stops it at once. */
  function Step(polled: Result<Fields>): (r: PollStep)
    ensures polled.Failure? ==> r == Stop(Failure(polled.error))
    // the loop goes on exactly while the record has no status, or a status of another type
    ensures polled.Success? ==>
      (r == Continue <==>
         || Find(polled.value, "status").None?
         || (&& Get(Find(polled.value, "status").value, "type").Success?
             && Get(Find(polled.value, "status").value, "type").value != JStr("complete")))
    // it stops with a link only on a complete status, and the link is its export URL
    ensures r.Stop? && r.result.Success? ==>
      && polled.Success? && Find(polled.value, "status").Some?
      && Get(Find(polled.value, "status").value, "type") == Success(JStr("complete"))
      && r.result == Get(Find(polled.value, "status").value, "exportURL")
    // a complete status stops the loop with its export URL, or with the error of reading it
    ensures polled.Success? && Find(polled.value, "status").Some?
            && Get(Find(polled.value, "status").value, "type") == Success(JStr("complete")) ==>
      r == Stop(Get(Find(polled.value, "status").value, "exportURL"))
    // a status whose type cannot be read raises that error
    ensures polled.Success? && Find(polled.value, "status").Some?
            && Get(Find(polled.value, "status").value, "type").Failure? ==>
      r == Stop(Failure(Get(Find(polled.value, "status").value, "type").error))
  {
    match polled
    case Failure(err) => Stop(Failure(err))
    case Success(record) =>
      match Find(record, "status")
      case None => Continue
      case Some(status) =>
        match Get(status, "type")
        case Failure(err) => Stop(Failure(err))
        case Success(kind) =>
          if kind == JStr("complete") then Stop(Get(status, "exportURL")) else Continue
  }

  /** A poll that read a record whose status is complete and whose export link is `url`. */
  predicate CompleteWith(polled: Result<Fields>, url: Json) {
    && polled.Success? && Find(polled.value, "status").Some?
    && Get(Find(polled.value, "status").value, "type") == Success(JStr("complete"))
    && Get(Find(polled.value, "status").value, "exportURL") == Success(url)
  }

  /** The index of the first poll that stops the loop, or the number of polls if none does. */
  function StopIndex(polled: seq<Result<Fields>>): (k: nat)
    ensures k <= |polled|
    ensures forall j :: 0 <= j < k ==> Step(polled[j]) == Continue
    ensures k < |polled| ==> Step(polled[k]).Stop?
  {
    if polled == [] then 0
    else if Step(polled[0]) == Continue then 1 + StopIndex(polled[1..])
    else 0
  }

  function Finish(r: Result<Json>): Outcome<Json> {
    match r
    case Success(url) => Done(url)
    case Failure(err) => Raised(err)
  }

  /** What the polling loop ends with over the successive poll results. */
  function WaitOutcome(polled: seq<Result<Fields>>): Outcome<Json> {
    var k := StopIndex(polled);
    if k == |polled| then Pending else Finish(Step(polled[k]).result)
  }

  /** The result of each poll of task `taskId`, one per scripted reply. */
  function Polled(token: Option<string>, taskId: Json, replies: seq<HttpReply>): (polled: seq<Result<Fields>>)
    ensures |polled| == |replies|
  {
    if replies == [] then []
    else [GetUserTaskStatus(token, taskId, replies[0]).result] + Polled(token, taskId, replies[1..])
  }

  /** How many polls the loop makes: up to and including the one that stops it. */
  function PollCount(polled: seq<Result<Fields>>): (n: nat)
    ensures n <= |polled|
    ensures n == |polled| <==> StopIndex(polled) >= |polled| - 1
    ensures StopIndex(polled) <= n
    ensures StopIndex(polled) < |polled| ==> n == StopIndex(polled) + 1
  {
    if StopIndex(polled) < |polled| then StopIndex(polled) + 1 else |polled|
  }

  /** The requests of `n` calls that each send `query`. */
  function Repeat(query: seq<Request>, n: nat): seq<Request> {
    if n == 0 then [] else Repeat(query, n - 1) + query
  }

  lemma {:induction false} RepeatMembers(query: seq<Request>, n: nat)
    ensures forall q :: q in Repeat(query, n) ==> q in query
    ensures |query| == 1 ==> |Repeat(query, n)| == n
    ensures query == [] ==> Repeat(query, n) == []
  {
    if n > 0 {
      RepeatMembers(query, n - 1);
    }
  }

  /** The k-th poll, when no earlier poll stopped the loop, stops it exactly when it is the
      first that does; the loop then ends with its result after k + 1 polls. */
  lemma StopsAt(polled: seq<Result<Fields>>, k: nat)
    requires k < |polled| && k <= StopIndex(polled)
    ensures Step(polled[k]).Stop? <==> StopIndex(polled) == k
    ensures Step(polled[k]).Stop? ==> PollCount(polled) == k + 1 && WaitOutcome(polled) == Finish(Step(polled[k]).result)
  {
  }

  /** A log of n requests that are all the one request of `query` is `query` repeated n times. */
  lemma {:induction false} RepeatOf(query: seq<Request>, n: nat, log: seq<Request>)
    requires |query| <= 1
    requires |log| == if query == [] then 0 else n
    requires forall q :: q in log ==> q in query
    ensures log == Repeat(query, n)
  {
    if n > 0 {
      if query == [] {
        RepeatOf(query, n - 1, log);
      } else {
        assert log[|log| - 1] in log;
        RepeatOf(query, n - 1, log[..|log| - 1]);
        assert log == log[..|log| - 1] + query;
      }
    }
  }

  /** The status requests the loop sends while polling task `taskId`: one getTasks request
      per poll, or none at all when there is no token. */
  function PollRequests(token: Option<string>, taskId: Json, replies: seq<HttpReply>): seq<Request> {
    Repeat(StatusQuery(token, taskId), PollCount(Polled(token, taskId, replies)))
  }

  /** What one status poll sends. */
  function StatusQuery(token: Option<string>, taskId: Json): seq<Request> {
    if Truthy(token) then [PostRequest(token.value, "getTasks", TaskStatusQuery(taskId))] else []
  }

  /** Every request of the polling loop asks for the status of the task, and none launches
      an export. */
  lemma PollRequestsAskStatus(token: Option<string>, taskId: Json, replies: seq<HttpReply>)
    ensures |PollRequests(token, taskId, replies)| == if Truthy(token) then PollCount(Polled(token, taskId, replies)) else 0
    ensures forall q :: q in PollRequests(token, taskId, replies) ==>
      Truthy(token) && q == PostRequest(token.value, "getTasks", TaskStatusQuery(taskId))
  {
    RepeatMembers(StatusQuery(token, taskId), PollCount(Polled(token, taskId, replies)));
  }

  /** The i-th poll result is the status the i-th reply gives, after the same request. */
  lemma {:induction false} PolledAt(token: Option<string>, taskId: Json, replies: seq<HttpReply>, i: nat)
    requires i < |replies|
    ensures Polled(token, taskId, replies)[i] == GetUserTaskStatus(token, taskId, replies[i]).result
    ensures GetUserTaskStatus(token, taskId, replies[i]).sent == StatusQuery(token, taskId)
  {
    if i > 0 {
      PolledAt(token, taskId, replies[1..], i - 1);
    }
  }

  /** When the first poll that stops the loop is the k-th and reports a complete task with an
      export link, the loop returns that link after k sleeps. */
  lemma CompleteAtIndex(polled: seq<Result<Fields>>, k: nat, url: Json)
    requires k < |polled|
    requires forall j :: 0 <= j < k ==> Step(polled[j]) == Continue
    requires CompleteWith(polled[k], url)
    ensures StopIndex(polled) == k
    ensures WaitOutcome(polled) == Done(url)
  {
  }

  /** When the first poll that stops the loop is the k-th and it raised, the loop raises the
      same error after k sleeps. */
  lemma ErrorAtIndex(polled: seq<Result<Fields>>, k: nat, err: Error)
    requires k < |polled|
    requires forall j :: 0 <= j < k ==> Step(polled[j]) == Continue
    requires polled[k] == Failure(err)
    ensures StopIndex(polled) == k
    ensures WaitOutcome(polled) == Raised(err)
  {
  }

  /** An HTTP error while polling, 429 included, stops the loop with that error. */
  lemma PollHttpErrorStops(token: Option<string>, taskId: Json, reply: HttpReply)
    requires Truthy(token) && IsErrorStatus(reply.status)
    ensures Step(GetUserTaskStatus(token, taskId, reply).result) == Stop(Failure(HttpError(reply.status)))
  {
  }

  /** A record without a status is still in progress. */
  lemma MissingStatusContinues(record: Fields)
    requires forall i :: 0 <= i < |record| ==> record[i].0 != "status"
    ensures Step(Success(record)) == Continue
  {
  }

  /** A complete record without an export link stops the loop with a KeyError. */
  lemma CompleteWithoutLinkRaises(record: Fields, status: Json)
    requires Find(record, "status") == Some(status)
    requires Get(status, "type") == Success(JStr("complete"))
    requires status.JObj? && Find(status.fields, "exportURL").None?
    ensures Step(Success(record)) == Stop(Failure(KeyError("exportURL")))
  {
  }

  /** Replies after the one that stops the loop are never looked at. */
  lemma {:induction false} RepliesAfterStopUnused(polled: seq<Result<Fields>>, more: seq<Result<Fields>>)
    requires StopIndex(polled) < |polled|
    ensures StopIndex(polled + more) == StopIndex(polled)
    ensures WaitOutcome(polled + more) == WaitOutcome(polled)
  {
    if Step(polled[0]) == Continue {
      assert (polled + more)[1..] == polled[1..] + more;
      RepliesAfterStopUnused(polled[1..], more);
    }
  }

  /** Polls that all leave the task in progress only delay the outcome of the polls after them. */
  lemma {:induction false} InProgressPollsDelay(polled: seq<Result<Fields>>, more: seq<Result<Fields>>)
    requires StopIndex(polled) == |polled|
    ensures StopIndex(polled + more) == |polled| + StopIndex(more)
    ensures WaitOutcome(polled + more) == WaitOutcome(more)
  {
    if polled == [] {
      assert polled + more == more;
    } else {
      var whole := polled + more;
      assert whole[0] == polled[0] && Step(polled[0]) == Continue;
      assert StopIndex(polled[1..]) == |polled| - 1;
      assert whole[1..] == polled[1..] + more;
      InProgressPollsDelay(polled[1..], more);
      assert StopIndex(whole) == 1 + StopIndex(whole[1..]);
      var k := StopIndex(more);
      if k < |more| {
        assert whole[|polled| + k] == more[k];
      }
    }
  }

  // ---------------------------------------------------------------- workspaces

  /** list(content["notion_user"].keys())[0]: the first user of the record map. */
  function UserId(content: Json): (r: Result<string>)
    ensures Get(content, "notion_user").Failure? ==> r == Failure(Get(content, "notion_user").error)
    ensures r.Success? <==>
      && Get(content, "notion_user").Success?
      && Get(content, "notion_user").value.JObj?
      && Get(content, "notion_user").value.fields != []
    ensures r.Success? ==> r.value == Keys(Get(content, "notion_user").value.fields)[0]
  {
    match Get(content, "notion_user")
    case Failure(err) => Failure(err)
    case Success(users) =>
      if !users.JObj? then Failure(AttributeError)
      else if users.fields == [] then Failure(IndexError)
      else Success(users.fields[0].0)
  }

  /** details["value"]["name"] */
  function SpaceName(details: Json): Result<Json> {
    match Get(details, "value")
    case Failure(err) => Failure(err)
    case Success(value) => Get(value, "name")
  }

  /** The (id, name) pairs of the workspaces, in the order of the record map. */
  function SpaceList(spaces: Fields): (r: Result<seq<(string, Json)>>)
    ensures r.Success? <==> forall i :: 0 <= i < |spaces| ==> SpaceName(spaces[i].1).Success?
    ensures r.Success? ==> |r.value| == |spaces|
    ensures r.Success? ==> forall i :: 0 <= i < |spaces| ==> r.value[i] == (spaces[i].0, SpaceName(spaces[i].1).value)
  {
    if spaces == [] then Success([])
    else match SpaceName(spaces[0].1)
      case Failure(err) => Failure(err)
      case Success(name) =>
        match SpaceList(spaces[1..])
        case Failure(err) => Failure(err)
        case Success(rest) => Success([(spaces[0].0, name)] + rest)
  }

  /** The workspaces of the user's content; the first user is looked up first. */
  function EnumerateSpaces(content: Json): (r: Result<seq<(string, Json)>>)
    ensures UserId(content).Failure? ==> r == Failure(UserId(content).error)
    ensures r.Success? <==>
      && UserId(content).Success?
      && Get(content, "space").Success? && Get(content, "space").value.JObj?
      && forall i :: 0 <= i < |Get(content, "space").value.fields| ==>
           SpaceName(Get(content, "space").value.fields[i].1).Success?
    ensures r.Success? ==> Keys(r.value) == Keys(Get(content, "space").value.fields)
  {
    match UserId(content)
    case Failure(err) => Failure(err)
    case Success(_) =>
      match Get(content, "space")
      case Failure(err) => Failure(err)
      case Success(spaces) =>
        if spaces.JObj? then SpaceList(spaces.fields) else Failure(AttributeError)
  }

  /** The workspace to back up: the explicit id when one was given; otherwise the answer to
      a prompt whose default is the stored id or, failing that, the first enumerated one. */
  function SelectSpace(explicit: Option<string>, stored: Option<string>, ids: seq<string>,
                       answer: Option<string>): (r: Result<string>)
    ensures Truthy(explicit) ==> r == Success(explicit.value)
    ensures !Truthy(explicit) && Truthy(stored) ==> r == Success(Prompt(stored.value, answer))
    ensures !Truthy(explicit) && !Truthy(stored) && ids != [] ==> r == Success(Prompt(ids[0], answer))
    ensures r.Failure? <==> !Truthy(explicit) && !Truthy(stored) && ids == []
    ensures r.Failure? ==> r.error == IndexError
  {
    if Truthy(explicit) then Success(explicit.value)
    else if Truthy(stored) then Success(Prompt(stored.value, answer))
    else if ids == [] then Failure(IndexError)
    else Success(Prompt(ids[0], answer))
  }

  /** In a non-interactive run the selection is the explicit id, else the stored one, else
      the first enumerated workspace. */
  lemma NonInteractiveSelection(explicit: Option<string>, stored: Option<string>, ids: seq<string>)
    requires Truthy(explicit) || Truthy(stored) || ids != []
    ensures SelectSpace(explicit, stored, ids, None) ==
      Success(if Truthy(explicit) then explicit.value else if Truthy(stored) then stored.value else ids[0])
  {
  }

  function ExportFileName(spaceId: string, date: string): string {
    "export_" + spaceId + "_" + date + ".zip"
  }

  function BlockExportFileName(spaceId: string, blockId: string, date: string): string {
    "export_" + spaceId + "_" + blockId + "_" + date + ".zip"
  }

  /** The workspace id, then the block id, can be read back from a block's file name. */
  lemma BlockExportFileNameNamesBlock(spaceId: string, blockId: string, date: string)
    ensures var name := BlockExportFileName(spaceId, blockId, date);
      var b := 8 + |spaceId|;
      && |name| == |spaceId| + |blockId| + |date| + 13
      && name[..7] == "export_" && name[7..7 + |spaceId|] == spaceId && name[7 + |spaceId|] == '_'
      && name[b..b + |blockId|] == blockId && name[b + |blockId|] == '_'
      && name[b + |blockId| + 1..|name| - 4] == date
      && name[|name| - 4..] == ".zip"
  {
  }

  /** The workspace id can be read back from the file name, so two workspaces exported on
      the same date never share a file. */
  lemma ExportFileNameNamesSpace(spaceId: string, date: string)
    ensures var name := ExportFileName(spaceId, date);
      && |name| == |spaceId| + |date| + 12
      && name[..7] == "export_" && name[7..7 + |spaceId|] == spaceId && name[7 + |spaceId|] == '_'
      && name[8 + |spaceId|..|name| - 4] == date
      && name[|name| - 4..] == ".zip"
  {
  }

  lemma {:induction false} ExportFileNameInjective(a: string, b: string, date: string)
    requires ExportFileName(a, date) == ExportFileName(b, date)
    ensures a == b
  {
    ExportFileNameNamesSpace(a, date);
    ExportFileNameNamesSpace(b, date);
  }

  // ---------------------------------------------------------------- the flows

  /** The outcome of the polling loop turned into a download to `destination`. */
  function Delivered(link: Outcome<Json>, destination: Destination, fileToken: Option<string>): Outcome<Download> {
    match link
    case Done(url) => Done(Download(url, destination, fileToken))
    case Raised(err) => Raised(err)
    case Pending => Pending
  }

  /** The requests sent and the export link obtained by launching an export and waiting
      for it. */
  datatype Export = Export(sent: seq<Request>, link: Outcome<Json>)

  /** A launch that raised stops the export with its error; otherwise its task is polled. */
  function ExportRun(token: Option<string>, launch: Call<Json>, replies: seq<HttpReply>): Export {
    match launch.result
    case Failure(err) => Export(launch.sent, Raised(err))
    case Success(taskId) =>
      Export(launch.sent + PollRequests(token, taskId, replies), WaitOutcome(Polled(token, taskId, replies)))
  }

  /** An export sends its launch and then status polls only. */
  lemma ExportRunLaunchesOnly(token: Option<string>, launch: Call<Json>, replies: seq<HttpReply>, task: Json)
    requires forall q :: q in launch.sent ==> q.endpoint == "enqueueTask" && q.body == task
    ensures ExportsOnly(ExportRun(token, launch, replies).sent, task)
  {
    if launch.result.Success? {
      PollRequestsAskStatus(token, launch.result.value, replies);
    }
  }

  /** When the k-th poll is the first that stops the loop and reads a complete task with an
      export link,
      the export ends with that link after k + 1 status requests. */
  lemma ExportCompletesAtPoll(token: Option<string>, launch: Call<Json>, replies: seq<HttpReply>, k: nat, url: Json)
    requires Truthy(token) && launch.result.Success?
    requires k < |replies|
    requires forall j :: 0 <= j < k ==> Step(Polled(token, launch.result.value, replies)[j]) == Continue
    requires CompleteWith(Polled(token, launch.result.value, replies)[k], url)
    ensures ExportRun(token, launch, replies).link == Done(url)
    ensures |ExportRun(token, launch, replies).sent| == |launch.sent| + k + 1
  {
    var polled := Polled(token, launch.result.value, replies);
    CompleteAtIndex(polled, k, url);
    PollRequestsAskStatus(token, launch.result.value, replies);
  }

  /** Logs in when no usable token is stored, and does nothing otherwise. */
  function CredentialsRun(config: map<string, Json>, s: Session): (e: Effect)
    ensures forall k :: k != "email" && k != "token" ==> Entry(e.config, k) == Entry(config, k)
    ensures NoExportLaunched(e.sent)
    ensures e.result.Success? ==> Truthy(AsText(Entry(config, "token"))) || Entry(e.config, "token").Some?
    ensures Truthy(AsText(Entry(config, "token"))) ==> e == Effect(config, [], Success(()))
    ensures !Truthy(AsText(Entry(config, "token"))) ==>
      e.sent != [] && e.sent[0] == OtpRequest(Some(EnteredEmail(AsText(Entry(config, "email")), s.emailAnswer)))
    ensures !Truthy(AsText(Entry(config, "token"))) ==> e == LoginRun(config, s)
  {
    if Truthy(AsText(Entry(config, "token"))) then Effect(config, [], Success(())) else LoginRun(config, s)
  }

  /** The credential probe: a 401 leads to one new login, any other HTTP error is ignored,
      and an error that is not an HTTP error propagates. */
  function ProbeRun(config: map<string, Json>, probe: HttpReply, relogin: Session): (e: Effect)
    ensures forall k :: k != "email" && k != "token" ==> Entry(e.config, k) == Entry(config, k)
    ensures NoExportLaunched(e.sent)
    ensures var c := GetUserContent(AsText(Entry(config, "token")), probe);
      var login := LoginRun(config, relogin);
      && |c.sent| <= |e.sent| && e.sent[..|c.sent|] == c.sent
      && (c.result == Failure(HttpError(401)) ==>
            e.config == login.config && e.result == login.result && e.sent[|c.sent|..] == login.sent)
      && (c.result.Failure? && c.result.error.HttpError? && c.result.error != HttpError(401) ==>
            e == Effect(config, c.sent, Success(())))
      && (c.result.Failure? && !c.result.error.HttpError? ==>
            e == Effect(config, c.sent, Failure(c.result.error)))
      && (c.result.Success? ==> e == Effect(config, c.sent, Success(())))
  {
    var c := GetUserContent(AsText(Entry(config, "token")), probe);
    if c.result == Failure(HttpError(401)) then
      var e := LoginRun(config, relogin);
      Effect(e.config, c.sent + e.sent, e.result)
    else
      Effect(config, c.sent, if c.result.Failure? && !c.result.error.HttpError? then Failure(c.result.error) else Success(()))
  }

  /** An HTTP error other than 401 while probing is ignored: nothing changes and the backup
      goes on. */
  lemma ProbeIgnoresOtherHttpErrors(config: map<string, Json>, probe: HttpReply, relogin: Session)
    requires Truthy(AsText(Entry(config, "token")))
    requires IsErrorStatus(probe.status) && probe.status != 401
    ensures ProbeRun(config, probe, relogin) ==
      Effect(config, [PostRequest(AsText(Entry(config, "token")).value, "loadUserContent", JObj([]))], Success(()))
  {
  }

  /** The credential steps a workspace backup starts with: log in when no token is stored,
      then probe the token and log in again when it has expired. */
  function AuthRun(config: map<string, Json>, remote: Remote): (e: Effect)
    ensures forall k :: k != "email" && k != "token" ==> Entry(e.config, k) == Entry(config, k)
    ensures NoExportLaunched(e.sent)
  {
    var first := CredentialsRun(config, remote.login);
    if first.result.Failure? then first
    else
      var probe := ProbeRun(first.config, remote.probe, remote.relogin);
      Effect(probe.config, first.sent + probe.sent, probe.result)
  }

  /** A stored token is probed first; unless the probe is refused with 401, nothing else is
      sent and the configuration does not change. */
  lemma StoredTokenIsProbedFirst(config: map<string, Json>, remote: Remote)
    requires Truthy(AsText(Entry(config, "token")))
    ensures var e := AuthRun(config, remote);
      && e.sent != []
      && e.sent[0] == PostRequest(AsText(Entry(config, "token")).value, "loadUserContent", JObj([]))
      && (remote.probe.status != 401 ==> e.config == config && |e.sent| == 1)
  {
  }

  /** A stored token the probe refuses with 401 is replaced by one new login, whose outcome
      is the outcome of the credential steps. */
  lemma ExpiredTokenLogsInAgain(config: map<string, Json>, remote: Remote)
    requires Truthy(AsText(Entry(config, "token"))) && remote.probe.status == 401
    ensures var e := AuthRun(config, remote);
      var login := LoginRun(config, remote.relogin);
      && e.config == login.config && e.result == login.result
      && e.sent == [PostRequest(AsText(Entry(config, "token")).value, "loadUserContent", JObj([]))] + login.sent
  {
  }

  /** Without a stored token the user logs in first; a login that fails ends the credential
      steps before any probe. */
  lemma MissingTokenLogsInFirst(config: map<string, Json>, remote: Remote)
    requires !Truthy(AsText(Entry(config, "token")))
    ensures var e := AuthRun(config, remote);
      && e.sent[0] == OtpRequest(Some(EnteredEmail(AsText(Entry(config, "email")), remote.login.emailAnswer)))
      && (LoginRun(config, remote.login).result.Failure? ==> e == LoginRun(config, remote.login))
  {
  }

  /** A first-time login that succeeds is followed by the probe, made with the fresh token;
      the outcome of the credential steps is then the outcome of that probe. */
  lemma FirstLoginIsProbed(config: map<string, Json>, remote: Remote)
    requires !Truthy(AsText(Entry(config, "token")))
    requires LoginRun(config, remote.login).result.Success?
    ensures var e := AuthRun(config, remote);
      var login := LoginRun(config, remote.login);
      var probe := ProbeRun(login.config, remote.probe, remote.relogin);
      var issued := remote.login.tokenReply.cookies["token_v2"];
      && e == Effect(probe.config, login.sent + probe.sent, probe.result)
      && (issued != "" ==> e.sent[|login.sent|] == PostRequest(issued, "loadUserContent", JObj([])))
  {
    var login := LoginRun(config, remote.login);
    assert AsText(Entry(login.config, "token")) == Some(remote.login.tokenReply.cookies["token_v2"]);
  }

  /** The outcome of the workspace selection: the requests sent, the workspace selected when
      it is valid, the enumerated ids, and the id selected before it was checked. */
  datatype Choice = Choice(sent: seq<Request>, result: Result<string>, ids: seq<string>, chosen: Option<string>)

  /** Enumerates the workspaces, selects one and checks that it was enumerated. */
  function ChooseRun(explicit: Option<string>, config: map<string, Json>, content: HttpReply,
                     selection: Option<string>): (c: Choice)
    ensures c.sent == GetUserContent(AsText(Entry(config, "token")), content).sent
    ensures c.chosen.Some? ==>
      && Get(content.body, "recordMap").Success?
      && EnumerateSpaces(Get(content.body, "recordMap").value).Success?
      && c.ids == Keys(EnumerateSpaces(Get(content.body, "recordMap").value).value)
      && SelectSpace(explicit, AsText(Entry(config, "space_id")), c.ids, selection) == Success(c.chosen.value)
    ensures NoExportLaunched(c.sent)
    ensures c.result.Success? <==> c.chosen.Some? && c.chosen.value in c.ids
    ensures c.result.Success? ==> c.result.value == c.chosen.value
    ensures c.chosen.Some? && c.chosen.value !in c.ids ==> c.result == Failure(SpaceNotInList)
  {
    var user := GetUserContent(AsText(Entry(config, "token")), content);
    match user.result
    case Failure(err) => Choice(user.sent, Failure(err), [], None)
    case Success(recordMap) =>
      match EnumerateSpaces(recordMap)
      case Failure(err) => Choice(user.sent, Failure(err), [], None)
      case Success(spaces) =>
        var ids := Keys(spaces);
        match SelectSpace(explicit, AsText(Entry(config, "space_id")), ids, selection)
        case Failure(err) => Choice(user.sent, Failure(err), ids, None)
        case Success(id) => Choice(user.sent, if id in ids then Success(id) else Failure(SpaceNotInList), ids, Some(id))
  }

  /** The first step of the selection that fails decides its error; when every step
      succeeds the selection is kept, checked or not. */
  lemma ChooseStopsAtFirstFailure(explicit: Option<string>, config: map<string, Json>, content: HttpReply,
                                  selection: Option<string>)
    ensures var c := ChooseRun(explicit, config, content, selection);
      var user := GetUserContent(AsText(Entry(config, "token")), content);
      if user.result.Failure? then c.result == Failure(user.result.error) && c.chosen.None?
      else if EnumerateSpaces(user.result.value).Failure? then
        c.result == Failure(EnumerateSpaces(user.result.value).error) && c.chosen.None?
      else
        var ids := Keys(EnumerateSpaces(user.result.value).value);
        var selected := SelectSpace(explicit, AsText(Entry(config, "space_id")), ids, selection);
        && c.ids == ids
        && (selected.Failure? ==> c.result == Failure(IndexError) && c.chosen.None?)
        && (selected.Success? ==> c.chosen == Some(selected.value))
  {
  }

  /** The configuration, the requests sent, the download, and the selection of a whole
      workspace backup. */
  datatype SpaceBackup = SpaceBackup(
    config: map<string, Json>, sent: seq<Request>, outcome: Outcome<Download>, ids: seq<string>, chosen: Option<string>)

  /** Credentials, workspace selection, export, polling, and the download it ends with. */
  function SpaceBackupRun(explicit: Option<string>, outputDir: string, config: map<string, Json>,
                          remote: Remote, date: string): SpaceBackup
  {
    var auth := AuthRun(config, remote);
    if auth.result.Failure? then SpaceBackup(auth.config, auth.sent, Raised(auth.result.error), [], None)
    else
      var rest := ChosenSpaceBackup(explicit, outputDir, auth.config, remote, date);
      SpaceBackup(rest.config, auth.sent + rest.sent, rest.outcome, rest.ids, rest.chosen)
  }

  /** Once the credentials are in place: workspace selection, export, polling, and the
      download it ends with. */
  function ChosenSpaceBackup(explicit: Option<string>, outputDir: string, config: map<string, Json>,
                             remote: Remote, date: string): SpaceBackup
  {
    var choice := ChooseRun(explicit, config, remote.content, remote.selection);
    if choice.result.Failure? then
      SpaceBackup(config, choice.sent, Raised(choice.result.error), choice.ids, choice.chosen)
    else
      var space := choice.result.value;
      var stored := config["space_id" := JStr(space)];
      var token := AsText(Entry(stored, "token"));
      var x := ExportRun(token, LaunchSpaceExportTask(token, space, remote.launch), remote.polls);
      var destination := File(outputDir + "/" + ExportFileName(space, date));
      SpaceBackup(stored, choice.sent + x.sent,
                  Delivered(x.link, destination, AsText(Entry(stored, "file_token"))), choice.ids, choice.chosen)
  }

  /** After the credentials, a workspace that was not selected or not enumerated is
      rejected before anything is stored or launched. */
  lemma ChosenSpaceRejectsUnlisted(explicit: Option<string>, outputDir: string, config: map<string, Json>,
                                   remote: Remote, date: string)
    ensures var b := ChosenSpaceBackup(explicit, outputDir, config, remote, date);
      && (b.chosen.None? || b.chosen.value !in b.ids ==> b.outcome.Raised? && b.config == config && NoExportLaunched(b.sent))
      && (b.chosen.Some? && b.chosen.value !in b.ids ==> b.outcome == Raised(SpaceNotInList))
  {
  }

  /** After the credentials, a valid selection is stored and its export is the only one
      launched. */
  lemma ChosenSpaceExported(explicit: Option<string>, outputDir: string, config: map<string, Json>,
                            remote: Remote, date: string)
    ensures var b := ChosenSpaceBackup(explicit, outputDir, config, remote, date);
      b.chosen.Some? && b.chosen.value in b.ids ==>
        && b.config == config["space_id" := JStr(b.chosen.value)]
        && ExportsOnly(b.sent, SpaceExportTask(b.chosen.value))
  {
    var b := ChosenSpaceBackup(explicit, outputDir, config, remote, date);
    if b.chosen.Some? && b.chosen.value in b.ids {
      var choice := ChooseRun(explicit, config, remote.content, remote.selection);
      var stored := config["space_id" := JStr(b.chosen.value)];
      var token := AsText(Entry(stored, "token"));
      var launch := LaunchSpaceExportTask(token, b.chosen.value, remote.launch);
      var x := ExportRun(token, launch, remote.polls);
      assert b.sent == choice.sent + x.sent && b.config == stored;
      ExportRunLaunchesOnly(token, launch, remote.polls, SpaceExportTask(b.chosen.value));
      ExportsOnlyAfter(choice.sent, x.sent, SpaceExportTask(b.chosen.value));
    }
  }

  /** After the credentials, the download is the link the polls of the launched export
      ended with, named after the workspace. */
  lemma ChosenSpaceDownload(explicit: Option<string>, outputDir: string, config: map<string, Json>,
                            remote: Remote, date: string)
    ensures var b := ChosenSpaceBackup(explicit, outputDir, config, remote, date);
      b.outcome.Done? ==>
        && b.chosen.Some? && b.chosen.value in b.ids
        && Get(remote.launch.body, "taskId").Success?
        && WaitOutcome(Polled(AsText(Entry(b.config, "token")), Get(remote.launch.body, "taskId").value,
                              remote.polls)) == Done(b.outcome.value.url)
        && b.outcome.value.destination == File(outputDir + "/" + ExportFileName(b.chosen.value, date))
        && b.outcome.value.fileToken == AsText(Entry(b.config, "file_token"))
  {
  }

  /** The selection: the explicit id, else the answer to a prompt offering the stored id or
      the first enumerated workspace, among the workspaces of the user's content. */
  lemma SpaceBackupSelection(explicit: Option<string>, outputDir: string, config: map<string, Json>,
                             remote: Remote, date: string)
    ensures var b := SpaceBackupRun(explicit, outputDir, config, remote, date);
      b.chosen.Some? ==>
        && Get(remote.content.body, "recordMap").Success?
        && EnumerateSpaces(Get(remote.content.body, "recordMap").value).Success?
        && b.ids == Keys(EnumerateSpaces(Get(remote.content.body, "recordMap").value).value)
        && SelectSpace(explicit, AsText(Entry(config, "space_id")), b.ids, remote.selection) == Success(b.chosen.value)
  {
    var auth := AuthRun(config, remote);
    if auth.result.Success? {
      var choice := ChooseRun(explicit, auth.config, remote.content, remote.selection);
      assert Entry(auth.config, "space_id") == Entry(config, "space_id");
    }
  }

  /** A workspace that was not selected or not enumerated is rejected: nothing is stored and
      nothing is launched. */
  lemma SpaceBackupRejectsUnlisted(explicit: Option<string>, outputDir: string, config: map<string, Json>,
                                   remote: Remote, date: string)
    ensures var b := SpaceBackupRun(explicit, outputDir, config, remote, date);
      && (b.chosen.None? || b.chosen.value !in b.ids ==>
            && b.outcome.Raised?
            && Entry(b.config, "space_id") == Entry(config, "space_id")
            && NoExportLaunched(b.sent))
      && (b.chosen.Some? && b.chosen.value !in b.ids ==> b.outcome == Raised(SpaceNotInList))
  {
    var auth := AuthRun(config, remote);
    if auth.result.Success? {
      ChosenSpaceRejectsUnlisted(explicit, outputDir, auth.config, remote, date);
      assert Entry(auth.config, "space_id") == Entry(config, "space_id");
    }
  }

  /** A valid selection is stored for the next run, the only export launched is the export
      of that workspace, and the download is the link the polls of that export ended with,
      written to export_<id>_<date>.zip in the output directory. */
  lemma SpaceBackupExportsChosen(explicit: Option<string>, outputDir: string, config: map<string, Json>,
                                 remote: Remote, date: string)
    ensures var b := SpaceBackupRun(explicit, outputDir, config, remote, date);
      && (b.chosen.Some? && b.chosen.value in b.ids ==>
            && Entry(b.config, "space_id") == Some(JStr(b.chosen.value))
            && ExportsOnly(b.sent, SpaceExportTask(b.chosen.value)))
      && (b.outcome.Done? ==>
            && b.chosen.Some? && b.chosen.value in b.ids
            && Get(remote.launch.body, "taskId").Success?
            && WaitOutcome(Polled(AsText(Entry(b.config, "token")), Get(remote.launch.body, "taskId").value,
                                  remote.polls)) == Done(b.outcome.value.url)
            && b.outcome.value.destination == File(outputDir + "/" + ExportFileName(b.chosen.value, date))
            && b.outcome.value.fileToken == AsText(Entry(b.config, "file_token")))
  {
    var auth := AuthRun(config, remote);
    if auth.result.Success? {
      ChosenSpaceRejectsUnlisted(explicit, outputDir, auth.config, remote, date);
      ChosenSpaceExported(explicit, outputDir, auth.config, remote, date);
      ChosenSpaceDownload(explicit, outputDir, auth.config, remote, date);
    }
  }

  /** After the credentials: when the selection succeeds, the launch returns a task id, and
      the first poll that stops the loop reads a complete task with export link `url`, the
      backup downloads `url` into export_<id>_<date>.zip with the stored file token. */
  lemma ChosenSpaceCompletes(explicit: Option<string>, outputDir: string, config: map<string, Json>,
                             remote: Remote, date: string, k: nat, url: Json)
    requires Truthy(AsText(Entry(config, "token")))
    requires ChooseRun(explicit, config, remote.content, remote.selection).result.Success?
    requires !IsErrorStatus(remote.launch.status) && Get(remote.launch.body, "taskId").Success?
    requires k < |remote.polls|
    requires var polled := Polled(AsText(Entry(config, "token")), Get(remote.launch.body, "taskId").value, remote.polls);
      && (forall j :: 0 <= j < k ==> Step(polled[j]) == Continue)
      && CompleteWith(polled[k], url)
    ensures var space := ChooseRun(explicit, config, remote.content, remote.selection).result.value;
      ChosenSpaceBackup(explicit, outputDir, config, remote, date).outcome ==
        Done(Download(url, File(outputDir + "/" + ExportFileName(space, date)), AsText(Entry(config, "file_token"))))
  {
    var space := ChooseRun(explicit, config, remote.content, remote.selection).result.value;
    var stored := config["space_id" := JStr(space)];
    var token := AsText(Entry(stored, "token"));
    assert token == AsText(Entry(config, "token"));
    var launch := LaunchSpaceExportTask(token, space, remote.launch);
    ExportCompletesAtPoll(token, launch, remote.polls, k, url);
    assert Entry(stored, "file_token") == Entry(config, "file_token");
  }

  /** When the credentials and the selection succeed, the launch returns a task id, and the
      first poll that stops the loop reads a complete task with export link `url`, the backup
      downloads `url` into export_<id>_<date>.zip with the file token stored before the run. */
  lemma SpaceBackupCompletes(explicit: Option<string>, outputDir: string, config: map<string, Json>,
                             remote: Remote, date: string, k: nat, url: Json)
    requires AuthRun(config, remote).result.Success?
    requires Truthy(AsText(Entry(AuthRun(config, remote).config, "token")))
    requires ChooseRun(explicit, AuthRun(config, remote).config, remote.content, remote.selection).result.Success?
    requires !IsErrorStatus(remote.launch.status) && Get(remote.launch.body, "taskId").Success?
    requires k < |remote.polls|
    requires var polled := Polled(AsText(Entry(AuthRun(config, remote).config, "token")),
                                  Get(remote.launch.body, "taskId").value, remote.polls);
      && (forall j :: 0 <= j < k ==> Step(polled[j]) == Continue)
      && CompleteWith(polled[k], url)
    ensures var space := ChooseRun(explicit, AuthRun(config, remote).config, remote.content, remote.selection).result.value;
      SpaceBackupRun(explicit, outputDir, config, remote, date).outcome ==
        Done(Download(url, File(outputDir + "/" + ExportFileName(space, date)), AsText(Entry(config, "file_token"))))
  {
    var auth := AuthRun(config, remote);
    ChosenSpaceCompletes(explicit, outputDir, auth.config, remote, date, k, url);
    assert Entry(auth.config, "file_token") == Entry(config, "file_token");
  }

  /** Only the e-mail address, the token and the workspace id are written by a backup. */
  lemma SpaceBackupKeepsSettings(explicit: Option<string>, outputDir: string, config: map<string, Json>,
                                 remote: Remote, date: string)
    ensures var b := SpaceBackupRun(explicit, outputDir, config, remote, date);
      forall k :: k != "email" && k != "token" && k != "space_id" ==> Entry(b.config, k) == Entry(config, k)
  {
    var auth := AuthRun(config, remote);
    if auth.result.Success? {
      ChosenSpaceRejectsUnlisted(explicit, outputDir, auth.config, remote, date);
      ChosenSpaceExported(explicit, outputDir, auth.config, remote, date);
    }
  }

  /** The configuration, the requests sent and the export link of a block export. */
  datatype BlockExport = BlockExport(config: map<string, Json>, sent: seq<Request>, link: Outcome<Json>)

  /** Logs in when needed, launches the export of one block and waits for it. */
  function BlockExportRun(config: map<string, Json>, space: string, blockId: string, args: ExportArgs,
                          remote: BlockRemote): BlockExport
  {
    var first := CredentialsRun(config, remote.login);
    if first.result.Failure? then BlockExport(first.config, first.sent, Raised(first.result.error))
    else
      var token := AsText(Entry(first.config, "token"));
      var x := ExportRun(token, LaunchBlockExportTask(token, space, blockId, args, remote.launch), remote.polls);
      BlockExport(first.config, first.sent + x.sent, x.link)
  }

  /** A block export launches only the export of that block, and writes no setting but the
      e-mail address and the token. */
  lemma BlockExportLaunchesOnly(config: map<string, Json>, space: string, blockId: string, args: ExportArgs,
                                remote: BlockRemote)
    ensures var b := BlockExportRun(config, space, blockId, args, remote);
      && ExportsOnly(b.sent, BlockExportTask(space, blockId, args))
      && forall k :: k != "email" && k != "token" ==> Entry(b.config, k) == Entry(config, k)
  {
    var first := CredentialsRun(config, remote.login);
    if first.result.Success? {
      var token := AsText(Entry(first.config, "token"));
      ExportRunLaunchesOnly(token, LaunchBlockExportTask(token, space, blockId, args, remote.launch), remote.polls,
                            BlockExportTask(space, blockId, args));
    }
  }

  /** With a stored token the export is launched at once; without one the user logs in
      first. */
  lemma BlockExportLogsInOnlyWithoutToken(config: map<string, Json>, space: string, blockId: string,
                                          args: ExportArgs, remote: BlockRemote)
    ensures var b := BlockExportRun(config, space, blockId, args, remote);
      var token := AsText(Entry(config, "token"));
      && (Truthy(token) ==>
            && b.config == config
            && b.sent[0] == PostRequest(token.value, "enqueueTask", BlockExportTask(space, blockId, args)))
      && (!Truthy(token) ==>
            b.sent[0] == OtpRequest(Some(EnteredEmail(AsText(Entry(config, "email")), remote.login.emailAnswer))))
  {
  }

  /** The export link is the one the polls of the launched task ended with. */
  lemma BlockExportDone(config: map<string, Json>, space: string, blockId: string, args: ExportArgs,
                        remote: BlockRemote)
    ensures var b := BlockExportRun(config, space, blockId, args, remote);
      b.link.Done? ==>
        && Get(remote.launch.body, "taskId").Success?
        && WaitOutcome(Polled(AsText(Entry(b.config, "token")), Get(remote.launch.body, "taskId").value, remote.polls))
           == b.link
  {
  }

  /** When the credentials succeed, the launch returns a task id, and the first poll that
      stops the loop reads a complete task with export link `url`, the block export ends with
      that link after the launch and k + 1 status requests. */
  lemma BlockExportCompletes(config: map<string, Json>, space: string, blockId: string, args: ExportArgs,
                             remote: BlockRemote, k: nat, url: Json)
    requires CredentialsRun(config, remote.login).result.Success?
    requires Truthy(AsText(Entry(CredentialsRun(config, remote.login).config, "token")))
    requires !IsErrorStatus(remote.launch.status) && Get(remote.launch.body, "taskId").Success?
    requires k < |remote.polls|
    requires var polled := Polled(AsText(Entry(CredentialsRun(config, remote.login).config, "token")),
                                  Get(remote.launch.body, "taskId").value, remote.polls);
      && (forall j :: 0 <= j < k ==> Step(polled[j]) == Continue)
      && CompleteWith(polled[k], url)
    ensures var first := CredentialsRun(config, remote.login);
      var b := BlockExportRun(config, space, blockId, args, remote);
      && b.link == Done(url)
      && |b.sent| == |first.sent| + 1 + k + 1
  {
    var first := CredentialsRun(config, remote.login);
    var token := AsText(Entry(first.config, "token"));
    var launch := LaunchBlockExportTask(token, space, blockId, args, remote.launch);
    ExportCompletesAtPoll(token, launch, remote.polls, k, url);
  }

  // ---------------------------------------------------------------- the service

  class BackupService {
    const outputDir: string
    const spaceId: Option<string>
    const configuration: ConfigurationService
    /** Every request issued to the service, in order. */
    var sent: seq<Request>

    ghost predicate Valid()
      reads this, configuration
    {
      configuration.Valid()
    }

    constructor (outputDir: string, disk: ConfigFile, spaceId: Option<string>)
      ensures Valid() && fresh(configuration)
      ensures this.outputDir == outputDir && this.spaceId == spaceId && sent == []
      ensures configuration.config == if disk.Saved? then disk.snapshot else DefaultConfig()
    {
      this.outputDir := outputDir;
      this.spaceId := spaceId;
      configuration := new ConfigurationService(disk);
      sent := [];
    }

    /** Prompts for the e-mail address, stores it, requests a temporary password, prompts
        for it, and stores the session token obtained with it. */
    method Login(s: Session) returns (r: Result<()>)
      requires Valid()
      modifies this, configuration
      ensures Valid()
      ensures var e := LoginRun(old(configuration.config), s);
        configuration.config == e.config && sent == old(sent) + e.sent && r == e.result
    {
      var email := EnteredEmail(AsText(configuration.Get("email")), s.emailAnswer);
      configuration.WriteKey("email", JStr(email));
      var ask := AskOtp(AsText(configuration.Get("email")), s.otpReply);
      sent := sent + ask.sent;
      if ask.result.Failure? {
        return Failure(ask.result.error);
      }
      var otp := Prompt("", s.otpAnswer);
      var login := GetToken(ask.result.value, otp, s.tokenReply);
      sent := sent + login.sent;
      if login.result.Failure? {
        return Failure(login.result.error);
      }
      configuration.WriteKey("token", JStr(login.result.value));
      r := Success(());
    }

    /** Logs in when no usable token is stored, and does nothing otherwise. */
    method EnsureCredentialsAvailable(s: Session) returns (r: Result<()>)
      requires Valid()
      modifies this, configuration
      ensures Valid()
      ensures forall k :: k != "email" && k != "token" ==> Entry(configuration.config, k) == Entry(old(configuration.config), k)
      ensures var e := CredentialsRun(old(configuration.config), s);
        configuration.config == e.config && sent == old(sent) + e.sent && r == e.result
    {
      var token := AsText(configuration.Get("token"));
      if !Truthy(token) {
        r := Login(s);
      } else {
        r := Success(());
      }
    }

    /** Probes the stored token once: a 401 leads to one new login, any other HTTP error is
        ignored, and an error that is not an HTTP error propagates. */
    method ConfirmCredentials(probe: HttpReply, relogin: Session) returns (r: Result<()>)
      requires Valid()
      modifies this, configuration
      ensures Valid()
      ensures forall k :: k != "email" && k != "token" ==> Entry(configuration.config, k) == Entry(old(configuration.config), k)
      ensures var e := ProbeRun(old(configuration.config), probe, relogin);
        configuration.config == e.config && sent == old(sent) + e.sent && r == e.result
    {
      var c := GetUserContent(AsText(configuration.Get("token")), probe);
      sent := sent + c.sent;
      if c.result == Failure(HttpError(401)) {
        ghost var afterProbe := sent;
        r := Login(relogin);
        Appended(old(sent), c.sent, sent[|afterProbe|..]);
      } else if c.result.Failure? && !c.result.error.HttpError? {
        r := Failure(c.result.error);
      } else {
        r := Success(());
      }
    }

    /** Polls the task until a poll stops the loop, sleeping STATUS_WAIT_TIME seconds after
        every poll that leaves the task in progress. */
    method WaitForTask(taskId: Json, replies: seq<HttpReply>)
      returns (outcome: Outcome<Json>, polls: nat, slept: nat, requests: seq<Request>)
      ensures var token := AsText(configuration.Get("token"));
        var polled := Polled(token, taskId, replies);
        && outcome == WaitOutcome(polled)
        && polls == PollCount(polled)
        && slept == STATUS_WAIT_TIME * StopIndex(polled)
        && requests == PollRequests(token, taskId, replies)
    {
      var token := AsText(configuration.Get("token"));
      ghost var polled := Polled(token, taskId, replies);
      ghost var stop := StopIndex(polled);
      ghost var query := StatusQuery(token, taskId);
      polls, slept, requests := 0, 0, [];
      while polls < |replies|
        invariant polls <= |replies| && polls <= stop
        invariant slept == STATUS_WAIT_TIME * polls
        invariant |requests| == if query == [] then 0 else polls
        invariant forall q :: q in requests ==> q in query
        decreases |replies| - polls
      {
        var status := GetUserTaskStatus(token, taskId, replies[polls]);
        PolledAt(token, taskId, replies, polls);
        requests := requests + status.sent;
        var step := Step(status.result);
        StopsAt(polled, polls);
        if step.Stop? {
          polls := polls + 1;
          outcome := Finish(step.result);
          RepeatOf(query, polls, requests);
          return;
        }
        polls := polls + 1;
        slept := slept + STATUS_WAIT_TIME;
      }
      assert stop == |replies| && PollCount(polled) == polls;
      outcome := Pending;
      RepeatOf(query, polls, requests);
    }

    /** The credential steps a workspace backup starts with. */
    method Authenticate(remote: Remote) returns (ok: Result<()>)
      requires Valid()
      modifies this, configuration
      ensures Valid()
      ensures var e := AuthRun(old(configuration.config), remote);
        configuration.config == e.config && sent == old(sent) + e.sent && ok == e.result
    {
      ok := EnsureCredentialsAvailable(remote.login);
      if ok.Success? {
        ghost var afterLogin := sent;
        ok := ConfirmCredentials(remote.probe, remote.relogin);
        Appended(old(sent), afterLogin[|old(sent)|..], sent[|afterLogin|..]);
      }
    }

    /** Enumerates the workspaces, selects one, checks that it was enumerated and stores it
        as the default for the next run. */
    method ChooseSpace(content: HttpReply, selection: Option<string>)
      returns (r: Result<string>, ids: seq<string>, chosen: Option<string>)
      requires Valid()
      modifies this, configuration
      ensures Valid()
      ensures var c := ChooseRun(spaceId, old(configuration.config), content, selection);
        && sent == old(sent) + c.sent
        && r == c.result && ids == c.ids && chosen == c.chosen
        && configuration.config ==
             if r.Success? then old(configuration.config)["space_id" := JStr(r.value)] else old(configuration.config)
    {
      ids, chosen := [], None;
      var c := GetUserContent(AsText(configuration.Get("token")), content);
      sent := sent + c.sent;
      if c.result.Failure? {
        return Failure(c.result.error), ids, chosen;
      }
      var spaces := EnumerateSpaces(c.result.value);
      if spaces.Failure? {
        return Failure(spaces.error), ids, chosen;
      }
      ids := Keys(spaces.value);
      var selected := SelectSpace(spaceId, AsText(configuration.Get("space_id")), ids, selection);
      if selected.Failure? {
        return Failure(selected.error), ids, chosen;
      }
      chosen := Some(selected.value);
      if selected.value !in ids {
        return Failure(SpaceNotInList), ids, chosen;
      }
      configuration.WriteKey("space_id", JStr(selected.value));
      r := Success(selected.value);
    }

    /** Backs up a whole workspace: credentials, workspace selection, export, polling, and
        the download it ends with. */
    method BackupSpaceInteractive(remote: Remote, date: string)
      returns (r: Outcome<Download>, ids: seq<string>, chosen: Option<string>)
      requires Valid()
      modifies this, configuration
      ensures Valid()
      ensures var b := SpaceBackupRun(spaceId, outputDir, old(configuration.config), remote, date);
        && configuration.config == b.config && sent == old(sent) + b.sent
        && r == b.outcome && ids == b.ids && chosen == b.chosen
    {
      ids, chosen := [], None;
      var ok := Authenticate(remote);
      if ok.Failure? {
        return Raised(ok.error), ids, chosen;
      }
      ghost var afterAuth := sent;
      r, ids, chosen := BackupChosenSpace(remote, date);
      Appended(old(sent), afterAuth[|old(sent)|..], sent[|afterAuth|..]);
    }

    /** Selects the workspace, stores it, exports it and names the file it is downloaded
        into. */
    method BackupChosenSpace(remote: Remote, date: string)
      returns (r: Outcome<Download>, ids: seq<string>, chosen: Option<string>)
      requires Valid()
      modifies this, configuration
      ensures Valid()
      ensures var b := ChosenSpaceBackup(spaceId, outputDir, old(configuration.config), remote, date);
        && configuration.config == b.config && sent == old(sent) + b.sent
        && r == b.outcome && ids == b.ids && chosen == b.chosen
    {
      var selected;
      selected, ids, chosen := ChooseSpace(remote.content, remote.selection);
      if selected.Failure? {
        return Raised(selected.error), ids, chosen;
      }
      ghost var afterChoice := sent;
      r := ExportSpace(selected.value, remote.launch, remote.polls, date);
      Appended(old(sent), afterChoice[|old(sent)|..], sent[|afterChoice|..]);
    }

    /** Records the launch of an export and, when it returned a task id, waits for that
        task. */
    method AwaitExport(launch: Call<Json>, replies: seq<HttpReply>) returns (link: Outcome<Json>)
      modifies this
      ensures var x := ExportRun(AsText(configuration.Get("token")), launch, replies);
        sent == old(sent) + x.sent && link == x.link
    {
      sent := sent + launch.sent;
      if launch.result.Failure? {
        return Raised(launch.result.error);
      }
      var polls, slept, requests;
      link, polls, slept, requests := WaitForTask(launch.result.value, replies);
      Appended(old(sent), launch.sent, requests);
      sent := sent + requests;
    }

    /** Launches the export of a workspace, waits for it, and names the file it is
        downloaded into. */
    method ExportSpace(space: string, launchReply: HttpReply, pollReplies: seq<HttpReply>, date: string)
      returns (r: Outcome<Download>)
      modifies this
      ensures var token := AsText(configuration.Get("token"));
        var x := ExportRun(token, LaunchSpaceExportTask(token, space, launchReply), pollReplies);
        && sent == old(sent) + x.sent
        && r == Delivered(x.link, File(outputDir + "/" + ExportFileName(space, date)), AsText(configuration.Get("file_token")))
    {
      var launch := LaunchSpaceExportTask(AsText(configuration.Get("token")), space, launchReply);
      var link := AwaitExport(launch, pollReplies);
      match link {
        case Done(url) =>
          var fileName := ExportFileName(space, date);
          r := Done(Download(url, File(outputDir + "/" + fileName), AsText(configuration.Get("file_token"))));
        case Raised(err) =>
          r := Raised(err);
        case Pending =>
          r := Pending;
      }
    }

    /** Logs in when needed, launches the export of one block and waits for it. */
    method ExportBlock(space: string, blockId: string, args: ExportArgs, remote: BlockRemote)
      returns (link: Outcome<Json>)
      requires Valid()
      modifies this, configuration
      ensures Valid()
      ensures var b := BlockExportRun(old(configuration.config), space, blockId, args, remote);
        configuration.config == b.config && sent == old(sent) + b.sent && link == b.link
    {
      var ok := EnsureCredentialsAvailable(remote.login);
      if ok.Failure? {
        return Raised(ok.error);
      }
      ghost var afterLogin := sent;
      var launch := LaunchBlockExportTask(AsText(configuration.Get("token")), space, blockId, args, remote.launch);
      link := AwaitExport(launch, remote.polls);
      Appended(old(sent), afterLogin[|old(sent)|..], sent[|afterLogin|..]);
    }

    /** Backs up one block into export_<space>_<block>_<date>.zip, with the export options
        passed. */
    method BackupBlock(space: string, blockId: string, args: ExportArgs, remote: BlockRemote, date: string)
      returns (r: Outcome<Download>)
      requires Valid()
      modifies this, configuration
      ensures Valid()
      ensures var b := BlockExportRun(old(configuration.config), space, blockId, args, remote);
        && configuration.config == b.config && sent == old(sent) + b.sent
        && r == Delivered(b.link, File(outputDir + "/" + BlockExportFileName(space, blockId, date)),
                          AsText(Entry(b.config, "file_token")))
    {
      var link := ExportBlock(space, blockId, args, remote);
      match link {
        case Done(url) =>
          var path := outputDir + "/" + BlockExportFileName(space, blockId, date);
          r := Done(Download(url, File(path), AsText(configuration.Get("file_token"))));
        case Raised(err) =>
          r := Raised(err);
        case Pending =>
          r := Pending;
      }
    }

    /** Exports one block with the default options and downloads it into memory. */
    method RetrieveBlock(space: string, blockId: string, remote: BlockRemote)
      returns (r: Outcome<Download>)
      requires Valid()
      modifies this, configuration
      ensures Valid()
      ensures var b := BlockExportRun(old(configuration.config), space, blockId, NO_EXPORT_ARGS, remote);
        && configuration.config == b.config && sent == old(sent) + b.sent
        && r == Delivered(b.link, Memory, AsText(Entry(b.config, "file_token")))
    {
      var link := ExportBlock(space, blockId, NO_EXPORT_ARGS, remote);
      match link {
        case Done(url) =>
          r := Done(Download(url, Memory, AsText(configuration.Get("file_token"))));
        case Raised(err) =>
          r := Raised(err);
        case Pending =>
          r := Pending;
      }
    }
  }
}
