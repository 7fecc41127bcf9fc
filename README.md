# notion-backup, modelled in Dafny

notion-backup saves a Notion workspace, or a single block, as a zip export. It works in four steps:

1. It logs in with an e-mail address and a temporary password, and stores the session token in a small JSON configuration file.
2. It picks the workspace to export.
3. It asks Notion's private API to start an export task.
4. It polls that task every ten seconds until the export is complete, then downloads the zip from the export link.

This project models the decision logic of those steps and proves what it promises.

- `errors.dfy` (module `Errors`): `Option`, `Result`, and the exceptions the program raises or lets through.
- `json.dfy` (module `JsonValues`): parsed JSON values, with Python's subscript (`value[key]`, a `KeyError` or `TypeError` when it fails) and iteration. An object is an ordered list of members, because the order of a Python dict decides which workspace is the default.
- `configuration.dfy` (module `Configuration`): the configuration store, a class with the in-memory map and the file's content as fields. The file is `Missing`, `Corrupt` (not JSON) or `Saved(snapshot)`.
- `notion_client.dfy` (module `NotionClient`): the API client. Each call is a pure function of its arguments and the reply the service gives (status, parsed body, cookies). It returns the requests it issued together with its result or error, so "raises before sending anything" can be stated.
- `backup_service.dfy` (module `Backup`): the backup service. It is a class that owns a configuration store and keeps a log of every request issued.
  - The remote side is a script of replies.
  - Each prompt is the answer the user types, or `None` when they accept the offered default.
  - The polling loop consumes one scripted reply per poll.

Where the files disagree:

- The callers read settings with `get_string_key`, but the store only defines `get_key`. The model has one lookup, `ConfigurationService.Get`. The callers read its result as text with `AsText`: a JSON string, or absent.
- `BackupService.__init__` passes a directory to `ConfigurationService(...)`, whose constructor takes no argument. The model's store takes the file's current content instead.
- The credential probe catches only `requests.exceptions.HTTPError`. A missing token or a missing `recordMap` during the probe therefore propagates. The model follows the code: any other HTTP error is ignored, and errors that are not HTTP errors are raised.

## Model

| member | source | states |
|---|---|---|
| `Configuration.ConfigurationService.constructor` | notion_backup/configuration_service.py:10-12 | Loading gives the saved snapshot. A missing or corrupt file gives `{"version": 1}`: version 1 is set and every other key is absent. The file always ends up holding the map. |
| `Configuration.ConfigurationService.Get` | notion_backup/configuration_service.py:14-15 | A key is present exactly when it was stored, and then the stored value is returned. |
| `Configuration.ConfigurationService.WriteKey` | notion_backup/configuration_service.py:17-19 | Afterwards the key maps to the value and every other key is unchanged. The file holds the whole new map. |
| `Configuration.ConfigurationService.CreateDefaultConfig` | notion_backup/configuration_service.py:21-23 | The map becomes `{"version": 1}` and is persisted. |
| `Configuration.ConfigurationService.ReadConfig` | notion_backup/configuration_service.py:25-35 | A saved file is loaded as is. A missing or corrupt one is replaced by the persisted default. |
| `Configuration.ConfigurationService.SaveConfig` | notion_backup/configuration_service.py:37-40 | The file becomes a snapshot of the whole map. |
| `Configuration.Reload` | notion_backup/configuration_service.py:25-28 | A store loaded from what another store persisted holds the same map, so every key reads the same. |
| `NotionClient.AskOtp` | notion_backup/notion_client.py:12-28 | Sends one `sendTemporaryPassword` request with the stored e-mail. It succeeds exactly when the status is not an error, `csrfState` is present and the `csrf` cookie is set. The CSRF values are taken from the reply. An error status raises that `HttpError`. |
| `NotionClient.GetToken` | notion_backup/notion_client.py:30-38 | Sends one `loginWithEmail` request with the CSRF state, the password and the CSRF cookie. The token is the `token_v2` cookie. It fails on an error status or when that cookie is missing. |
| `NotionClient.SendPostRequest` | notion_backup/notion_client.py:40-51 | Without a non-empty token it raises `TokenNotSet` and sends nothing. Otherwise it sends exactly one request carrying the token cookie, and returns the body or the `HttpError` of an error status. |
| `NotionClient.GetUserContent` | notion_backup/notion_client.py:53-54 | The result is the reply's `recordMap`. It succeeds exactly when a token is set, the status is OK and `recordMap` is present. Without a token it raises `TokenNotSet` and sends nothing. An error status raises its `HttpError`. A missing `recordMap` raises the error of that lookup. |
| `NotionClient.SpaceExportTaskPayload` | notion_backup/notion_client.py:56-72 | The workspace export has event `exportSpace`, the given `spaceId` and export type `markdown`, and names no block. |
| `NotionClient.LaunchSpaceExportTask` | notion_backup/notion_client.py:56-72 | It enqueues exactly that payload. The result is exactly the reply's `taskId`, and it succeeds exactly when a token is set, the status is OK and `taskId` is present. Otherwise it raises `TokenNotSet` with nothing sent, the `HttpError` of the status, or the error of looking up `taskId`, in that order. |
| `NotionClient.BlockExportTaskTargetsBlock` | notion_backup/notion_client.py:78-87 | The block export has event `exportBlock`, `block.id` set to the block id and `block.spaceId` set to the workspace id. |
| `NotionClient.BlockExportTaskFlags` | notion_backup/notion_client.py:74-96 | `recursive` and `shouldExportComments` are the arguments passed, or `false` when not passed. |
| `NotionClient.BlockExportTaskFormat` | notion_backup/notion_client.py:74-96 | `exportType` is the argument passed, or `html` when not passed. |
| `NotionClient.BlockExportTaskContents` | notion_backup/notion_client.py:74-96 | `includeContents` is the argument passed, or `no_files` when not passed. |
| `NotionClient.LaunchBlockExportTask` | notion_backup/notion_client.py:74-100 | It enqueues the block payload for the given arguments. The result is exactly the reply's `taskId`, under the same success condition and the same errors as the workspace launch. |
| `NotionClient.Matching` | notion_backup/notion_client.py:107-109 | The filter succeeds exactly when every result has an `id`. It keeps only results whose `id` is the requested one, and it is empty exactly when none has it. A failure carries the error of the first result without an `id`. |
| `NotionClient.MatchingKeepsFirstMatch` | notion_backup/notion_client.py:107-109 | The first result with the requested id is the first element the filter keeps. |
| `NotionClient.TaskResults` | notion_backup/notion_client.py:103-105 | A missing `results` raises its error. An array gives its entries. Any success comes from a present `results` that Python can iterate. |
| `NotionClient.GetUserTaskStatus` | notion_backup/notion_client.py:102-109 | Sends one `getTasks` query for the task. The returned record has the requested `id`. No match raises `IndexError`. A missing token or an error status raises before or at the request. |
| `NotionClient.TaskStatusIsFirstMatch` | notion_backup/notion_client.py:102-109 | The lookup returns the first result whose id is the requested one. |
| `Backup.EnteredEmail` | notion_backup/backup_service.py:31-35 | A typed address wins. When the user only confirms, the address is the stored one if it is non-empty, else the empty string. |
| `Backup.LoginRun` | notion_backup/backup_service.py:30-44 | The entered e-mail is stored and used for the password request, which is always the first request sent. On success the stored token is the `token_v2` cookie. On failure the token is unchanged. No other key changes and no export is launched. |
| `Backup.LoginStopsAtFirstFailure` | notion_backup/backup_service.py:36-43 | A failing password request ends the login with its error and nothing after it is sent. Otherwise the token request follows it, and a failing token request ends the login with its own error. |
| `Backup.LoginSucceedsIff` | notion_backup/backup_service.py:38-43 | The login succeeds exactly when the first reply has no error status, a `csrfState` and a `csrf` cookie, and the second has no error status and a `token_v2` cookie. On success the second request carries that CSRF state and cookie and the typed password. |
| `Backup.BackupService.Login` | notion_backup/backup_service.py:30-44 | Its effect on the store, the requests it issues and its result are those of `LoginRun`. |
| `Backup.CredentialsRun` | notion_backup/backup_service.py:60-64 | With a non-empty stored token nothing is sent and nothing changes. Without one it is exactly the login, whose first request is the password request for the entered e-mail. No key other than `email` and `token` changes and no export is launched. On success a token is stored. |
| `Backup.BackupService.EnsureCredentialsAvailable` | notion_backup/backup_service.py:60-64 | Its effect on the store, the requests it issues and its result are those of `CredentialsRun`, and no key other than `email` and `token` changes. |
| `Backup.ProbeRun` | notion_backup/backup_service.py:93-98 | The probe request goes first. On a 401 the store, the result and the rest of the requests are those of one login. Any other HTTP error is ignored and nothing changes. An error that is not an HTTP error propagates with nothing changed. A successful probe changes nothing. No key other than `email` and `token` changes, and no export is launched. |
| `Backup.ProbeIgnoresOtherHttpErrors` | notion_backup/backup_service.py:93-98 | An HTTP error other than 401 is ignored: only the probe is sent, nothing changes, and the backup goes on. |
| `Backup.BackupService.ConfirmCredentials` | notion_backup/backup_service.py:93-98 | Its effect, requests and result are those of `ProbeRun`: a 401 leads to exactly one new login, any other HTTP error is ignored, and an error that is not an HTTP error propagates. |
| `Backup.AuthRun` | notion_backup/backup_service.py:90-98 | The credential steps launch no export and change no key other than `email` and `token`. |
| `Backup.StoredTokenIsProbedFirst` | notion_backup/backup_service.py:91-98 | With a stored token the first request is the probe. Unless the probe is refused with 401, it is the only request and the store does not change. |
| `Backup.ExpiredTokenLogsInAgain` | notion_backup/backup_service.py:93-98 | A probe refused with 401 is followed by exactly one login. The outcome, the store and the requests after the probe are those of that login. |
| `Backup.MissingTokenLogsInFirst` | notion_backup/backup_service.py:60-64 | Without a stored token the first request is the password request for the entered e-mail. A failed login ends the credential steps before any probe. |
| `Backup.FirstLoginIsProbed` | notion_backup/backup_service.py:91-98 | A first-time login that succeeds is followed by the probe, made with the fresh `token_v2`. The store, the result and the rest of the requests are then those of that probe. |
| `Backup.BackupService.Authenticate` | notion_backup/backup_service.py:90-98 | Its effect on the store, the requests it issues and its result are those of `AuthRun`: log in when no token is stored, then the probe step. |
| `Backup.Step` | notion_backup/backup_service.py:72-86 | A poll that raised stops the loop with its error. Otherwise the loop goes on exactly when the record has no `status`, or a status whose type is readable and not `complete`. A status whose `type` cannot be read raises that error. A `complete` status stops the loop with its `exportURL`, or with the error of reading it, and that is the only way it stops with a link. |
| `Backup.StopIndex` | notion_backup/backup_service.py:71-84 | The index of the first poll that ends the loop: every earlier poll continues, and the poll at that index stops. |
| `Backup.PollCount` | notion_backup/backup_service.py:71-84 | The loop polls up to and including the first poll that stops it. It uses every reply exactly when no poll before the last one stops it. |
| `Backup.StopsAt` | notion_backup/backup_service.py:72-84 | When no earlier poll stopped the loop, a poll stops it exactly when it is the first one to do so. The loop then ends with its result after k+1 polls. |
| `Backup.PollRequestsAskStatus` | notion_backup/backup_service.py:71-74 | The loop sends one `getTasks` query for the task per poll, or nothing without a token, and never launches an export. |
| `Backup.BackupService.WaitForTask` | notion_backup/backup_service.py:71-88 | The outcome is that of the first stopping poll: the export link or the error. It makes `PollCount` polls, sleeps `STATUS_WAIT_TIME`·k seconds for the first stopping poll at index k, and sends exactly `PollRequests`. |
| `Backup.CompleteAtIndex` | notion_backup/backup_service.py:79-88 | When the k-th poll is the first that stops the loop and reads a record whose status is `complete` with `exportURL` url, the loop returns url after k sleeps. |
| `Backup.ErrorAtIndex` | notion_backup/backup_service.py:73-78 | A poll that raises ends the loop with that same error. |
| `Backup.PollHttpErrorStops` | notion_backup/backup_service.py:73-78 | An HTTP error while polling, 429 included, stops the loop at once with that error. |
| `Backup.MissingStatusContinues` | notion_backup/backup_service.py:79-84 | A record without `status` is in progress: the loop sleeps and polls again. |
| `Backup.CompleteWithoutLinkRaises` | notion_backup/backup_service.py:79-86 | A complete record without `exportURL` raises `KeyError("exportURL")` instead of returning. |
| `Backup.RepliesAfterStopUnused` | notion_backup/backup_service.py:71-80 | Replies after the one that ends the loop change neither where it stops nor its outcome. |
| `Backup.InProgressPollsDelay` | notion_backup/backup_service.py:71-84 | Polls that are all in progress only shift where the loop stops, and leave its outcome unchanged. |
| `Backup.ExportRunLaunchesOnly` | notion_backup/backup_service.py:126-129 | An export sends its launch and then status polls only, so the launched task is the only export. |
| `Backup.ExportCompletesAtPoll` | notion_backup/backup_service.py:126-129 | After a successful launch, when the k-th poll is the first to stop and reads a complete task with export link url, the export ends with url after the launch and k+1 status requests. |
| `Backup.BackupService.AwaitExport` | notion_backup/backup_service.py:126-129 | It records the launch. A launch that raised ends with that error. Otherwise it polls the returned task, and the requests and link are those of `ExportRun`. |
| `Backup.UserId` | notion_backup/backup_service.py:102 | The first key of `notion_user`. It succeeds exactly when `notion_user` is a non-empty object, and a missing `notion_user` raises its `KeyError`. |
| `Backup.SpaceList` | notion_backup/backup_service.py:105-108 | The workspace list pairs each id, in record-map order, with `value.name`. It fails exactly when some workspace lacks one. |
| `Backup.EnumerateSpaces` | notion_backup/backup_service.py:102-108 | The first user is looked up first, and its error propagates. It succeeds exactly when `space` is an object whose entries all have a name. The ids are the keys of `space`, in order. |
| `Backup.SelectSpace` | notion_backup/backup_service.py:113-118 | An explicit id wins. Otherwise the prompt's default is the stored id, else the first enumerated one. It raises `IndexError` exactly when there is no explicit id, no stored id and no workspace. |
| `Backup.NonInteractiveSelection` | notion_backup/backup_service.py:113-118 | Accepting the defaults selects the explicit id, else the stored one, else the first enumerated workspace. |
| `Backup.ChooseRun` | notion_backup/backup_service.py:100-121 | Only the content request is sent, and no export. When an id was selected, the content and its enumeration succeeded and `SelectSpace` chose that id. The result succeeds exactly when the selected id was enumerated. A selected id that was not enumerated raises `SpaceNotInList`. |
| `Backup.ChooseStopsAtFirstFailure` | notion_backup/backup_service.py:100-121 | The first failing step decides the error: the content request, then the enumeration, then the selection's `IndexError`. When all of them succeed the selection is kept. |
| `Backup.BackupService.ChooseSpace` | notion_backup/backup_service.py:100-123 | Its requests, result, ids and selection are those of `ChooseRun`. `space_id` is written exactly when the result succeeds, and otherwise the store is unchanged. |
| `Backup.ChosenSpaceRejectsUnlisted` | notion_backup/backup_service.py:100-123 | After the credentials, a workspace that was not selected or not enumerated is rejected before anything is stored or launched. |
| `Backup.ChosenSpaceExported` | notion_backup/backup_service.py:120-129 | After the credentials, a valid selection is stored, and its export is the only one launched. |
| `Backup.ChosenSpaceDownload` | notion_backup/backup_service.py:125-136 | After the credentials, a finished backup downloads the link the polls ended with into `export_<id>_<date>.zip`, using the stored file token. |
| `Backup.ChosenSpaceCompletes` | notion_backup/backup_service.py:100-136 | After the credentials, suppose a valid selection, a launch that returns a `taskId`, and a first stopping poll that reads a complete task with link url. Then the backup downloads url into `export_<id>_<date>.zip` with the stored file token. |
| `Backup.BackupService.BackupChosenSpace` | notion_backup/backup_service.py:100-136 | Its store, requests, outcome, ids and selection are those of `ChosenSpaceBackup`. |
| `Backup.SpaceBackupSelection` | notion_backup/backup_service.py:100-118 | The selection is made among the workspaces of the user's content, by `SelectSpace` with the id stored before the run. |
| `Backup.SpaceBackupRejectsUnlisted` | notion_backup/backup_service.py:90-123 | A failure before a workspace is chosen, or a workspace that was not enumerated, raises. It leaves `space_id` unchanged and launches no export. An unlisted id raises `SpaceNotInList`. |
| `Backup.SpaceBackupExportsChosen` | notion_backup/backup_service.py:120-136 | A valid selection stores `space_id`, and the only export launched is that workspace's. A finished backup downloads the link the polls ended with into `export_<id>_<date>.zip`, using the stored file token. |
| `Backup.SpaceBackupCompletes` | notion_backup/backup_service.py:90-136 | Suppose the credentials and the selection succeed, the launch returns a `taskId`, and the first stopping poll reads a complete task with link url. Then the backup downloads url into `export_<id>_<date>.zip` with the file token stored before the run. |
| `Backup.SpaceBackupKeepsSettings` | notion_backup/backup_service.py:90-136 | A backup writes no key other than `email`, `token` and `space_id`. |
| `Backup.BackupService.BackupSpaceInteractive` | notion_backup/backup_service.py:90-136 | Its store, requests, outcome, ids and selection are exactly those of `SpaceBackupRun`. A credential failure raises its error before any selection. |
| `Backup.BackupService.ExportSpace` | notion_backup/backup_service.py:125-136 | Its requests are those of `ExportRun` for the launch of the workspace export. Its outcome is that export's link, delivered to `export_<id>_<date>.zip` under the output directory with the stored file token. |
| `Backup.ExportFileNameNamesSpace` | notion_backup/backup_service.py:131 | The export file name is `export_`, the workspace id, `_`, the date, then `.zip`, so the id can be read back from the name. |
| `Backup.ExportFileNameInjective` | notion_backup/backup_service.py:131 | Two workspaces exported on the same date never share a file name. |
| `Backup.BlockExportFileNameNamesBlock` | notion_backup/backup_service.py:144-146 | The block file name is `export_`, the workspace id, `_`, the block id, `_`, the date, ending in `.zip`. |
| `Backup.BlockExportLaunchesOnly` | notion_backup/backup_service.py:138-141 | A block export launches only the export of that block with the given arguments. It writes no key other than `email` and `token`. |
| `Backup.BlockExportLogsInOnlyWithoutToken` | notion_backup/backup_service.py:138-140 | With a stored token the first request is the block export launch and the store is unchanged. Without one the first request is the password request. |
| `Backup.BlockExportDone` | notion_backup/backup_service.py:140-141 | A finished block export's link is the one the polls of the launched task ended with. |
| `Backup.BlockExportCompletes` | notion_backup/backup_service.py:138-141 | Suppose the credentials succeed, the launch returns a `taskId`, and the first stopping poll reads a complete task with link url. Then the block export ends with url after the credential requests, the launch and k+1 status requests. |
| `Backup.BackupService.ExportBlock` | notion_backup/backup_service.py:138-141 | Its store, requests and link are those of `BlockExportRun`: the credential step, then the launch and the polls. |
| `Backup.BackupService.BackupBlock` | notion_backup/backup_service.py:138-148 | Its store and requests are those of `BlockExportRun`. Its outcome is that export's link delivered to `export_<space>_<block>_<date>.zip` with the stored file token. |
| `Backup.BackupService.RetrieveBlock` | notion_backup/backup_service.py:150-158 | Like `BackupBlock` with the default export options. The link is delivered into memory. |
| `Backup.BackupService.constructor` | notion_backup/backup_service.py:22-28 | It keeps the output directory and the explicit workspace id, opens the configuration store, and starts with no requests sent. |

## Left out

- HTTP transport (`requests`, sessions, JSON decoding of replies): each call receives its reply as a parameter, and a reply body that is not JSON is not modelled.
- `_download_file`: the chunked download, the progress bar and the `Content-Length` handling are I/O. The model stops at the `Download` value: link, destination and file token.
- `_extract_zip`: `RetrieveBlock` returns the in-memory download, not the extracted file contents, because the zip format is not modelled.
- Prompts and `print`: a prompt is an answer given as input.
- `sleep` and `datetime.now()`: sleeping is counted in seconds, and the date is an input string.
- `main` is not part of this model. It passes `space_id` positionally into the `config_dir` parameter of `BackupService`, so the command-line workspace id would never reach the service.
- The check that the output directory exists in `BackupService.__init__` is a file-system query.
- The configuration file's byte format (indentation, sorted keys, trailing newline), its permissions, and a JSON file whose top level is not an object are not modelled.
- `_create_default_config` stores the module-level `DEFAULT_CONFIG` dict itself, so later writes alter that shared dict. Python object identity is not modelled: each store gets its own map.
- JSON objects with repeated member names and Python's order-insensitive dict equality are not modelled. Lookups take the first member, and equality is structural.
- Backup.BackupService.WaitForTask: the source polls without bound, and the model polls at most once per scripted reply. When the replies run out while the task is still in progress, the outcome is `Pending`, which the source never returns.
- Exceptions from the file system, and integer widths, are not modelled. This covers saving the configuration, and any read error in `_read_config` other than a missing file or invalid JSON, which the source lets propagate.
- JSON numbers are integers only, and JSON equality is structural. A non-integer number in a reply is not modelled, and neither is Python's cross-type `==` in the task-id filter of `get_user_task_status` (`True == 1`, `1 == 1.0`).
- The block export options are a record with one optional field per keyword that `launch_block_export_task` accepts. An unknown keyword in `**export_options`, which raises `TypeError` before any request, cannot be expressed.
- The configuration file's location (`.notion_backup.conf` in the home directory) and the API root URL are not modelled. The store holds the file's content, and a request is named by its endpoint.
