# miniman: Docker, network, command and user management

miniman is a small Flask application for managing a Linux host from the browser. This project
models, in Dafny, the layers of it that decide what happens to its data:

- **Docker management** (`app/utils/docker/`): the command runner with its captured and streamed
  modes, JSON-lines parsing, the container, image, volume and network managers (which command line
  each operation runs and how the listing output becomes rows), the Docker Compose manager
  (downloading, checking and updating a stack's compose file, `up`/`down`/`restart`/`pull`, and the
  `up`/`down`/`partial`/`error` status), and the operation loggers with their database mirror and
  Socket.IO events.
- **Socket.IO helpers** (`app/utils/websocket_manager.py`): room names and event payloads.
- **Docker records and controllers** (`app/models/docker.py`, `app/controllers/docker.py`): the
  compose configuration and container rows, the four tables refreshed from the runtime listings,
  tagging a stack's containers, and the add, check, update, run, stop, restart, pull and delete
  handlers, as well as the volume-label form.
- **Network interfaces** (`app/models/network.py`, `app/controllers/network.py`): the interface
  row and its partial update, the refresh from the system listing, and the configuration form.
- **Diagnostic commands** (`app/utils/command_utils.py`): the allow-list, argument validation and
  how a run is reported.
- **Users** (`app/controllers/auth.py`): the administrator guard, the login redirect and adding,
  editing and deleting users.

Processes, HTTP fetches, JSON and YAML parsing, date parsing, the word splitter and the clock are
not executed: each is a parameter (`ProcessOutcome`, `StreamOutcome`, `Fetch`, `Decoder`/`Encoder`,
`YamlCheck`, `DateParser`, `lex`, `now`). An object that the source updates in place is a class
(`OperationLogger`, `SocketHub`, `ComposeManager`, `DockerStore`, `UserStore`, `NetworkInterface`,
`InterfaceStore`), and every database table is a map keyed by the table's unique column. Loops of the
source are methods with loop invariants, each proved equal to a recursive specification function,
and the properties are proved about those functions.

Commands without a contract of their own (`docker network rm`, `connect`, `disconnect`, the
`inspect` commands of images, volumes and networks) are modelled as the argument vectors they build
(`Networks.RemoveArgv`, `Networks.ConnectArgv`, `Images.InspectArgv`, `Volumes.InspectArgv`,
`Networks.InspectArgv`) run through `DockerBase.RunCommand` and `DockerBase.Inspect`.

## Model

| member | source | states |
|---|---|---|
| Text.TrimLeft | app/utils/docker/base.py:158 | `lstrip()`: a suffix of its argument that does not start with whitespace, and everything removed is whitespace |
| Text.TrimRight | app/utils/docker/base.py:158 | `rstrip()`: a prefix of its argument that does not end with whitespace, and everything removed is whitespace |
| Text.Strip | app/utils/docker/base.py:158 | `strip()`: no longer than its argument, and neither starts nor ends with whitespace |
| Text.StripBlank | app/utils/command_utils.py:99 | `s.strip()` is empty exactly when `s` is all whitespace |
| Text.StripTight | app/utils/docker/base.py:158 | a string without surrounding whitespace is its own `strip()` |
| Text.Split | app/utils/docker/base.py:195 | `split(d)`: at least one part, none containing `d` |
| Text.JoinSplit | app/utils/docker/base.py:171-195 | joining the parts of a split with the separator gives back the string |
| Text.SplitJoin | app/utils/docker/base.py:171-195 | splitting a join of parts that hold no separator gives back the parts |
| Text.WordPrefix | app/utils/docker/container.py:150 | the leading run of non-whitespace characters |
| Text.Words | app/utils/docker/container.py:150 | `split()`: whitespace-free, non-empty words, and none exactly when the text is blank |
| Text.WordsJoin | app/utils/docker/container.py:150 | splitting words that were joined by single spaces gives back exactly those words, in order |
| Auth.AdminRequired | app/controllers/auth.py:11-19 | the wrapped handler's result is reached exactly when the current user is an administrator; everyone else is redirected to the login page |
| Auth.NonAdminNeverHandled | app/controllers/auth.py:11-19 | for a non-administrator the outcome is the same redirect whatever the wrapped handler is |
| Auth.LoginTarget | app/controllers/auth.py:35-38 | after a login the redirect goes to `next` exactly when it is given and starts with `/`, otherwise to the dashboard |
| Auth.LoginTargetLocal | app/controllers/auth.py:35-38 | the login redirect is either the dashboard or a target starting with `/`, and any target other than the dashboard is the `next` argument itself |
| Auth.LoginTargetOffSite | app/controllers/auth.py:35-38 | as written, `next=//evil.example/x` (and `/\evil.example/x`) is followed, although it names another site |
| Auth.SafeLoginTarget | app/controllers/auth.py:35-38 | the intended target: the dashboard or a path on this site (a leading `/` not followed by `/` or a backslash), and `next` exactly when it is such a path |
| Auth.SafeAgreesOnLocal | app/controllers/auth.py:35-38 | for a `next` that is a path on this site, the intended target is the one the login already follows |
| Auth.FirstWithUsername | app/controllers/auth.py:31 | `filter_by(username=…).first()`: the first row with that username, and no earlier row has it; none when no row has it |
| Auth.FirstWithEmail | app/controllers/auth.py:82 | `filter_by(email=…).first()`: the first row with that email, and no earlier row has it; none when no row has it |
| Auth.IndexOfId | app/controllers/auth.py:102 | `get_or_404(user_id)`: the position of the row with that primary key, or none when no row has it |
| Auth.EditRefusalMeaning | app/controllers/auth.py:110-120 | with unique usernames and emails, an edit is refused exactly when another user already holds the username or the email, and a clash on the username is reported as such |
| Auth.UserStore.constructor | app/controllers/auth.py:66-155 | an empty user table satisfies the key and uniqueness invariants |
| Auth.UserStore.Login | app/controllers/auth.py:22-42 | the visitor is sent to the dashboard as already logged in exactly when authenticated; otherwise a login succeeds exactly when the first user with that username verifies the password, and then logs that user in and goes to the login target; a refusal means no such user or a wrong password |
| Auth.UserStore.AddUser | app/controllers/auth.py:66-95 | a taken username, then a taken email, is refused with its message, the table and the next id unchanged; otherwise exactly one user is appended with the next id, which then advances by one; keys stay distinct and usernames/emails stay unique |
| Auth.UserStore.EditUser | app/controllers/auth.py:97-137 | an unknown id is not found; a clash with another user is refused and changes nothing; otherwise only that row changes, its password only when a non-empty one is given; invariants are kept |
| Auth.UserStore.DeleteUser | app/controllers/auth.py:139-155 | an unknown id is not found; deleting one's own account is refused and changes nothing; otherwise exactly that row is removed and no row with that id remains; invariants are kept |
| Auth.EditKeepsUnique | app/controllers/auth.py:122-129 | overwriting one row keeps primary keys distinct and bounded, and keeps usernames and emails unique when no other row holds the new values |
| Auth.DeleteKeeps | app/controllers/auth.py:151-152 | removing one row shifts the later rows down by one, removes its id from the table, and keeps keys distinct and usernames and emails unique |
| DockerBase.RunCommand | app/utils/docker/base.py:97-126 | success is exit status 0 when output is captured or the exit status is checked, and any finished run otherwise; a checked non-zero exit reports the captured stderr, an exception reports its message, and otherwise the captured stdout (or nothing) is returned |
| DockerBase.RunCommandChecked | app/utils/docker/base.py:97-126 | a captured, checked run returns what `RunCommand` describes |
| DockerBase.RunCommandUnchecked | app/utils/docker/base.py:97-126 | a captured, unchecked run returns what `RunCommand` describes |
| DockerBase.StripAllAt | app/utils/docker/base.py:157-159 | each collected output line is the corresponding raw line with surrounding whitespace removed |
| DockerBase.StreamResult | app/utils/docker/base.py:163-182 | a streamed run succeeds exactly when the process exited with status 0; a crash reports its message |
| DockerBase.StreamStepsShape | app/utils/docker/base.py:140-182 | the logger receives the start line, every stripped output line in order, and one closing line, and is completed exactly once with the run's success |
| DockerBase.StreamTextLines | app/utils/docker/base.py:171-176 | the returned text of a finished run splits back on newlines into exactly the stripped output lines |
| DockerBase.LogOutputLine | app/utils/docker/base.py:160-161 | logging one output line appends one line step and keeps the logger and its database row in step |
| DockerBase.ForwardLines | app/utils/docker/base.py:156-161 | the collected output is the stripped raw lines, and the logger received exactly one line per output line, in order |
| DockerBase.CloseRun | app/utils/docker/base.py:167-182 | the closing line and the completion are logged, and the logger ends completed or failed according to the outcome at the given time |
| DockerBase.StreamCalls | app/utils/docker/base.py:140-182 | the calls made one by one on the logger amount to the whole logged sequence of the run |
| DockerBase.RunCommandWithStreaming | app/utils/docker/base.py:128-182 | returns the run's success and text, and leaves the logger (and its database row) having received the whole logged sequence and completed at the given time |
| DockerBase.ParsedLinesSound | app/utils/docker/base.py:194-201 | at most one result per line, and every result is the decoding of some non-empty line |
| DockerBase.ParseJsonOutput | app/utils/docker/base.py:184-201 | the results are the successful decodings of the non-empty lines of the stripped output, in order, skipping lines that do not decode |
| DockerBase.ParseBlank | app/utils/docker/base.py:194-201 | blank output parses to no results |
| DockerBase.ParsedEncodings | app/utils/docker/base.py:194-201 | decoding the lines of encoded values that round-trip gives back the values |
| DockerBase.ParseRoundTrip | app/utils/docker/base.py:184-201 | parsing the newline-joined encodings of a non-empty list of values gives back exactly the list |
| DockerBase.Rows | app/utils/docker/container.py:36-45 | one row per parsed document, or none at all when some document is not an object (the `.get` failure is caught and the listing is empty) |
| DockerBase.RowsMeaning | app/utils/docker/container.py:36-50 | rows exist exactly when every parsed document is an object, and then row k is built from document k |
| DockerBase.RowsFailurePersists | app/utils/docker/container.py:36-50 | once a prefix of the documents holds a non-object, the whole listing fails |
| DockerBase.BuildRows | app/utils/docker/container.py:36-47 | the loop builds exactly the rows `Rows` describes |
| DockerBase.Listing | app/utils/docker/container.py:25-50 | a listing whose command did not exit with status 0 is empty |
| DockerBase.ListRows | app/utils/docker/container.py:25-50 | runs the checked listing command, parses its output and builds the rows, with the empty list on any failure |
| DockerBase.Inspect | app/utils/docker/container.py:196-210 | inspection succeeds exactly when the command exited with status 0 and its non-blank output decodes to a non-empty array; the result is then its first element, and `{}` otherwise |
| Containers.GetContainers | app/utils/docker/container.py:15-50 | the containers listed are the rows of `docker ps -a` as `Listing` describes |
| Containers.ContainerListing | app/utils/docker/container.py:36-45 | after a successful listing command there is one row per parsed document when all are objects and none otherwise; each row takes its id and name from the document's `ID` and `Names`, defaulting to the empty string |
| Containers.OpArgvShape | app/utils/docker/container.py:63-159 | every container command starts with `docker` and ends with the container id, except `exec`, which puts the id third and follows it with the command's words; `rm` holds `-f` exactly when forced (or the id itself is `-f`) |
| Containers.RunContainerOp | app/utils/docker/container.py:52-159 | logs, start, stop, restart, remove and exec run their own command line, captured and unchecked |
| Containers.ContainerStats | app/utils/docker/container.py:171-184 | stats succeed exactly when the command exited with status 0 and its non-blank output decodes; the result is the decoded value, and `{}` otherwise |
| Containers.InspectContainer | app/utils/docker/container.py:186-210 | inspection returns what `Inspect` describes |
| Containers.EndsCompleted | app/utils/docker/container.py:229-271 | a log sequence whose last step is a completion leaves the logger in the state that completion names |
| Containers.StreamStepsLast | app/utils/docker/base.py:163-182 | a streamed run always logs at least two steps and its last step is its completion |
| Containers.FollowEnds | app/utils/docker/container.py:255-266 | following a running container's logs ends in the state of the streamed run |
| Containers.ContainerLogOutcome | app/utils/docker/container.py:212-271 | streaming a container's logs always completes the logger: failed when the container is missing or its state unreadable, completed when it is stopped, and as the streamed run went when it is running |
| Containers.StreamContainerLogs | app/utils/docker/container.py:212-271 | logs the state line and then the steps of the chosen plan (not found, stopped, following since the start time), forwards exactly those calls to the database log, ends completed at `now`, and runs the matching `docker logs` command, if any |
| Containers.ShowPastLogs | app/utils/docker/container.py:240-252 | a stopped container: the logger and its database log receive the state line, the notice, the past logs and the closing line, and the logger is completed successfully at `now` |
| Containers.PastLogsCalls | app/utils/docker/container.py:240-252 | the four groups of calls made one after another, and their forwarding to the database log, amount to the stopped plan's calls |
| Containers.FollowLogs | app/utils/docker/container.py:255-271 | a running container: the logger and its database log receive the state line and the notice, then the followed run since the start time, or the error when the start time is not a string; the logger ends completed at `now` |
| Containers.LogLine | app/utils/docker/logger.py:36-45 | a logger, when there is one, receives exactly one more line, forwarded to its database log, and keeps its end time |
| Containers.LogAndComplete | app/utils/docker/logger.py:47-57 | a logger, when there is one, receives a line and then a completion, both forwarded to its database log, and ends completed at `now` |
| Images.GetImages | app/utils/docker/image.py:15-45 | the images listed are the rows of `docker images` as `Listing` describes |
| Images.ImageListing | app/utils/docker/image.py:33-45 | one row per parsed document when all are objects, none otherwise; repository, tag, id, creation time and size come from the document's fields, defaulting to "" |
| Images.RemoveArgvShape | app/utils/docker/image.py:74-76 | `docker rmi` ends with the image id and holds `-f` exactly when forced (or the id is `-f`) |
| Images.PullImage | app/utils/docker/image.py:47-61 | a pull streams exactly `docker pull <name>`, with or without a logger, and returns the run's result; the logger and its database log receive the run's steps, and the logger ends at `now` in the run's status |
| Images.RemoveImage | app/utils/docker/image.py:63-82 | removal runs `docker rmi` captured and unchecked |
| Images.BuildImage | app/utils/docker/image.py:84-106 | the command is `docker build -t <tag> <path>` either way; with a logger the build is streamed, whose steps reach the logger and its database log, ending at `now` in the run's status; without one it runs captured and unchecked |
| Volumes.GetVolumes | app/utils/docker/volume.py:16-53 | the volumes listed are the rows of `docker volume ls` as `Listing` describes |
| Volumes.VolumeCreated | app/utils/docker/volume.py:34-48 | each row takes its name from `Name`, and has a creation time exactly when `CreatedAt` is present and parses |
| Volumes.LabelArgs | app/utils/docker/volume.py:70-72 | two arguments per label |
| Volumes.LabelArgsAt | app/utils/docker/volume.py:70-72 | label i becomes `--label` followed by `key=value`, in order |
| Volumes.CreateArgvShape | app/utils/docker/volume.py:67-75 | the create command names the driver, then every label in order, then the volume name last |
| Volumes.CreateVolume | app/utils/docker/volume.py:55-81 | the loop builds the create command line, which then runs captured and unchecked |
| Volumes.RemoveArgvShape | app/utils/docker/volume.py:94-96 | `docker volume rm` ends with the name and grows by one exactly when forced, `-f` then standing right before the name; `-f` occurs exactly when forced or when it is the name |
| Networks.GetNetworks | app/utils/docker/network.py:16-54 | the networks listed are the rows of `docker network ls` as `Listing` describes |
| Networks.NetworkListing | app/utils/docker/network.py:34-50 | each row takes its id, name, driver and scope from `ID`, `Name`, `Driver` and `Scope`, and has a creation time exactly when `CreatedAt` is present and parses, which is then the parsed value |
| Networks.CreateArgvShape | app/utils/docker/network.py:69-80 | the create command names the driver, adds `--subnet` and `--gateway` only when given and non-empty, and ends with the name |
| Networks.CreateNetwork | app/utils/docker/network.py:56-86 | creation runs that command line captured and unchecked |
| Networks.ConnectArgvShape | app/utils/docker/network.py:130-162 | connect and disconnect name the network and then the container, and differ from each other |
| Compose.PathJoin | app/utils/docker/compose.py:62 | `os.path.join`: an absolute second part replaces the first; otherwise the result starts with the first part and ends with the second |
| Compose.LastSlash | app/utils/docker/compose.py:170 | the position of the last `/`, with no `/` after it, or -1 when there is none |
| Compose.TrimSlashes | app/utils/docker/compose.py:170 | a prefix of its argument that does not end in `/` (or is empty) |
| Compose.Dirname | app/utils/docker/compose.py:170 | `os.path.dirname` is never longer than the path |
| Compose.DirnameJoin | app/utils/docker/compose.py:62-70 | the directory of a file joined onto a directory without a trailing slash is that directory |
| Compose.ComposeRunsInConfigDir | app/utils/docker/compose.py:62-70 | a compose action on a downloaded file runs in the configuration's own directory |
| Compose.ComposeCommandsDistinct | app/utils/docker/compose.py:158-236 | every compose action names the file after `-f` and runs in the file's directory, and the four actions run four different commands |
| Compose.RunComposeAction | app/utils/docker/compose.py:158-236 | up, down, restart and pull stream their command without a logger and succeed exactly when it exits with status 0 |
| Compose.DecodeServices | app/utils/docker/compose.py:268-271 | at most one service per line; blank lines are skipped and one undecodable line spoils the whole list |
| Compose.DecodeLines | app/utils/docker/compose.py:268-271 | the loop decodes exactly what `DecodeServices` describes |
| Compose.DecodeFailurePersists | app/utils/docker/compose.py:268-271 | once a line fails to decode, the whole decoding fails |
| Compose.CountRunning | app/utils/docker/compose.py:277-280 | the running count never exceeds the number of services |
| Compose.CountServices | app/utils/docker/compose.py:277-280 | the loop counts exactly what `CountRunning` describes |
| Compose.CountRunningMeaning | app/utils/docker/compose.py:277-287 | the count exists exactly when every service's state can be read; it equals the number of services exactly when all run and is zero exactly when none does |
| Compose.CountFailurePersists | app/utils/docker/compose.py:277-280 | once a service's state cannot be read, the whole count fails |
| Compose.ComposeStatus | app/utils/docker/compose.py:238-298 | the status is always one of `up`, `down`, `partial`, `error` |
| Compose.StatusEdges | app/utils/docker/compose.py:253-266 | a `ps` command that did not exit with status 0 gives `error`; blank output gives `down` |
| Compose.StatusFallback | app/utils/docker/compose.py:288-295 | when a non-blank line of a successful run is not JSON, the status comes from the text: `up` if it mentions running, else `down` if it mentions exited, else `partial` |
| Compose.StatusCheckRaises | app/utils/docker/compose.py:277-280 | when every line decodes but checking some service's `State` raises, the status is `error` (compose.py:296-298) |
| Compose.StatusFromServices | app/utils/docker/compose.py:273-287 | for decoded services whose states can be read, the status is `up` exactly when all run, `down` exactly when none does, and `partial` exactly when some do and some do not |
| Compose.CheckComposeStatus | app/utils/docker/compose.py:238-298 | runs `ps --format json` in the file's directory and returns what `ComposeStatus` describes |
| Compose.ReadBack | app/utils/docker/compose.py:102-109 | a file read in text mode contains no carriage return, is no longer than what was written, and is exactly what was written when that had none |
| Compose.ReadBackCrLf | app/utils/docker/compose.py:102-109 | text whose line endings were sent as CR LF reads back as the text itself |
| Compose.UpdateCheck | app/utils/docker/compose.py:86-118 | the check succeeds exactly when the remote file was fetched and the local file exists, and reports an update exactly when the two differ once read back in text mode; an update implies the raw texts differ |
| Compose.LineEndingsAreNoUpdate | app/utils/docker/compose.py:102-115 | a source that differs from the local file only by CR LF line endings is not reported as an update |
| Compose.ComposeManager.constructor | app/utils/docker/compose.py:41-44 | a manager over a compose directory and the files present |
| Compose.ComposeManager.DownloadComposeFile | app/utils/docker/compose.py:46-84 | a failed fetch changes nothing and reports the error; a fetched file is written to `<dir>/<name>/docker-compose.yml` even when it is not valid YAML; success exactly when the text read back from it is |
| Compose.ComposeManager.CheckForUpdates | app/utils/docker/compose.py:86-118 | compares the stored file and the fetched text, both read back in text mode, as `UpdateCheck` describes |
| Compose.ComposeManager.UpdateComposeFile | app/utils/docker/compose.py:120-156 | the files become `UpdatedFiles`; success exactly when the fetch and the YAML check succeed, the file exists and the write succeeds |
| Compose.UpdateThenCheck | app/utils/docker/compose.py:120-150 | after a successful update the file matches its source, so a new check finds no update, and the backup holds the previous contents |
| Compose.FailedWriteKeepsFile | app/utils/docker/compose.py:143-156 | a failed write leaves the compose file as it was |
| Compose.DownloadThenCheck | app/utils/docker/compose.py:46-118 | right after a download, checking the same source finds no update |
| DockerLogging.StepsAppend | app/utils/docker/logger.py:36-57 | the lines, the completions and the status after two runs of calls are those of the first run followed by the second |
| DockerLogging.LastCompleteWins | app/utils/docker/logger.py:47-57 | the status is decided by the last `complete` call, whatever lines follow it |
| DockerLogging.NoCompletionKeepsStatus | app/utils/docker/logger.py:36-45 | adding lines never changes the status |
| DockerLogging.StatusFollowsCompletions | app/utils/docker/logger.py:33-57 | a logger is still running exactly when `complete` was never called, and otherwise reflects the last call |
| DockerLogging.MirrorAfter | app/utils/docker/logger.py:44-45 | a database log exists after the calls exactly when it existed before |
| DockerLogging.MirrorCompose | app/utils/docker/logger.py:44-57 | forwarding two runs of calls to the database log is forwarding their concatenation |
| DockerLogging.MirrorNothing | app/utils/docker/logger.py:44-57 | forwarding no calls leaves the database log as it was |
| DockerLogging.MirrorOne | app/utils/docker/logger.py:36-57 | forwarding one line appends its text to the database log, forwarding one completion appends its outcome, and without a database log nothing is forwarded |
| DockerLogging.StepEvent | app/utils/docker/logger.py:116-147 | a line is sent as `docker_log` with the line, a completion as `docker_log_complete` with the success flag, both to the logger's room, carrying the current status and the clock's ISO text as `timestamp` |
| DockerLogging.StepEventFields | app/utils/docker/logger.py:116-147 | every event carries exactly the log id, operation type, configuration, container and image of the logger, its own `line` or `success`, `timestamp` and `status` |
| DockerLogging.StepEvents | app/utils/docker/logger.py:107-147 | one event per call |
| DockerLogging.StepSnoc | app/utils/docker/logger.py:36-57 | one more call adds its line, or its completion and the status that completion sets |
| DockerLogging.EventsSnoc | app/utils/docker/logger.py:107-147 | one more call adds exactly one event, with the status the call leaves and the call's own timestamp |
| DockerLogging.TracksLine | app/utils/docker/logger.py:36-45 | `add_log_line` keeps the lines, status, end time and events in step with the calls made |
| DockerLogging.TracksComplete | app/utils/docker/logger.py:47-57 | `complete` keeps the lines, status, end time and events in step with the calls made, with the new status and end time |
| DockerLogging.StepEventsAppend | app/utils/docker/logger.py:107-147 | the events of two runs of calls are the first run's events followed by the second's, sent with the status the first run left |
| DockerLogging.OperationLogger.Plain | app/utils/docker/logger.py:15-34 | a `DockerLogger` starts running, with no lines, no completion time, no database log and no socket |
| DockerLogging.OperationLogger.WebSocket | app/utils/docker/logger.py:85-105 | a `WebSocketLogger` starts the same, with its room defaulting to `docker_logs` and no log id |
| DockerLogging.OperationLogger.AddLogLine | app/utils/docker/logger.py:36-45 | appends the line, forwards it to the database log when there is one, keeps the status, and emits one `docker_log` event when the logger has a socket |
| DockerLogging.OperationLogger.Complete | app/utils/docker/logger.py:47-57 | sets the completion time and the status `completed` or `failed`, forwards the completion, and emits one `docker_log_complete` event carrying the new status when the logger has a socket |
| DockerLogging.OperationLogger.CreateDbLog | app/utils/docker/logger.py:68-79 | attaches a new, empty database log |
| DockerLogging.CompletedStatus | app/utils/docker/logger.py:32-57 | a logger has a completion time exactly when its status is no longer `running` |
| DockerLogging.LogContentLines | app/utils/docker/logger.py:59-66 | the log content splits back on newlines into exactly the logged lines |
| DockerLogging.CreateLogger | app/utils/docker/logger.py:151-191 | a WebSocket logger exactly when one is requested and a socket is given (room defaulting to `docker_logs`), a database log exactly when `use_db` is set, and otherwise a fresh running logger |
| SocketEvents.RoomNameInjective | app/utils/websocket_manager.py:117-129 | for a fixed component and entity type, different entity ids give different room names |
| SocketEvents.RoomOr | app/utils/websocket_manager.py:209 | `room or default`: a given, non-empty room wins; otherwise the default |
| SocketEvents.LogPayload | app/utils/websocket_manager.py:142-147 | the log payload holds every key of the data with its value, plus `component`, `type` and `timestamp`, which the data's own keys override |
| SocketEvents.CompletePayload | app/utils/websocket_manager.py:161-167 | the completion payload holds every key of the data, plus `component`, `operation`, `success` and `timestamp`, which the data's own keys override |
| SocketEvents.StatusChangePayload | app/utils/websocket_manager.py:223-230 | the status-change payload holds exactly the container id, status, action and success, plus `error` exactly when a non-empty error is given |
| SocketEvents.SocketHub.constructor | app/utils/websocket_manager.py:15-16 | no Socket.IO instance yet and nothing sent |
| SocketEvents.SocketHub.InitSocketio | app/utils/websocket_manager.py:18-26 | after initialisation events are delivered; nothing already sent changes |
| SocketEvents.SocketHub.EmitEvent | app/utils/websocket_manager.py:69-79 | delivers exactly one event when a Socket.IO instance is set, and nothing otherwise |
| SocketEvents.SocketHub.EmitLog | app/utils/websocket_manager.py:132-148 | delivers `<component>_log` with the log payload |
| SocketEvents.SocketHub.EmitOperationComplete | app/utils/websocket_manager.py:150-168 | delivers `<component>_operation_complete` with the completion payload |
| SocketEvents.SocketHub.EmitDockerLog | app/utils/websocket_manager.py:171-179 | delivers `docker_log` with component `docker` and type `log` |
| SocketEvents.SocketHub.EmitDockerOperationComplete | app/utils/websocket_manager.py:181-191 | delivers `docker_operation_complete` with component `docker` |
| SocketEvents.SocketHub.EmitContainerLog | app/utils/websocket_manager.py:194-209 | delivers a Docker log event carrying the container id, the line and the status, to the given room or else the container's own room |
| SocketEvents.SocketHub.EmitContainerStatusChange | app/utils/websocket_manager.py:211-232 | delivers `container_status_change` with the status-change payload, to the given room or else the container's own room |
| DockerRecords.NewComposeConfig | app/models/docker.py:20-29 | a new configuration keeps its arguments, is stamped checked and updated now, and has no update pending |
| DockerRecords.ConfigDefaults | app/models/docker.py:20-29 | by default a configuration is inactive, `down`, without update, description or local path |
| DockerRecords.ContainerRecord.GetPorts | app/models/docker.py:58-66 | empty stored ports give `{}`; stored text gives its decoding, or `{}` when it does not decode; a truthy non-text value makes `json.loads` raise |
| DockerRecords.StoredPorts | app/models/docker.py:56 | truthy ports are stored as their JSON encoding, other ports as NULL |
| DockerRecords.NewContainer | app/models/docker.py:49-56 | a new container row keeps its arguments, is stamped now and stores its ports encoded |
| DockerRecords.PortsRoundTrip | app/models/docker.py:49-66 | reading back the ports of a new container gives the ports it was built with (or `{}` for none), and it belongs to no configuration |
| VolumeLabels.LookupAbsent | app/controllers/docker.py:1090 | a key held by no label is not found |
| VolumeLabels.PutFinds | app/controllers/docker.py:1090 | after `labels[key] = value` the key maps to the value |
| VolumeLabels.PutKeepsOthers | app/controllers/docker.py:1090 | `labels[key] = value` leaves every other key's value alone |
| VolumeLabels.PutKeys | app/controllers/docker.py:1090 | `labels[key] = value` adds no key but `key` |
| VolumeLabels.PutDistinct | app/controllers/docker.py:1090 | the labels keep at most one entry per key |
| VolumeLabels.PutLookup | app/controllers/docker.py:1090 | assignment behaves as a dictionary store: the key is found with the new value, others unchanged, keys distinct |
| VolumeLabels.LabelPairMeaning | app/controllers/docker.py:1089 | an item parses exactly when its stripped text splits on `=` into two parts, which rejoin to it and hold no `=` |
| VolumeLabels.ItemPairsMeaning | app/controllers/docker.py:1088-1093 | the items parse exactly when each one does, and then into one pair per item in order |
| VolumeLabels.PairsFailurePersists | app/controllers/docker.py:1088-1093 | one item that does not parse makes the whole labels text invalid |
| VolumeLabels.DictKeys | app/controllers/docker.py:1084-1090 | the dictionary built has distinct keys, all taken from the items |
| VolumeLabels.DictLastWinsAt | app/controllers/docker.py:1088-1090 | a key maps to the value of its last occurrence |
| VolumeLabels.DictLastWins | app/controllers/docker.py:1088-1090 | every key maps to the value of its last occurrence |
| VolumeLabels.ParseLabels | app/controllers/docker.py:1084-1093 | the loop builds exactly the labels `LabelsOf` describes, failing on the first bad item |
| VolumeLabels.CheckVolumeForm | app/controllers/docker.py:1073-1095 | a missing name is refused first; a form is accepted exactly when the name is given and the labels parse, then with the driver defaulting to `local`; bad labels give the labels message |
| Reconcile.Restricted | app/controllers/docker.py:826-828 | deleting rows not listed keeps exactly the listed keys, with their rows |
| Reconcile.UpsertedKeys | app/controllers/docker.py:831-849 | upserting adds exactly the listed keys and leaves every other row alone |
| Reconcile.UpsertedKeeps | app/controllers/docker.py:834-849 | a field the update never writes keeps its old value, and new rows take the insert's value |
| Reconcile.UpsertedKeyed | app/controllers/docker.py:831-849 | every row stays stored under its own id |
| Reconcile.UpsertedLast | app/controllers/docker.py:831-849 | a listed item's row shows the data of its last occurrence |
| Reconcile.UpsertedOnly | app/controllers/docker.py:831-849 | an item listed once yields the updated old row, or a new row |
| Reconcile.ReconciledKeys | app/controllers/docker.py:819-851 | after reconciling, the table holds exactly the keys listed at runtime |
| Reconcile.ReconcileTwice | app/controllers/docker.py:819-851 | reconciling again against the same listing keeps the same keys |
| Reconcile.ReconcileTable | app/controllers/docker.py:814-851 | the delete loop and the upsert loop compute exactly `Reconciled` |
| DockerTables.ContainersReconciled | app/controllers/docker.py:814-851 | the container table holds exactly the running ids; owners survive a refresh, and each row shows the last listed name, image and status |
| DockerTables.ContainerPortsFlip | app/controllers/docker.py:834-849 | a new container's ports are stored JSON-encoded, but the next refresh stores the raw listing text |
| DockerTables.ImagesReconciled | app/controllers/docker.py:995-1043 | the image table holds exactly the listed ids, each showing the last listed repository, tag, size and creation time |
| DockerTables.VolumesReconciled | app/controllers/docker.py:1129-1167 | the volume table holds exactly the listed names, each showing the last listed driver, mount point and creation time |
| DockerTables.NetworksReconciled | app/controllers/docker.py:1298-1338 | the network table holds exactly the listed ids, each showing the last listed name, driver, scope and creation time |
| DockerTables.Matching | app/controllers/docker.py:572-575 | every container chosen for a stack is a listed one whose lower-cased name contains the stack's lower-cased name |
| DockerTables.MatchingIds | app/controllers/docker.py:572-575 | an id is chosen exactly when some listed container with that id matches |
| DockerTables.Untagged | app/controllers/docker.py:569 | deleting a stack's rows keeps exactly the rows owned by other stacks or none, unchanged |
| DockerTables.UpsertedTouched | app/controllers/docker.py:572-584 | every listed key ends up with a row that the insert or the update produced |
| DockerTables.TaggedExactly | app/controllers/docker.py:559-586 | after tagging, a row belongs to the stack exactly when its container matched; other rows not matched are untouched |
| DockerTables.TagAsWritten | app/controllers/docker.py:559-586 | the insert-only version fails exactly when a matched id is already stored under another owner or none, or is listed twice |
| DockerTables.InsertedIsUpserted | app/controllers/docker.py:576-584 | with no clash, inserting is upserting |
| DockerTables.TagAgrees | app/controllers/docker.py:559-586 | when nothing clashes, the insert-only version and the corrected one agree |
| DockerTables.TagClash | app/controllers/docker.py:559-586 | a container already listed before its stack was started makes the insert-only version fail, while the corrected one tags it |
| DockerControl.FileOf | app/controllers/docker.py:240 | a stack's compose file is usable exactly when its local path is recorded, non-empty and present |
| DockerControl.DockerStore.constructor | app/models/docker.py:5-109 | empty tables satisfy the store's invariants |
| DockerControl.DockerStore.UpdateAllContainersInfo | app/controllers/docker.py:814-851 | the container table becomes the reconciled one, and rows stay keyed by id with known owners |
| DockerControl.DockerStore.UpdateAllImagesInfo | app/controllers/docker.py:995-1043 | the image table becomes the reconciled one, keyed by image id |
| DockerControl.DockerStore.UpdateAllVolumesInfo | app/controllers/docker.py:1129-1167 | the volume table becomes the reconciled one, keyed by volume name |
| DockerControl.DockerStore.UpdateAllNetworksInfo | app/controllers/docker.py:1298-1338 | the network table becomes the reconciled one, keyed by network id |
| DockerControl.DockerStore.TagStackContainers | app/controllers/docker.py:559-586 | an unknown stack changes nothing; otherwise the loop tags the stack's containers exactly as the corrected `Tagged` describes (see "## Findings" for the source's clash) |
| DockerControl.DockerStore.TagKeepsValid | app/controllers/docker.py:559-586 | tagging keeps every container row under its own id and owned by a stored stack |
| DockerControl.DockerStore.StoreConfig | app/controllers/docker.py:189-198 | a new configuration is stored under the next id, which then advances |
| DockerControl.DockerStore.DropStack | app/controllers/docker.py:385 | the stack's container rows are deleted and no others |
| DockerControl.DockerStore.SetConfig | app/controllers/docker.py:316-317 | one configuration row is overwritten, keeping its id and name |
| DockerControl.DockerStore.AddConfig | app/controllers/docker.py:161-203 | a missing name or URL, then a taken name, is refused without touching the files; a configuration is created exactly when the download succeeds, then with status `down`, the new id and the downloaded file's path, and nothing is stored otherwise; a failed fetch leaves the files unchanged, while any fetch for a new name writes the compose file, even one that then fails validation |
| DockerControl.DockerStore.CheckUpdates | app/controllers/docker.py:233-258 | an unknown or file-less stack changes nothing; otherwise the check time and the update flag of `UpdateCheck` (line endings ignored) are recorded, whether or not the check succeeded |
| DockerControl.DockerStore.ViewConfig | app/controllers/docker.py:205-214 | an unknown stack is not found; a stack whose compose file is present gets the measured `ComposeStatus` committed as its status; otherwise nothing changes |
| DockerControl.DockerStore.UpdateConfig | app/controllers/docker.py:260-281 | an unknown or file-less stack changes nothing; otherwise the files change as the update does, and only a successful update records the time and clears the update flag |
| DockerControl.DockerStore.RunConfig | app/controllers/docker.py:283-338 | an unknown or file-less stack changes nothing; otherwise the status goes `deploying` and then the measured status (or `error` on failure), a success marks the stack active and tags its containers with the corrected `Tagged` |
| DockerControl.DockerStore.RunStack | app/controllers/docker.py:315-335 | the same, once the stack and its file are known |
| DockerControl.DockerStore.StopConfig | app/controllers/docker.py:340-396 | an unknown or file-less stack changes nothing; otherwise the status goes `stopping`, then `down` with the stack inactive and its containers deleted on success, or the measured status on failure |
| DockerControl.DockerStore.StopStack | app/controllers/docker.py:372-393 | the same, once the stack and its file are known |
| DockerControl.DockerStore.RestartConfig | app/controllers/docker.py:398-453 | an unknown or file-less stack changes nothing; otherwise the status goes `restarting` and then the measured status, and a success re-tags the containers with the corrected `Tagged` |
| DockerControl.DockerStore.RestartStack | app/controllers/docker.py:430-449 | the same, once the stack and its file are known |
| DockerControl.DockerStore.PullConfig | app/controllers/docker.py:488-529 | an unknown stack is not found, a file-less one reports the missing file, otherwise the pull's result is reported |
| DockerControl.DockerStore.DeleteConfig | app/controllers/docker.py:531-557 | an unknown stack changes nothing; otherwise the configuration and its container rows go, and `compose down` runs exactly when the stack is active and its file is present |
| DockerControl.Overwrite | app/controllers/docker.py:316-335 | writing a row twice keeps only the second write |
| DockerControl.CascadeDeletes | app/controllers/docker.py:543 | after deleting a stack's containers none of its rows remain, every other row is untouched, and deleting again changes nothing |
| NetworkInterfaces.Over | app/models/network.py:40-43 | an argument that is not None wins over the current value |
| NetworkInterfaces.Updated | app/models/network.py:29-44 | each given argument replaces its field, None leaves it, the name never changes and the write time is refreshed |
| NetworkInterfaces.NoChangeTouchesOnlyTime | app/models/network.py:29-44 | an update with every argument None changes only the write time |
| NetworkInterfaces.FalseFlagsUpdate | app/models/network.py:40-43 | false flags are written, since the test is `is not None` rather than truthiness |
| NetworkInterfaces.UpdatesCompose | app/models/network.py:29-44 | two updates are one update with the later arguments winning, and repeating an update changes only the write time |
| NetworkInterfaces.NewInterface | app/models/network.py:18-27 | a new interface keeps its arguments and is stamped now |
| NetworkInterfaces.InterfaceDefaults | app/models/network.py:18-19 | an interface built from a name alone uses DHCP, is up and has no addresses |
| NetworkInterfaces.NetworkInterface.constructor | app/models/network.py:18-27 | the new row's fields are those `NewInterface` describes |
| NetworkInterfaces.NetworkInterface.UpdateConfig | app/models/network.py:29-44 | the row's fields become `Updated` of the old ones |
| NetworkControl.Refreshable | app/controllers/network.py:36-39 | the interfaces refreshed are system interfaces other than `lo` and `wlan0` |
| NetworkControl.RefreshableHas | app/controllers/network.py:36-39 | every system interface other than `lo` and `wlan0` is refreshed |
| NetworkControl.RefreshableDistinct | app/controllers/network.py:36-39 | skipping interfaces keeps their names distinct |
| NetworkControl.DataChange | app/controllers/network.py:46-53 | a refresh passes the addresses as found and the flags defaulting to true |
| NetworkControl.RefreshKeeps | app/controllers/network.py:29-72 | after a refresh the table holds the old rows plus exactly the system interfaces other than `lo` and `wlan0`; other rows are untouched, and a failed listing changes nothing |
| NetworkControl.RefreshRow | app/controllers/network.py:42-65 | each refreshed interface's row is the old row updated with its data, or a new row with DHCP and up defaulting to true |
| NetworkControl.InterfaceStore.constructor | app/models/network.py:4-16 | an empty interface table |
| NetworkControl.InterfaceStore.RefreshInterfaces | app/controllers/network.py:29-72 | succeeds exactly when the interfaces could be listed, and leaves the table as `Refreshed` describes |
| NetworkControl.ConfigureChange | app/controllers/network.py:84-89 | DHCP and up are set exactly when their boxes are ticked; with DHCP no address is passed, otherwise each address field is passed when present |
| NetworkControl.DhcpKeepsStatic | app/controllers/network.py:84-110 | switching to DHCP keeps the stored static addresses, since None arguments do not overwrite |
| NetworkControl.ConfigureNetwork | app/controllers/network.py:77-118 | the host result is what `configure_interface` returns, yet the row always takes the form's change and success is always reported |
| NetworkControl.ConfigureInterface | app/utils/network_utils.py:161-226 | an active static configuration without an address or netmask always fails; otherwise the result is whether the host commands succeeded |
| NetworkControl.ConfigureAsWritten | app/controllers/network.py:92-113 | as written: success is reported and the row takes the form's change, whatever the host answered |
| NetworkControl.HostFailureReportedAsSuccess | app/controllers/network.py:92-113 | for an active static form without an address the host refuses, yet the handler reports success and updates the row, where the intended handler reports failure and keeps the row |
| NetworkControl.ConfigureChecked | app/controllers/network.py:92-113 | intended: success is reported exactly when the host accepts the configuration, and only then does the row take the form's change |
| NetworkControl.CheckedAgreesOnSuccess | app/controllers/network.py:92-113 | when the host accepts the configuration, the intended handler does exactly what the written one does |
| CommandUtils.IsCommandAllowed | app/utils/command_utils.py:6-61 | exactly the nine listed commands are allowed |
| CommandUtils.ArgsRequiredExactly | app/utils/command_utils.py:6-61 | exactly `ping`, `ip`, `traceroute` and `nslookup` require arguments |
| CommandUtils.ValidateCommandArgs | app/utils/command_utils.py:84-105 | an unknown command is never valid; a known one is invalid exactly when it requires arguments and they are blank |
| CommandUtils.OptionalArgsAlwaysValid | app/utils/command_utils.py:84-105 | a command without required arguments accepts any argument text |
| CommandUtils.RunReport | app/utils/command_utils.py:133-146 | a finished run reports stdout followed by stderr with its exit code; a timeout or an error reports its message with code 1 |
| CommandUtils.ExecuteCommand | app/utils/command_utils.py:107-146 | an unknown command, then invalid arguments, are rejected with their messages before anything runs; a run happens exactly when the arguments are valid and the command line splits, on the split words |
| CommandUtils.TrimRightAppend | app/utils/command_utils.py:130 | `rstrip` of a concatenation drops a blank tail with the head's trailing whitespace, and otherwise only the tail's |
| CommandUtils.BlankAfterSpace | app/utils/command_utils.py:130 | a leading space does not change whether arguments are blank |
| CommandUtils.TrimRightSpaced | app/utils/command_utils.py:130 | non-blank arguments keep the separating space |
| CommandUtils.CommandLineTrimsRight | app/utils/command_utils.py:130 | a command line starting with a non-space only loses trailing whitespace |
| CommandUtils.SpacedTrimRight | app/utils/command_utils.py:130 | a command word followed by blank arguments is the word alone; otherwise the word, one space and the arguments without trailing whitespace |
| CommandUtils.CommandLineShape | app/utils/command_utils.py:130 | for a bare command word, `f"{command} {args}".strip()` is the word alone for blank arguments, and otherwise the word, a space and the right-stripped arguments |
| CommandUtils.BareCommand | app/utils/command_utils.py:107-146 | an allowed command without required arguments, run with none, splits just the command's own name and runs it |

## Left out

- Processes, HTTP requests, the file system outside the compose files, YAML and JSON parsing, date parsing and `shlex.split` are parameters; what they do is not modelled.
- Threads: `run_in_background` and the log-streaming thread of the container-log socket handler; each operation is modelled as one sequential call.
- Flask routing, `flash` messages, templates, `login_required` and the `get_or_404` lookups of rows that the model receives directly (the interface in `configure_network`).
- `view_config`'s store write is `DockerControl.DockerStore.ViewConfig`; the list of containers it shows is only rendered and is not modelled. The table writes of the container, image, volume and network list routes are the `UpdateAll*Info` methods of `DockerControl.DockerStore`; `container_logs`, `operation_log` and the remaining view routes only render pages and are not modelled.
- DockerControl.DockerStore.TagStackContainers: uses the corrected `Tagged`; when a matching container's id is already stored outside the stack (`TagClash`), the source's commit of `update_container_info` raises an integrity error, its delete and inserts are rolled back and the request fails.
- DockerControl.DockerStore.RunConfig: on a tagging clash the source has already committed `is_active` and the measured status, then fails with the container table unchanged; the model reports the final status and the re-tagged table.
- DockerControl.DockerStore.RunStack: as `RunConfig`, once the stack and its file are known.
- DockerControl.DockerStore.RestartConfig: on a tagging clash the source has already committed the measured status, then fails with the container table unchanged; the model reports the final status and the re-tagged table.
- DockerControl.DockerStore.RestartStack: as `RestartConfig`, once the stack and its file are known.
- DockerTables.Matching: a listed container whose name is not a JSON string is treated as not matching, whereas `container['name'].lower()` raises on it and `update_container_info` aborts before its commit; `docker ps --format json` always gives `Names` as a string.
- The `DockerOperationLog` row of `app/models/docker.py` is modelled only as the lines and completions forwarded to it (`DockerLogging.DbMirror`); the row that the run, stop, restart and pull handlers create separately receives nothing in the source and is not modelled.
- The handlers for run, stop, restart and pull build a logger that the compose manager ignores (its `logger` argument is not used), so the model passes none.
- `delete_config` removes the configuration directory with `shutil.rmtree`; directories are not modelled.
- `os.path.exists` is membership in the file map of `ComposeManager`.
- File-system exceptions while downloading a compose file (creating directories, writing) are not modelled: only a failed fetch and invalid YAML are error paths.
- `ensure_docker_installed`, `install_docker`, `app/utils/docker/compat.py`, `app/utils/docker_utils.py`, `app/utils/system_utils.py` and `app/utils/network_utils.py` are not part of this model, except what `configure_interface` returns (`NetworkControl.ConfigureInterface`); whether its `ip`, `dhclient` and resolver-file commands succeed is a parameter.
- `app/models/user.py` is not part of this model: password hashing and `verify_password` are a parameter of `Auth.UserStore.Login`.
- The connect, disconnect, join and leave handlers that `init_socketio` registers only print or join rooms; they are not modelled.
- The interface listing's `is_dhcp`/`is_active` values are booleans or absent; a value present as None is not modelled.
- One clock reading is used for a whole refresh or handler; the source reads the clock per row.
- One clock reading is used for a whole logged operation: every event it emits carries the same `timestamp` text (`stamp`), and the end time is the same reading (`now`); the source reads the clock at each call.
- Text.Lower: lower-cases ASCII letters only, not the full Unicode case mapping of `str.lower`.
- Text.Strip: whitespace is the Latin-1 set (`IsSpace`), not every Unicode space that `str.strip` removes.
- Compose.Dirname: states only that the directory is no longer than the path; what it is for a joined path is `Compose.DirnameJoin`.
- DockerControl.DockerStore.PullConfig: states only the outcome, since the handler changes no table.

## Findings

| source | as written | input that shows it | evidently intended | confidence | as-written member | corrected member |
|---|---|---|---|---|---|---|
| app/controllers/docker.py:559-586 | after deleting the stack's own container rows, `update_container_info` adds a plain new row for every matching container; `container_id` is a unique column | a stack's container that is already in the table without an owner (listed by a refresh before the stack's rows were written), then `run_config` on that stack: the insert clashes and the commit fails | replace the row stored under that id, so the container ends up owned by the stack | not executed | DockerTables.TagClash | DockerTables.TaggedExactly |
| app/controllers/network.py:92-113 | `configure_network` ignores the value `configure_interface` returns (which is False on any failure, since it catches every exception), then updates the row and reports success | an active interface submitted without DHCP and without an IP address: `configure_interface` raises and catches its own `ValueError` and returns False, yet the row is updated and the page says the interface was configured | report the failure and keep the row when the host configuration fails | not executed | NetworkControl.HostFailureReportedAsSuccess | NetworkControl.ConfigureChecked |
| app/controllers/auth.py:35-38 | the login follows any `next` that starts with `/` | `next=//evil.example/x`: it starts with `/`, so the login redirects to it, and a browser reads it as another site (an open redirect) | follow only paths on this site, refusing `//` and `/` followed by a backslash | not executed | Auth.LoginTargetOffSite | Auth.SafeLoginTarget |
