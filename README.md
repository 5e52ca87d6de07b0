# Game-server panel core, modelled in Dafny

The panel is a Spring Boot web application that runs game servers (and
Ollama / Stable Diffusion containers) through the `docker` command line.
This project models its core:

- **DockerService** (`docker.dfy`): the `docker run` argument vector built
  from a server record and its egg, the data directory, the 12-character
  container id taken from `docker run`'s output and every failure message;
  the statistics probe (`docker inspect`, then `docker stats`) and its
  offline fallbacks; container deletion, power actions and `ollama pull`.
- **ServerStats** (`stats.dfy`): the bean the statistics endpoint returns,
  as a class with its six fields and setters.
- **EggService** (`eggs.dfy`): the egg catalogue, a TreeMap of TreeMaps of
  lists, modelled as association lists kept in `String.compareTo` order;
  loading stops at the first egg that fails; `capitalize`; and the
  first-egg-by-image lookup both controllers do.
- **ServerApiController** (`server_api.dfy`, with `paths.dfy` for the
  `java.nio` Unix path semantics it relies on): the file-manager sandbox
  (`resolveServerPath`), request-body cleaning, the RCON port, model
  downloads and the port change.
- **ServerController** (`server_pages.dfy`): create, delete, force-delete,
  view and power actions, with their redirects and flash messages, over the
  server repository (`repository.dfy`).
- **ConsoleSocketHandler** (`console.dfy`): the session registry, as a class
  holding the session-to-process map and the processes it started, and the
  output-forwarding loop.

`strings.dfy` holds the `java.lang` string and number behaviour the core
uses (`trim`, `replaceAll("\\s+", "_")`, `split`, `Long.parseLong`,
`String.valueOf`, `int` overflow), `outcomes.dfy` the Option and Result
types and the outcome of one external command, `entities.dfy` the server
record and the egg.

Nothing here runs a process. What a `docker` command did is a parameter:
`LaunchFailed(message)` when it could not be started, or
`Exited(code, first stdout line, first stderr line)`. The UUID, the clock,
what creating a directory did, what Jackson parsed, what the RCON exchange
answered and what the classpath scan found are parameters in the same way.
Java `null` is `None`; string concatenation renders it as `null`.

`ConsoleSocketHandler.ProcessExited` is not an operation of the source: it
is the environment ending an attach process on its own, so that a
registered but dead process can be reached.

The container name replaces only runs of whitespace (`\s+`) with `_`; only
the first line of each output stream is read; there is no timeout, no
per-server lock and no fallback lookup of the container id by name; and
`createServer` always takes the ports and environment from the egg.

`ServerApiController.changeServerPort` and `installA1111Model` call
`createMinecraftServer`, `createGenericServer` and `installA1111Model` on
the Docker service, which `DockerService.java` does not define; those three
are not part of this model, and what they returned or threw is a parameter;
for the two creators that includes the host path they left on the server
object they were handed by reference, as `createServer` sets one.

## Model

| member | source | states |
|---|---|---|
| Strings.TrimIdempotent | src/main/java/io/monpanel/panel/ServerApiController.java:225 | trimming a trimmed string changes nothing |
| Strings.TrimEnds | src/main/java/io/monpanel/panel/ServerApiController.java:225 | a trimmed string is empty or starts and ends with a character above U+0020 |
| Strings.TrimDropsOnlyControls | src/main/java/io/monpanel/panel/ServerApiController.java:225 | `trim` removes only characters up to U+0020, and only at the ends |
| Strings.RemoveAll | src/main/java/io/monpanel/panel/ServerApiController.java:225 | removing every quote leaves no quote, never lengthens, keeps a quote-free string as is and adds no character |
| Strings.RemoveAllAppend | src/main/java/io/monpanel/panel/ServerApiController.java:225 | removal works piece by piece, so every other character is kept, in order |
| Strings.ReplaceSpaceRuns | src/main/java/io/monpanel/panel/DockerService.java:39 | `replaceAll("\\s+", "_")` leaves no whitespace and never lengthens |
| Strings.ReplaceSpaceRunsKeepsPlain | src/main/java/io/monpanel/panel/DockerService.java:39 | a name without whitespace is kept unchanged |
| Strings.ReplaceSpaceRunsOfRun | src/main/java/io/monpanel/panel/DockerService.java:39 | a whole run of whitespace after a plain prefix becomes exactly one `_` |
| Strings.ReplaceSpaceRunsIdempotent | src/main/java/io/monpanel/panel/DockerService.java:39 | sanitizing a sanitized name changes nothing |
| Strings.ParseLong | src/main/java/io/monpanel/panel/ConsoleSocketHandler.java:40 | accepted iff an optional sign is followed by at least one ASCII digit and the value fits in a `long`; the value is the digits' value, negated after `-` |
| Strings.ParseLongOfIntToString | src/main/java/io/monpanel/panel/ConsoleSocketHandler.java:40 | parsing the decimal rendering of any `long` gives it back |
| Strings.SplitThirdPiece | src/main/java/io/monpanel/panel/ConsoleSocketHandler.java:39 | in `/<a>/<d>...` the third piece of `split("/")` is `d` |
| Strings.AddInt32 | src/main/java/io/monpanel/panel/ServerApiController.java:70 | the `int` result agrees with the exact sum modulo 2^32, which is Java's wrap-around |
| Stats.ServerStats.constructor | src/main/java/io/monpanel/panel/ServerStats.java:4-9 | a fresh bean holds the placeholders `0%`, `0 MiB / 0 MiB`, `0 B / 0 B` twice, offline and no error |
| Stats.ServerStats.SetCpuPercent | src/main/java/io/monpanel/panel/ServerStats.java:13 | replaces the CPU figure and nothing else |
| Stats.ServerStats.SetMemoryUsage | src/main/java/io/monpanel/panel/ServerStats.java:15 | replaces the memory figure and nothing else |
| Stats.ServerStats.SetNetIO | src/main/java/io/monpanel/panel/ServerStats.java:17 | replaces the network figure and nothing else |
| Stats.ServerStats.SetBlockIO | src/main/java/io/monpanel/panel/ServerStats.java:19 | replaces the disk figure and nothing else |
| Stats.ServerStats.SetOffline | src/main/java/io/monpanel/panel/ServerStats.java:21 | replaces the offline flag and nothing else |
| Stats.ServerStats.SetError | src/main/java/io/monpanel/panel/ServerStats.java:23 | replaces the error and nothing else |
| Docker.FlagPairs | src/main/java/io/monpanel/panel/DockerService.java:42-47 | each map entry contributes exactly two arguments |
| Docker.FlagPairsAt | src/main/java/io/monpanel/panel/DockerService.java:52-57 | entry i becomes the flag at 2i and `key<sep>value` at 2i+1, in map order, a null value as `null` |
| Docker.DataPathsDiffer | src/main/java/io/monpanel/panel/DockerService.java:28-31 | two different UUIDs give two different data directories |
| Docker.RunCommandFrame | src/main/java/io/monpanel/panel/DockerService.java:35-59 | the vector's length, its fixed head (`docker run -d --memory=<m>m --cpus=<c> --name <name>`), the volume pair after the ports and the image last |
| Docker.RunCommandPorts | src/main/java/io/monpanel/panel/DockerService.java:42-47 | every egg port appears as `-p host:container`, in order, right after the head |
| Docker.RunCommandEnvironment | src/main/java/io/monpanel/panel/DockerService.java:52-57 | every egg variable appears as `-e NAME=value`, in order, after the volume |
| Docker.OnePortOneVariableExample | src/main/java/io/monpanel/panel/DockerService.java:35-59 | the full vector for an egg with one port and one variable |
| Docker.BuildRunCommand | src/main/java/io/monpanel/panel/DockerService.java:35-59 | the two appending loops build exactly the specified vector |
| Docker.ContainerIdFrom | src/main/java/io/monpanel/panel/DockerService.java:61-82 | success iff exit 0 with a first line of at least 12 characters, giving its 12-character prefix; launch failure, non-zero exit, empty output and a 1 to 11 character line each fail with their exact wrapped message |
| Docker.CreateServer | src/main/java/io/monpanel/panel/DockerService.java:25-83 | a failed mkdir runs nothing and propagates; otherwise the data path is set, the run vector is the specified one and the result is the container id or failure |
| Docker.StatsFor | src/main/java/io/monpanel/panel/DockerService.java:93-127 | missing id: offline with an error; not running: the placeholders; running: the four parsed figures, online; a failed launch of either command, `inspect` without output or a Jackson failure: the placeholders with that exception's message |
| Docker.StatsCommands | src/main/java/io/monpanel/panel/DockerService.java:99-109 | no command for a missing id; otherwise `docker inspect` first, then `docker stats` exactly when `inspect` reports the container running |
| Docker.GetStats | src/main/java/io/monpanel/panel/DockerService.java:93-127 | returns a fresh bean holding the specified snapshot |
| Docker.DeleteContainer | src/main/java/io/monpanel/panel/DockerService.java:129-156 | no id: nothing runs; otherwise `stop` then `rm`; failure iff `rm` did not exit 0; a non-zero exit wraps the first stderr line, a launch failure wraps the launch message |
| Docker.DeleteIgnoresStop | src/main/java/io/monpanel/panel/DockerService.java:136-142 | the outcome of `docker stop` never changes the result |
| Docker.PerformAction | src/main/java/io/monpanel/panel/DockerService.java:158-170 | a null or empty id is refused without running; otherwise exactly `docker <action> <id>`, failing iff it did not exit 0, with the action and first stderr line on a non-zero exit and the launch message on a launch failure |
| Docker.PullModel | src/main/java/io/monpanel/panel/DockerService.java:172-201 | a blank id or model name is refused without running; otherwise `docker exec <id> ollama pull <model>`, failing iff it did not exit 0, with the fixed download message on a non-zero exit and the launch message on a launch failure |
| Eggs.LessIrreflexive | src/main/java/io/monpanel/panel/EggService.java:27 | no key sorts before itself |
| Eggs.LessTransitive | src/main/java/io/monpanel/panel/EggService.java:27 | the key order is transitive |
| Eggs.LessTotal | src/main/java/io/monpanel/panel/EggService.java:27 | any two different keys are ordered one way |
| Eggs.LookupUpsert | src/main/java/io/monpanel/panel/EggService.java:59-61 | after `put`, the key maps to the new value and every other key keeps its value |
| Eggs.UpsertEntries | src/main/java/io/monpanel/panel/EggService.java:59-61 | `put` adds no entry but the new one |
| Eggs.UpsertSorted | src/main/java/io/monpanel/panel/EggService.java:59-61 | `put` keeps the keys in order |
| Eggs.AddEggAppends | src/main/java/io/monpanel/panel/EggService.java:59-61 | the egg is appended to its own subcategory's list; every other list is unchanged |
| Eggs.AddEggKeepsValid | src/main/java/io/monpanel/panel/EggService.java:59-61 | both levels of the catalogue stay in key order |
| Eggs.FirstWithImage | src/main/java/io/monpanel/panel/ServerController.java:53-57 | the position of the first egg with that image, none before it; none iff no egg has it |
| Eggs.CapitalizeIdempotent | src/main/java/io/monpanel/panel/EggService.java:78-83 | capitalizing twice is capitalizing once |
| Eggs.CapitalizeAscii | src/main/java/io/monpanel/panel/EggService.java:78-83 | a lower-case ASCII initial becomes its capital; length and rest unchanged |
| Eggs.LoadAllAppends | src/main/java/io/monpanel/panel/EggService.java:43-65 | loading keeps every filed egg and appends to each subcategory its eggs in resource order, up to the first failure |
| Eggs.LoadAllKeepsValid | src/main/java/io/monpanel/panel/EggService.java:43-65 | loading keeps both levels sorted |
| Eggs.EggService.constructor | src/main/java/io/monpanel/panel/EggService.java:27 | the catalogue starts empty and sorted |
| Eggs.EggService.Init | src/main/java/io/monpanel/panel/EggService.java:29-71 | a failed or empty scan changes nothing; otherwise the loop loads the files in order up to the first failure, keeping the catalogue sorted |
| JPaths.NormalizeIsNormal | src/main/java/io/monpanel/panel/ServerApiController.java:51 | `normalize` leaves no `.`, keeps `..` only in a leading block of a relative path and none in an absolute one |
| JPaths.NormalizeIdempotent | src/main/java/io/monpanel/panel/ServerApiController.java:51 | normalizing a normalized path changes nothing |
| JPaths.FoldDownward | src/main/java/io/monpanel/panel/ServerApiController.java:51 | names without `..` only descend: the start followed by the names minus `.` |
| JPaths.FoldParents | src/main/java/io/monpanel/panel/ServerApiController.java:51 | each `..` under an absolute path removes one name, stopping at the root |
| JPaths.ParentsFromRoot | src/main/java/io/monpanel/panel/ServerApiController.java:51 | an absolute path of plain names followed by k `..` normalizes to the path less its last k names |
| JPaths.ResolveWithin | src/main/java/io/monpanel/panel/ServerApiController.java:49-56 | accepted iff the normalized resolution starts with the data directory, and then it is that normalized resolution, lying under the directory; refused with the message naming it |
| JPaths.DescendingPathAccepted | src/main/java/io/monpanel/panel/ServerApiController.java:49-56 | a relative path without `..` is accepted and lands on the directory plus its names |
| JPaths.ClimbingPathRejected | src/main/java/io/monpanel/panel/ServerApiController.java:49-56 | a path of one or more `..` under a non-root directory is refused |
| JPaths.DefaultPathIsRoot | src/main/java/io/monpanel/panel/ServerApiController.java:92-95 | the default listing path `.` is the data directory itself |
| JPaths.ParentOfRootRejected | src/main/java/io/monpanel/panel/ServerApiController.java:49-56 | `..` is refused |
| Repository.ServerRepository.Save | src/main/java/io/monpanel/panel/ServerController.java:76 | a new record gets a fresh id and never overwrites another; a loaded record replaces its own row |
| Repository.ServerRepository.Delete | src/main/java/io/monpanel/panel/ServerController.java:94 | removes exactly the entity's row |
| ServerApi.ServerStatsOf | src/main/java/io/monpanel/panel/ServerApiController.java:58-63 | unknown id throws `Serveur non trouvé`; otherwise the statistics of the server's container |
| ServerApi.RconPortIsNextPort | src/main/java/io/monpanel/panel/ServerApiController.java:70 | for game ports 0..65534 the RCON port is the next one; `Integer.MAX_VALUE` wraps |
| ServerApi.SendServerCommand | src/main/java/io/monpanel/panel/ServerApiController.java:65-89 | unknown id throws and opens nothing; otherwise the command goes to `localhost` at the game port plus one with the fixed password, and the reply is 200 with the answer or the error text |
| ServerApi.RenameTargets | src/main/java/io/monpanel/panel/ServerApiController.java:193-204 | accepted iff both paths pass the sandbox, giving the resolved old and new paths in that order; the old path's refusal is reported first |
| ServerApi.NewEntryAsWritten | src/main/java/io/monpanel/panel/ServerApiController.java:153-163 | as written: only the parent folder is checked, the name is appended unchecked |
| ServerApi.NewEntryAsWrittenEscapes | src/main/java/io/monpanel/panel/ServerApiController.java:157 | the name `../../escape` in `/srv/servers/u1` writes `/srv/escape`, outside the data directory |
| ServerApi.NewEntryAsWrittenAbsolute | src/main/java/io/monpanel/panel/ServerApiController.java:169 | an absolute name is used as it is |
| ServerApi.NewEntry | src/main/java/io/monpanel/panel/ServerApiController.java:49-56 | corrected: an accepted new entry lies under the data directory and is already normalized; a refusal means it would not |
| ServerApi.NewEntryAgreesWhenInside | src/main/java/io/monpanel/panel/ServerApiController.java:153-175 | where the corrected check accepts, the written code writes at the same place |
| ServerApi.CleanShape | src/main/java/io/monpanel/panel/ServerApiController.java:225 | a cleaned body has no quote and no blank at either end |
| ServerApi.CleanIdempotent | src/main/java/io/monpanel/panel/ServerApiController.java:225 | cleaning twice is cleaning once |
| ServerApi.CleanOfQuotesAndBlanks | src/main/java/io/monpanel/panel/ServerApiController.java:225 | a body of quotes and blanks cleans to the empty string |
| ServerApi.PullLlmModel | src/main/java/io/monpanel/panel/ServerApiController.java:220-234 | unknown id throws; the cleaned name is pulled; 200 with the name on success, 500 with the cause otherwise |
| ServerApi.PullOfEmptyNameRunsNothing | src/main/java/io/monpanel/panel/ServerApiController.java:220-234 | a name of quotes and blanks runs nothing and answers 500 `... sont requis.` |
| ServerApi.InstallA1111Model | src/main/java/io/monpanel/panel/ServerApiController.java:269-283 | unknown id throws; the cleaned URL is handed over; 200 or 500 with the cause |
| ServerApi.ChangeServerPort | src/main/java/io/monpanel/panel/ServerApiController.java:236-267 | unknown id throws; no egg: 500, nothing runs; delete, then create with the creator the egg selects; only if both succeed is the record saved, with the new port, the host path the creator left on it and the (possibly null) id it returned, and nothing else changed |
| Console.ServerIdOf | src/main/java/io/monpanel/panel/ConsoleSocketHandler.java:39-40 | the id is `Long.parseLong` of the third piece; too few pieces and a piece that is not a `long` throw with Java's messages |
| Console.ServerIdOfConsolePath | src/main/java/io/monpanel/panel/WebSocketConfig.java:19 | `/console-socket/<id>` yields `id` |
| Console.ConsoleSocketHandler.constructor | src/main/java/io/monpanel/panel/ConsoleSocketHandler.java:33-35 | no session and no process |
| Console.ConsoleSocketHandler.AfterConnectionEstablished | src/main/java/io/monpanel/panel/ConsoleSocketHandler.java:37-65 | bad path: throws, nothing registered; no server or null container id: one message, session closed, nothing registered; start failure: throws; else a live `docker attach <id>` registered under the session, leaving no live process unregistered for a new session |
| Console.ConsoleSocketHandler.HandleTextMessage | src/main/java/io/monpanel/panel/ConsoleSocketHandler.java:67-80 | the payload plus newline reaches only this session's process, only if alive and the write succeeds; nothing else changes |
| Console.ConsoleSocketHandler.AfterConnectionClosed | src/main/java/io/monpanel/panel/ConsoleSocketHandler.java:82-89 | the entry is removed and its process is no longer alive; other sessions untouched; no live process left unregistered |
| Console.ForwardOutput | src/main/java/io/monpanel/panel/ConsoleSocketHandler.java:55-64 | sends an in-order prefix of the output, as long as the session stays open; the line read after it closed is consumed and dropped |
| ServerPages.ListServers | src/main/java/io/monpanel/panel/ServerController.java:27-32 | exactly the servers the user owns |
| ServerPages.CreateServer | src/main/java/io/monpanel/panel/ServerController.java:40-83 | no egg: back to the form, nothing runs; otherwise a record with the form fields, owner and data path is saved with its container id only when creation succeeded, with the matching flash |
| ServerPages.DeleteServer | src/main/java/io/monpanel/panel/ServerController.java:85-101 | unknown: error flash; the record is removed only if the container was, otherwise kept with the cause |
| ServerPages.ForceDeleteServer | src/main/java/io/monpanel/panel/ServerController.java:103-118 | the record is removed whatever Docker answered |
| ServerPages.ViewServer | src/main/java/io/monpanel/panel/ServerController.java:120-139 | unknown id throws `Invalid server Id:<id>`; an `ollama` image gets the chat page and runs nothing; others get the game page with the statistics |
| ServerPages.HandleServerAction | src/main/java/io/monpanel/panel/ServerController.java:141-152 | unknown id throws; always back to `/server/<id>` with a flash naming the action and, on failure, the cause |
| ServerPages.ActionWithoutContainerRunsNothing | src/main/java/io/monpanel/panel/DockerService.java:159-160 | a server without a container id runs no command and gets the `ID de conteneur invalide.` error |

## Findings

| source | as written | input that shows it | evidently intended | confidence | as-written member | corrected member |
|---|---|---|---|---|---|---|
| src/main/java/io/monpanel/panel/ServerApiController.java:157 | `createDirectory` (and `createFile` at line 169, `uploadFile` at line 145) checks the parent folder, then resolves the client's name against it with no second check | folder `.` and name `../../escape` for a server whose data directory is `/srv/servers/u1` gives `/srv/escape`; an absolute name such as `/etc/cron.d/job` is used as is | every entry the file manager creates lies inside the server's data directory, like every other file endpoint | high; not executed | ServerApi.NewEntryAsWritten, ServerApi.NewEntryAsWrittenEscapes | ServerApi.NewEntry |

## Left out

- Running processes, reading their streams and waiting for them: each command's outcome is a parameter, and only the first line of stdout and stderr is seen, as the code reads no more.
- Logging: no effect on results.
- Jackson: parsing an egg file or a `docker stats` line is a parameter (`EggFile.egg`, `ParseOutcome`).
- The classpath scan: its result, in the order the resolver returns it, is `Init`'s parameter.
- File contents and effects of the file endpoints (listing, reading, writing, deleting, moving, copying, the `FileObject` fields and date format): only the path decisions are modelled; normalization is lexical, so symbolic links are not followed.
- The file endpoints' own `Serveur non trouvé` lookup: the path functions take the found server's data directory; a server without one (`Paths.get(null)`) is not modelled, since the panel saves a server only after setting it.
- JPaths.ParsePath: a path containing NUL, which `Paths.get` refuses, is not modelled.
- The RCON protocol (`SourceServer`, authentication, disconnect): the exchange's result is a parameter.
- `UUID.randomUUID`, `System.currentTimeMillis` and the working directory: parameters.
- `cpu` is a `double` in the source; the model keeps the string `String.valueOf` renders.
- Characters: Dafny strings hold code points, Java's UTF-16 units; they differ for characters outside the Basic Multilingual Plane (key order, `substring`, `capitalize`).
- Eggs.UpperCase: upper-cases ASCII and Latin-1 only, and ignores the default locale (Turkish dotted i); other first characters are kept as they are.
- Strings.ParseLong: accepts ASCII digits only, where `Long.parseLong` also accepts other Unicode decimal digits.
- Concurrency: the `ConcurrentHashMap`, the forwarding thread's interleaving with messages and closes, and the two threads of `pullLlmModel` are not modelled; each operation is atomic.
- `destroyForcibly` is asynchronous in Java; the model marks the process dead at once.
- `sendMessage` and `close` on the WebSocket session are taken to succeed; their IOExceptions are not modelled.
- An egg file holding JSON `null`: it would be filed as a null egg before the log line throws; not modelled.
- Repository.ServerRepository.Save: requires the record to be new or present, which is how the panel uses it; JPA's behaviour for a stale detached record is not modelled.
- `findByOwner` returns a list in database order; `ListServers` returns the set.
- The signed-in user is taken to exist (`findByUsername(...).get()`), and is held by name.
- `showCreateServerForm` and `filesPage` only put the catalogue or the record into a view, with no logic of their own.
- `Server.viewType` is neither read nor written by the core.
- `createMinecraftServer`, `createGenericServer` and `installA1111Model` of the Docker service are not part of this model; their results are parameters of `ChangeServerPort` and `InstallA1111Model`.
- ServerApi.ChangeServerPort: the creators are taken to change, on the server object they receive, only its host path (a parameter, with the id they return); any other field they might set is taken to stay as it was.
