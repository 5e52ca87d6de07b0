/**
 * DockerService: builds the `docker` command lines for one server and
 * decides, from what each command produced, what the caller gets back.
 * Every external command is replaced by its observable outcome, passed in
 * as a parameter; so are the random UUID, the clock and the JVM's working
 * directory.
 */
module Docker {
  import opened Outcomes
  import opened Strings
  import opened Entities
  import opened Stats

  // ---------------------------------------------------------------------
  // createServer

  /** The entries of a map that may be null: a null map contributes nothing. */
  function EntriesOf(m: Option<Pairs>): Pairs
  {
    if m.Some? then m.value else []
  }

  /** `flag, key<sep>value` for each entry, in the map's iteration order. */
  function FlagPairs(flag: string, sep: string, entries: Pairs): (r: seq<string>)
    ensures |r| == 2 * |entries|
    decreases |entries|
  {
    if entries == [] then []
    else
      var last := entries[|entries| - 1];
      FlagPairs(flag, sep, entries[..|entries| - 1]) + [flag, last.0 + sep + JavaStr(last.1)]
  }

  /** Argument 2i is the flag and argument 2i+1 renders entry i. */
  lemma {:induction false} FlagPairsAt(flag: string, sep: string, entries: Pairs, i: nat)
    requires i < |entries|
    ensures FlagPairs(flag, sep, entries)[2 * i] == flag
    ensures FlagPairs(flag, sep, entries)[2 * i + 1] == entries[i].0 + sep + JavaStr(entries[i].1)
    decreases |entries|
  {
    var n := |entries| - 1;
    if i < n {
      FlagPairsAt(flag, sep, entries[..n], i);
      assert entries[..n][i] == entries[i];
    }
  }

  /** The container name: the server name with each whitespace run turned into `_`, then `_<millis>`. */
  function ContainerName(name: string, millis: int): string
  {
    ReplaceSpaceRuns(name) + "_" + IntToString(millis)
  }

  /** `Paths.get("servers", uuid).toAbsolutePath().toString()` for the JVM working directory `workDir`. */
  function DataPath(workDir: string, uuid: string): string
  {
    (if workDir == "/" then "" else workDir) + "/servers/" + uuid
  }

  /** Two servers created with different UUIDs get different data directories. */
  lemma DataPathsDiffer(workDir: string, u1: string, u2: string)
    requires u1 != u2
    ensures DataPath(workDir, u1) != DataPath(workDir, u2)
  {
    var base := (if workDir == "/" then "" else workDir) + "/servers/";
    assert DataPath(workDir, u1)[|base|..] == u1;
    assert DataPath(workDir, u2)[|base|..] == u2;
  }

  /** The seven fixed leading arguments of `docker run`. */
  function RunHeader(server: Server, millis: int): seq<string>
  {
    ["docker", "run", "-d",
     "--memory=" + IntToString(server.memory) + "m",
     "--cpus=" + server.cpu,
     "--name", ContainerName(server.name, millis)]
  }

  /** The `docker run` argument vector for `server` (its data path already set) and `egg`. */
  function RunCommand(server: Server, egg: GameEgg, millis: int): seq<string>
  {
    RunHeader(server, millis)
    + FlagPairs("-p", ":", EntriesOf(egg.ports))
    + ["-v", JavaStr(server.hostPath) + ":/data"]
    + FlagPairs("-e", "=", EntriesOf(egg.environment))
    + [server.dockerImage]
  }

  /**
   * The frame of the vector: the seven fixed arguments first, two arguments
   * per port entry, the data-directory mount, two per environment entry,
   * and the image as the very last argument.
   */
  lemma RunCommandFrame(server: Server, egg: GameEgg, millis: int)
    ensures var r := RunCommand(server, egg, millis);
      var p := |EntriesOf(egg.ports)|;
      && |r| == 10 + 2 * p + 2 * |EntriesOf(egg.environment)|
      && r[..7] == ["docker", "run", "-d", "--memory=" + IntToString(server.memory) + "m",
                    "--cpus=" + server.cpu, "--name", ReplaceSpaceRuns(server.name) + "_" + IntToString(millis)]
      && r[7 + 2 * p] == "-v" && r[8 + 2 * p] == JavaStr(server.hostPath) + ":/data"
      && r[|r| - 1] == server.dockerImage
  {
    var head := RunHeader(server, millis);
    var r := RunCommand(server, egg, millis);
    assert |head| == 7;
    forall i | 0 <= i < 7
      ensures r[i] == head[i]
    {
    }
    assert r[..7] == head;
  }

  /** In `a + FlagPairs(..)`, the two arguments of entry i sit at |a|+2i and |a|+2i+1. */
  lemma PairsAfter(a: seq<string>, flag: string, sep: string, entries: Pairs, i: nat)
    requires i < |entries|
    ensures (a + FlagPairs(flag, sep, entries))[|a| + 2 * i] == flag
    ensures (a + FlagPairs(flag, sep, entries))[|a| + 2 * i + 1] == entries[i].0 + sep + JavaStr(entries[i].1)
  {
    FlagPairsAt(flag, sep, entries, i);
  }

  /** Arguments 7+2i and 8+2i are `-p` and `host:container` of port entry i. */
  lemma RunCommandPorts(server: Server, egg: GameEgg, millis: int)
    ensures var r := RunCommand(server, egg, millis);
      var ports := EntriesOf(egg.ports);
      forall i :: 0 <= i < |ports| ==> r[7 + 2 * i] == "-p" && r[8 + 2 * i] == ports[i].0 + ":" + JavaStr(ports[i].1)
  {
    var head := RunHeader(server, millis);
    var ports := EntriesOf(egg.ports);
    var front := head + FlagPairs("-p", ":", ports);
    var r := RunCommand(server, egg, millis);
    assert |head| == 7;
    forall i | 0 <= i < |ports|
      ensures r[7 + 2 * i] == "-p" && r[8 + 2 * i] == ports[i].0 + ":" + JavaStr(ports[i].1)
    {
      PairsAfter(head, "-p", ":", ports, i);
      assert r[7 + 2 * i] == front[7 + 2 * i];
      assert r[8 + 2 * i] == front[8 + 2 * i];
    }
  }

  /** After the mount, arguments come in pairs `-e`, `KEY=value`, one per environment entry. */
  lemma RunCommandEnvironment(server: Server, egg: GameEgg, millis: int)
    ensures var r := RunCommand(server, egg, millis);
      var p := |EntriesOf(egg.ports)|;
      var env := EntriesOf(egg.environment);
      forall j :: 0 <= j < |env| ==>
        r[9 + 2 * p + 2 * j] == "-e" && r[10 + 2 * p + 2 * j] == env[j].0 + "=" + JavaStr(env[j].1)
  {
    var front := RunHeader(server, millis) + FlagPairs("-p", ":", EntriesOf(egg.ports))
      + ["-v", JavaStr(server.hostPath) + ":/data"];
    var env := EntriesOf(egg.environment);
    var upTo := front + FlagPairs("-e", "=", env);
    var r := RunCommand(server, egg, millis);
    assert |front| == 9 + 2 * |EntriesOf(egg.ports)|;
    forall j | 0 <= j < |env|
      ensures r[|front| + 2 * j] == "-e" && r[|front| + 2 * j + 1] == env[j].0 + "=" + JavaStr(env[j].1)
    {
      PairsAfter(front, "-e", "=", env, j);
      assert r[|front| + 2 * j] == upTo[|front| + 2 * j];
      assert r[|front| + 2 * j + 1] == upTo[|front| + 2 * j + 1];
    }
  }

  /**
   * A generic egg with one port mapping and one environment variable, for a
   * server with 512 MiB and one CPU: the complete vector.
   */
  lemma OnePortOneVariableExample(server: Server, millis: int)
    requires server.memory == 512 && server.cpu == "1.0"
    ensures var egg := GameEgg(None, Some(server.dockerImage), None, Some([("8080", Some("80"))]), Some([("FOO", Some("bar"))]));
      RunCommand(server, egg, millis) ==
        ["docker", "run", "-d", "--memory=512m", "--cpus=1.0", "--name", ContainerName(server.name, millis),
         "-p", "8080:80", "-v", JavaStr(server.hostPath) + ":/data", "-e", "FOO=bar", server.dockerImage]
  {
    assert NatToString(5) == "5";
    assert NatToString(51) == "51";
    assert IntToString(512) == "512";
    assert "--memory=" + IntToString(512) + "m" == "--memory=512m";
    assert "--cpus=" + "1.0" == "--cpus=1.0";
    assert "8080" + ":" + JavaStr(Some("80")) == "8080:80";
    assert "FOO" + "=" + JavaStr(Some("bar")) == "FOO=bar";
    var one: Pairs := [("8080", Some("80"))];
    assert one[..0] == [];
    assert FlagPairs("-p", ":", one) == ["-p", "8080:80"];
    var env: Pairs := [("FOO", Some("bar"))];
    assert env[..0] == [];
    assert FlagPairs("-e", "=", env) == ["-e", "FOO=bar"];
  }

  /** Appends `flag, key<sep>value` for each entry, one entry per iteration, as the source's `forEach` does. */
  method AppendFlagPairs(command: seq<string>, flag: string, sep: string, entries: Pairs) returns (r: seq<string>)
    ensures r == command + FlagPairs(flag, sep, entries)
  {
    r := command;
    var i := 0;
    while i < |entries|
      invariant 0 <= i <= |entries|
      invariant r == command + FlagPairs(flag, sep, entries[..i])
    {
      assert entries[..i + 1][..i] == entries[..i];
      assert FlagPairs(flag, sep, entries[..i + 1])
        == FlagPairs(flag, sep, entries[..i]) + [flag, entries[i].0 + sep + JavaStr(entries[i].1)];
      r := r + [flag, entries[i].0 + sep + JavaStr(entries[i].1)];
      i := i + 1;
    }
    assert entries[..|entries|] == entries;
  }

  /**
   * Builds the argument vector as the source does: the fixed header, then
   * one `add` pair per port entry, the mount, one pair per environment
   * entry, and the image.
   */
  method BuildRunCommand(server: Server, egg: GameEgg, millis: int) returns (command: seq<string>)
    ensures command == RunCommand(server, egg, millis)
  {
    command := RunHeader(server, millis);
    if egg.ports.Some? {
      command := AppendFlagPairs(command, "-p", ":", egg.ports.value);
    }
    command := command + ["-v", JavaStr(server.hostPath) + ":/data"];
    if egg.environment.Some? {
      command := AppendFlagPairs(command, "-e", "=", egg.environment.value);
    }
    command := command + [server.dockerImage];
  }

  /** The prefix every message of a failed `createServer` carries. */
  function CreateFailure(cause: string): string
  {
    "Impossible de créer le conteneur Docker. Erreur : " + cause
  }

  const NoContainerId: string :=
    "N'a pas pu récupérer l'ID du conteneur. Docker est-il bien installé et en cours d'exécution ?"

  /**
   * What `createServer` returns, or the message it throws, once `docker run`
   * has produced `run`: the exit code is checked first, then the first
   * stdout line must be non-empty, and the id is its first 12 characters.
   */
  function ContainerIdFrom(run: CommandOutcome): (r: Result<string>)
    ensures r.Ok? <==> run.Exited? && run.code == 0 && run.stdout.Some? && |run.stdout.value| >= 12
    ensures r.Ok? ==> |r.value| == 12 && r.value <= run.stdout.value
    ensures run.Exited? && run.code != 0 ==> r == Err(CreateFailure("Erreur Docker : " + JavaStr(run.stderr)))
    ensures run.Exited? && run.code == 0 && (run.stdout.None? || run.stdout.value == "") ==> r == Err(CreateFailure(NoContainerId))
    ensures run.LaunchFailed? ==> r == Err(CreateFailure(JavaStr(run.message)))
    ensures run.Exited? && run.code == 0 && run.stdout.Some? && 0 < |run.stdout.value| < 12 ==>
      r == Err(CreateFailure("begin 0, end 12, length " + IntToString(|run.stdout.value|)))
  {
    match run
    case LaunchFailed(m) => Err(CreateFailure(JavaStr(m)))
    case Exited(code, out, err) =>
      if code != 0 then Err(CreateFailure("Erreur Docker : " + JavaStr(err)))
      else if out.None? || out.value == "" then Err(CreateFailure(NoContainerId))
      else if |out.value| < 12 then Err(CreateFailure("begin 0, end 12, length " + IntToString(|out.value|)))
      else Ok(out.value[..12])
  }

  /**
   * `createServer`: a fresh data directory is created and set on the server
   * before anything runs; if that fails, its IOException propagates and no
   * command is run. Otherwise `docker run` is run with the vector above and
   * its outcome decides the result. `mkdir` is what creating the directory
   * did, `workDir` the JVM's working directory, `uuid` the random UUID.
   */
  method CreateServer(server: Server, egg: GameEgg, workDir: string, uuid: string, mkdir: Outcome,
                      millis: int, run: CommandOutcome)
    returns (updated: Server, command: Option<seq<string>>, result: Result<string>)
    ensures mkdir.Failure? ==> updated == server && command.None? && result == Err(mkdir.message)
    ensures mkdir.Success? ==>
      && updated == server.(hostPath := Some(DataPath(workDir, uuid)))
      && command == Some(RunCommand(updated, egg, millis))
      && result == ContainerIdFrom(run)
  {
    if mkdir.Failure? {
      return server, None, Err(mkdir.message);
    }
    updated := server.(hostPath := Some(DataPath(workDir, uuid)));
    var argv := BuildRunCommand(updated, egg, millis);
    command := Some(argv);
    result := ContainerIdFrom(run);
  }

  // ---------------------------------------------------------------------
  // getStats

  /** The four fields read from `docker stats --format {{json .}}`; a field the JSON lacks is null. */
  datatype StatsData = StatsData(
    cpuPercent: Option<string>,
    memoryUsage: Option<string>,
    netIO: Option<string>,
    blockIO: Option<string>)

  /** What Jackson made of the stats line: the data, or the message of the exception it threw. */
  datatype ParseOutcome = Parsed(data: StatsData) | ParseFailed(message: Option<string>)

  function InspectCommand(id: string): seq<string>
  {
    ["docker", "inspect", "--format='{{.State.Running}}'", id]
  }

  function SampleCommand(id: string): seq<string>
  {
    ["docker", "stats", "--no-stream", "--format", "{{json .}}", id]
  }

  /** The stats query is refused without asking Docker. */
  predicate MissingId(containerId: Option<string>)
  {
    containerId.None? || IsBlank(containerId.value)
  }

  /** `docker inspect` exited 0 and printed `true` once its quotes are removed. */
  predicate ReportsRunning(inspect: CommandOutcome)
  {
    inspect.Exited? && inspect.code == 0 && inspect.stdout.Some? && RemoveAll(inspect.stdout.value, '\'') == "true"
  }

  /**
   * `getStats`, which never throws: every path ends in a snapshot. `inspect`
   * and `sample` are what `docker inspect` and `docker stats` produced
   * (the exit code of `docker stats` is not looked at), `parse` what Jackson
   * made of the stats line, and `nullMessage` the message of the
   * NullPointerException raised when `docker inspect` exits 0 without output.
   */
  function StatsFor(containerId: Option<string>, inspect: CommandOutcome, nullMessage: Option<string>,
                    sample: CommandOutcome, parse: ParseOutcome): (r: Snapshot)
    ensures MissingId(containerId) ==> r == OfflineSnapshot.(error := Some("Container ID is missing."))
    ensures !MissingId(containerId) && inspect.Exited? && inspect.code != 0 ==> r == OfflineSnapshot
    ensures !MissingId(containerId) && inspect.Exited? && inspect.stdout.Some? && !ReportsRunning(inspect) ==> r == OfflineSnapshot
    ensures !MissingId(containerId) && inspect.LaunchFailed? ==> r == OfflineSnapshot.(error := inspect.message)
    ensures !MissingId(containerId) && inspect.Exited? && inspect.code == 0 && inspect.stdout.None? ==>
      r == OfflineSnapshot.(error := nullMessage)
    ensures !MissingId(containerId) && ReportsRunning(inspect) && sample.LaunchFailed? ==>
      r == OfflineSnapshot.(error := sample.message)
    ensures !MissingId(containerId) && ReportsRunning(inspect) && sample.Exited? && parse.ParseFailed? ==>
      r == OfflineSnapshot.(error := parse.message)
    ensures !r.offline <==> !MissingId(containerId) && ReportsRunning(inspect) && sample.Exited? && parse.Parsed?
    ensures r.offline ==> HasPlaceholderFigures(r)
    ensures !r.offline ==>
      && r.cpuPercent == parse.data.cpuPercent && r.memoryUsage == parse.data.memoryUsage
      && r.netIO == parse.data.netIO && r.blockIO == parse.data.blockIO && r.error.None?
  {
    if MissingId(containerId) then OfflineSnapshot.(error := Some("Container ID is missing."))
    else match inspect
      case LaunchFailed(m) => OfflineSnapshot.(error := m)
      case Exited(code, out, _) =>
        if code != 0 then OfflineSnapshot
        else if out.None? then OfflineSnapshot.(error := nullMessage)
        else if RemoveAll(out.value, '\'') != "true" then OfflineSnapshot
        else match sample
          case LaunchFailed(m) => OfflineSnapshot.(error := m)
          case Exited(_, _, _) =>
            match parse
            case ParseFailed(m) => OfflineSnapshot.(error := m)
            case Parsed(d) => Snapshot(d.cpuPercent, d.memoryUsage, d.netIO, d.blockIO, false, None)
  }

  /** The commands `getStats` runs: none for a missing id, the inspection, and the sample only for a running container. */
  function StatsCommands(containerId: Option<string>, inspect: CommandOutcome): (r: seq<seq<string>>)
    ensures MissingId(containerId) <==> r == []
    ensures |r| == 2 <==> !MissingId(containerId) && ReportsRunning(inspect)
    ensures |r| <= 2
    ensures !MissingId(containerId) ==> r[0] == InspectCommand(containerId.value)
    ensures |r| == 2 ==> r[1] == SampleCommand(containerId.value)
  {
    if MissingId(containerId) then []
    else if ReportsRunning(inspect) then [InspectCommand(containerId.value), SampleCommand(containerId.value)]
    else [InspectCommand(containerId.value)]
  }

  /** `getStats` as the source runs it: a fresh ServerStats filled in through its setters. */
  method GetStats(containerId: Option<string>, inspect: CommandOutcome, nullMessage: Option<string>,
                  sample: CommandOutcome, parse: ParseOutcome)
    returns (stats: ServerStats, commands: seq<seq<string>>)
    ensures fresh(stats)
    ensures stats.Current() == StatsFor(containerId, inspect, nullMessage, sample, parse)
    ensures commands == StatsCommands(containerId, inspect)
  {
    stats := new ServerStats();
    if containerId.None? || IsBlank(containerId.value) {
      stats.SetError(Some("Container ID is missing."));
      return stats, [];
    }
    var id := containerId.value;
    commands := [InspectCommand(id)];
    match inspect {
      case LaunchFailed(m) =>
        stats.SetError(m);
      case Exited(code, out, _) =>
        if code != 0 {
          return;
        }
        if out.None? {
          stats.SetError(nullMessage);
          return;
        }
        if RemoveAll(out.value, '\'') != "true" {
          return;
        }
        commands := commands + [SampleCommand(id)];
        match sample {
          case LaunchFailed(m) =>
            stats.SetError(m);
          case Exited(_, _, _) =>
            match parse {
              case ParseFailed(m) =>
                stats.SetError(m);
              case Parsed(d) =>
                stats.SetCpuPercent(d.cpuPercent);
                stats.SetMemoryUsage(d.memoryUsage);
                stats.SetNetIO(d.netIO);
                stats.SetBlockIO(d.blockIO);
                stats.SetOffline(false);
            }
        }
    }
  }

  // ---------------------------------------------------------------------
  // deleteServerContainer, performServerAction, pullLlmModel

  /** The commands a service method ran, in order, and how the method ended. */
  datatype Run = Run(commands: seq<seq<string>>, outcome: Outcome)

  predicate IsNullOrEmpty(s: Option<string>)
  {
    s.None? || s.value == ""
  }

  predicate ExitedZero(run: CommandOutcome)
  {
    run.Exited? && run.code == 0
  }

  function DeleteFailure(cause: string): string
  {
    "Impossible de supprimer le conteneur Docker. Erreur : " + cause
  }

  /**
   * `deleteServerContainer`: nothing to do without an id; otherwise `docker
   * stop` (whatever it does is ignored) then `docker rm`, whose launch
   * failure or non-zero exit is the only way to fail.
   */
  function DeleteContainer(containerId: Option<string>, stop: CommandOutcome, rm: CommandOutcome): (r: Run)
    ensures IsNullOrEmpty(containerId) ==> r == Run([], Success)
    ensures !IsNullOrEmpty(containerId) ==>
      r.commands == [["docker", "stop", containerId.value], ["docker", "rm", containerId.value]]
    ensures r.outcome.Failure? <==> !IsNullOrEmpty(containerId) && !ExitedZero(rm)
    ensures !IsNullOrEmpty(containerId) && rm.Exited? && rm.code != 0 ==>
      r.outcome == Failure(DeleteFailure("Erreur Docker lors de la suppression : " + JavaStr(rm.stderr)))
    ensures !IsNullOrEmpty(containerId) && rm.LaunchFailed? ==>
      r.outcome == Failure(DeleteFailure(JavaStr(rm.message)))
  {
    if IsNullOrEmpty(containerId) then Run([], Success)
    else
      var id := containerId.value;
      var commands := [["docker", "stop", id], ["docker", "rm", id]];
      match rm
      case LaunchFailed(m) => Run(commands, Failure(DeleteFailure(JavaStr(m))))
      case Exited(code, _, err) =>
        if code != 0 then Run(commands, Failure(DeleteFailure("Erreur Docker lors de la suppression : " + JavaStr(err))))
        else Run(commands, Success)
  }

  /** Whatever `docker stop` did, the deletion ends the same way. */
  lemma DeleteIgnoresStop(containerId: Option<string>, stop1: CommandOutcome, stop2: CommandOutcome, rm: CommandOutcome)
    ensures DeleteContainer(containerId, stop1, rm) == DeleteContainer(containerId, stop2, rm)
  {
  }

  /**
   * `performServerAction`: an empty id is refused before anything runs;
   * otherwise exactly `docker <action> <id>` runs, `action` unchecked, and
   * a non-zero exit is a failure carrying the first stderr line.
   */
  function PerformAction(containerId: Option<string>, action: string, run: CommandOutcome): (r: Run)
    ensures IsNullOrEmpty(containerId) ==> r == Run([], Failure("ID de conteneur invalide."))
    ensures !IsNullOrEmpty(containerId) ==> r.commands == [["docker", action, containerId.value]]
    ensures r.outcome.Success? <==> !IsNullOrEmpty(containerId) && ExitedZero(run)
    ensures !IsNullOrEmpty(containerId) && run.Exited? && run.code != 0 ==>
      r.outcome == Failure("Erreur Docker lors de l'action '" + action + "': " + JavaStr(run.stderr))
    ensures !IsNullOrEmpty(containerId) && run.LaunchFailed? ==> r.outcome == Failure(JavaStr(run.message))
  {
    if IsNullOrEmpty(containerId) then Run([], Failure("ID de conteneur invalide."))
    else
      var commands := [["docker", action, containerId.value]];
      match run
      case LaunchFailed(m) => Run(commands, Failure(JavaStr(m)))
      case Exited(code, _, err) =>
        if code != 0 then Run(commands, Failure("Erreur Docker lors de l'action '" + action + "': " + JavaStr(err)))
        else Run(commands, Success)
  }

  const PullArgumentsRequired: string := "L'ID du conteneur et le nom du modèle sont requis."
  const PullFailed: string := "Échec du téléchargement du modèle. Vérifiez les logs pour plus de détails."

  /**
   * `pullLlmModel`: a blank id or model name is refused before anything
   * runs; otherwise `docker exec <id> ollama pull <model>` runs and a
   * non-zero exit is a failure.
   */
  function PullModel(containerId: Option<string>, modelName: string, run: CommandOutcome): (r: Run)
    ensures MissingId(containerId) || IsBlank(modelName) ==> r == Run([], Failure(PullArgumentsRequired))
    ensures !MissingId(containerId) && !IsBlank(modelName) ==>
      r.commands == [["docker", "exec", containerId.value, "ollama", "pull", modelName]]
    ensures r.outcome.Success? <==> !MissingId(containerId) && !IsBlank(modelName) && ExitedZero(run)
    ensures !MissingId(containerId) && !IsBlank(modelName) && run.Exited? && run.code != 0 ==>
      r.outcome == Failure(PullFailed)
    ensures !MissingId(containerId) && !IsBlank(modelName) && run.LaunchFailed? ==>
      r.outcome == Failure(JavaStr(run.message))
  {
    if MissingId(containerId) || IsBlank(modelName) then Run([], Failure(PullArgumentsRequired))
    else
      var commands := [["docker", "exec", containerId.value, "ollama", "pull", modelName]];
      match run
      case LaunchFailed(m) => Run(commands, Failure(JavaStr(m)))
      case Exited(code, _, _) =>
        if code != 0 then Run(commands, Failure(PullFailed)) else Run(commands, Success)
  }
}
