/**
 * The REST controller behind a server's page: statistics, console commands
 * over RCON, the sandboxed file manager, model downloads and the port
 * change. Every endpoint first loads the server and throws
 * "Serveur non trouvé" when there is none.
 */
module ServerApi {
  import opened Outcomes
  import opened Strings
  import opened Entities
  import opened Stats
  import opened Docker
  import opened Eggs
  import opened JPaths
  import opened Repository

  /** An HTTP answer with its status, or the exception that escapes the controller. */
  datatype Reply = Reply(status: int, body: string) | Thrown(message: string)

  const NotFound: string := "Serveur non trouvé"

  // ---------------------------------------------------------------------
  // Statistics and RCON

  /** `getServerStats`: the server's container statistics. */
  function ServerStatsOf(repo: ServerRepository, id: int, inspect: CommandOutcome, nullMessage: Option<string>,
                         sample: CommandOutcome, parse: ParseOutcome): (r: Result<Snapshot>)
    reads repo
    ensures id !in repo.records ==> r == Err(NotFound)
    ensures id in repo.records ==> r == Ok(StatsFor(repo.records[id].containerId, inspect, nullMessage, sample, parse))
  {
    if id !in repo.records then Err(NotFound)
    else Ok(StatsFor(repo.records[id].containerId, inspect, nullMessage, sample, parse))
  }

  const RconHost: string := "localhost"
  const RconPassword: string := "supersecretpassword"

  /** The RCON port: the game port plus one, in 32-bit `int` arithmetic. */
  function RconPort(server: Server): Int32
  {
    AddInt32(server.hostPort, 1)
  }

  /** For every valid TCP game port but the last, RCON listens on the next port; `int` overflow wraps. */
  lemma RconPortIsNextPort(server: Server)
    ensures 0 <= server.hostPort < 65535 ==> RconPort(server) == server.hostPort + 1 && RconPort(server) <= 65535
    ensures server.hostPort == IntMax ==> RconPort(server) == IntMin
  {
  }

  /** What the RCON exchange gave: the server's answer, or the exception's message. */
  datatype RconOutcome = Answered(response: string) | RconFailed(message: Option<string>)

  /** The RCON exchange the endpoint opens: where it connects, the password it sends, and the command. */
  datatype RconRequest = RconRequest(host: string, port: Int32, password: string, command: string)

  /**
   * `sendServerCommand`: the command goes over RCON to the game port plus
   * one on localhost; the answer is returned as the body, and any failure
   * is turned into a message body rather than an error status. The second
   * component is the exchange that was opened, if any.
   */
  function SendServerCommand(repo: ServerRepository, id: int, command: string, rcon: RconOutcome): (r: (Reply, Option<RconRequest>))
    reads repo
    ensures id !in repo.records <==> r.0 == Thrown(NotFound)
    ensures id !in repo.records ==> r.1.None?
    ensures id in repo.records ==> r.1 == Some(RconRequest(RconHost, RconPort(repo.records[id]), RconPassword, command))
    ensures id in repo.records ==> r.0.Reply? && r.0.status == 200
    ensures id in repo.records && rcon.Answered? ==> r.0.body == rcon.response
    ensures id in repo.records && rcon.RconFailed? ==>
      r.0.body == "Erreur lors de l'envoi de la commande : " + JavaStr(rcon.message)
  {
    if id !in repo.records then (Thrown(NotFound), None)
    else
      var request := RconRequest(RconHost, AddInt32(repo.records[id].hostPort, 1), RconPassword, command);
      match rcon
      case Answered(response) => (Reply(200, response), Some(request))
      case RconFailed(m) => (Reply(200, "Erreur lors de l'envoi de la commande : " + JavaStr(m)), Some(request))
  }

  // ---------------------------------------------------------------------
  // File manager

  /**
   * `renameFile`: both paths are checked; the old one first, so its
   * refusal is the one reported when both are outside the data directory.
   */
  function RenameTargets(hostPath: string, oldPath: string, newPath: string): (r: Result<(Path, Path)>)
    ensures r.Ok? <==> ResolveServerPath(hostPath, oldPath).Ok? && ResolveServerPath(hostPath, newPath).Ok?
    ensures r.Ok? ==> StartsWith(r.value.0, ParsePath(hostPath)) && StartsWith(r.value.1, ParsePath(hostPath))
    ensures ResolveServerPath(hostPath, oldPath).Err? ==> r == Err(ResolveServerPath(hostPath, oldPath).message)
    ensures r.Ok? ==> r.value == (ResolveServerPath(hostPath, oldPath).value, ResolveServerPath(hostPath, newPath).value)
    ensures ResolveServerPath(hostPath, oldPath).Ok? && ResolveServerPath(hostPath, newPath).Err? ==>
      r == Err(ResolveServerPath(hostPath, newPath).message)
  {
    match ResolveServerPath(hostPath, oldPath)
    case Err(m) => Err(m)
    case Ok(from) =>
      match ResolveServerPath(hostPath, newPath)
      case Err(m) => Err(m)
      case Ok(to) => Ok((from, to))
  }

  /**
   * Where `createDirectory`, `createFile` and `uploadFile` write, as the
   * code is written: the parent folder is checked, then the new name is
   * resolved against it without a second check. The result is what is
   * handed to the file system, which then resolves its `..` elements.
   */
  function NewEntryAsWritten(host: Path, parent: Path, name: Path): (r: Result<Path>)
    ensures r.Ok? <==> ResolveWithin(host, parent).Ok?
    ensures r.Ok? ==> r.value == Resolve(ResolveWithin(host, parent).value, name)
  {
    match ResolveWithin(host, parent)
    case Err(m) => Err(m)
    case Ok(dir) => Ok(Resolve(dir, name))
  }

  /**
   * A new name with `..` elements escapes the data directory: creating
   * `../../escape` in the root of `/srv/servers/u1` writes `/srv/escape`.
   */
  lemma NewEntryAsWrittenEscapes()
    ensures var host := Path(true, ["srv", "servers", "u1"]);
      var r := NewEntryAsWritten(host, Path(false, ["."]), Path(false, ["..", "..", "escape"]));
      && r.Ok?
      && Normalize(r.value) == Path(true, ["srv", "escape"])
      && !StartsWith(Normalize(r.value), host)
  {
    var host := Path(true, ["srv", "servers", "u1"]);
    DescendingPathAccepted(host, Path(false, ["."]));
    assert WithoutDots(["."]) == [];
    assert host.names + [] == host.names;
    assert host.names + ["..", "..", "escape"] == ["srv", "servers", "u1", "..", "..", "escape"];
    EscapeNormalizes();
  }

  lemma EscapeNormalizes()
    ensures Fold(true, [], ["srv", "servers", "u1", "..", "..", "escape"]) == ["srv", "escape"]
  {
    var host: seq<string> := ["srv", "servers", "u1"];
    var climb := host + Repeat("..", 2);
    assert Repeat("..", 2) == ["..", ".."];
    assert ["srv", "servers", "u1", "..", "..", "escape"] == climb + ["escape"];
    FoldAppend(true, [], climb, ["escape"]);
    ParentsFromRoot(host, 2);
    assert host[..1] == ["srv"];
    assert Fold(true, [], climb) == ["srv"];
    FoldDownward(true, ["srv"], ["escape"]);
    assert WithoutDots(["escape"]) == ["escape"];
  }

  /** An absolute new name is not anchored at all: `/etc/cron.d/job` is written where it says. */
  lemma NewEntryAsWrittenAbsolute(host: Path, parent: Path)
    requires ResolveWithin(host, parent).Ok?
    ensures NewEntryAsWritten(host, parent, Path(true, ["etc", "cron.d", "job"])) == Ok(Path(true, ["etc", "cron.d", "job"]))
  {
  }

  /**
   * The evident intent: the new entry itself is checked like every other
   * path, so it is accepted only when, after normalization, it lies in the
   * data directory.
   */
  function NewEntry(host: Path, parent: Path, name: Path): (r: Result<Path>)
    ensures r.Ok? ==> StartsWith(r.value, host) && Normalize(r.value) == r.value
    ensures r.Ok? ==> (ResolveWithin(host, parent).Ok? &&
      r.value == Normalize(Resolve(ResolveWithin(host, parent).value, name)))
    ensures ResolveWithin(host, parent).Ok? && r.Err? ==>
      !StartsWith(Normalize(Resolve(ResolveWithin(host, parent).value, name)), host)
  {
    match ResolveWithin(host, parent)
    case Err(m) => Err(m)
    case Ok(dir) =>
      var target := Normalize(Resolve(dir, name));
      NormalizeIdempotent(Resolve(dir, name));
      if StartsWith(target, host) then Ok(target)
      else Err("Accès non autorisé au chemin : " + PathString(target))
  }

  /** Where the checked endpoints accept a name, they write exactly where the written code would. */
  lemma NewEntryAgreesWhenInside(host: Path, parent: Path, name: Path)
    requires NewEntry(host, parent, name).Ok?
    ensures NewEntryAsWritten(host, parent, name).Ok?
    ensures Normalize(NewEntryAsWritten(host, parent, name).value) == NewEntry(host, parent, name).value
  {
  }

  // ---------------------------------------------------------------------
  // Model downloads

  /** `replaceAll("\"", "").trim()` on a request body. */
  function Clean(body: string): string
  {
    Trim(RemoveAll(body, '"'))
  }

  /** A cleaned body holds no quote. */
  lemma CleanHasNoQuote(body: string)
    ensures '"' !in Clean(body)
  {
    var x := RemoveAll(body, '"');
    var t := TrimStart(x);
    var r := TrimEnd(t);
    forall i | 0 <= i < |t|
      ensures t[i] != '"'
    {
      assert t[i] == x[|x| - |t| + i];
    }
    forall i | 0 <= i < |r|
      ensures r[i] != '"'
    {
      assert r[i] == t[i];
    }
  }

  /** A cleaned body holds no quote and starts and ends above U+0020. */
  lemma CleanShape(body: string)
    ensures '"' !in Clean(body)
    ensures var r := Clean(body); |r| == 0 || (r[0] > ' ' && r[|r| - 1] > ' ')
  {
    CleanHasNoQuote(body);
    TrimEnds(RemoveAll(body, '"'));
  }

  /** Cleaning a cleaned body changes nothing. */
  lemma CleanIdempotent(body: string)
    ensures Clean(Clean(body)) == Clean(body)
  {
    CleanShape(body);
    TrimIdempotent(RemoveAll(body, '"'));
  }

  lemma {:induction false} TrimStartOfControls(s: string)
    requires forall i :: 0 <= i < |s| ==> s[i] <= ' '
    ensures TrimStart(s) == ""
    decreases |s|
  {
    if |s| > 0 {
      TrimStartOfControls(s[1..]);
    }
  }

  /** A body of quotes and control characters cleans to the empty string. */
  lemma CleanOfQuotesAndBlanks(body: string)
    requires forall i :: 0 <= i < |body| ==> body[i] == '"' || body[i] <= ' '
    ensures Clean(body) == ""
  {
    var x := RemoveAll(body, '"');
    forall i | 0 <= i < |x|
      ensures x[i] <= ' '
    {
      assert x[i] in x;
    }
    TrimStartOfControls(x);
  }

  /**
   * `pullLlmModel`: the cleaned model name is pulled in the server's
   * container; success and failure both answer with a message.
   */
  function PullLlmModel(repo: ServerRepository, id: int, modelName: string, run: CommandOutcome): (r: (Reply, seq<seq<string>>))
    reads repo
    ensures id !in repo.records ==> r == (Thrown(NotFound), [])
    ensures id in repo.records ==>
      var pull := PullModel(repo.records[id].containerId, Clean(modelName), run);
      && r.1 == pull.commands
      && (pull.outcome.Success? ==>
            r.0 == Reply(200, "Téléchargement du modèle '" + Clean(modelName) + "' lancé avec succès."))
      && (pull.outcome.Failure? ==>
            r.0 == Reply(500, "Échec du téléchargement du modèle : " + pull.outcome.message))
  {
    if id !in repo.records then (Thrown(NotFound), [])
    else
      var clean := Clean(modelName);
      var pull := PullModel(repo.records[id].containerId, clean, run);
      match pull.outcome
      case Success => (Reply(200, "Téléchargement du modèle '" + clean + "' lancé avec succès."), pull.commands)
      case Failure(m) => (Reply(500, "Échec du téléchargement du modèle : " + m), pull.commands)
  }

  /** A model name made only of quotes and blanks runs nothing and is refused. */
  lemma PullOfEmptyNameRunsNothing(repo: ServerRepository, id: int, modelName: string, run: CommandOutcome)
    requires id in repo.records
    requires forall i :: 0 <= i < |modelName| ==> modelName[i] == '"' || modelName[i] <= ' '
    ensures PullLlmModel(repo, id, modelName, run) ==
      (Reply(500, "Échec du téléchargement du modèle : " + PullArgumentsRequired), [])
  {
    CleanOfQuotesAndBlanks(modelName);
    assert Clean(modelName) == [];
    assert IsBlank([]);
    assert PullModel(repo.records[id].containerId, [], run) == Run([], Failure(PullArgumentsRequired));
  }

  /**
   * `installA1111Model`: `install` is what the Docker service's installer
   * did with the cleaned URL, which is returned beside the reply.
   */
  function InstallA1111Model(repo: ServerRepository, id: int, modelUrl: string, install: Outcome): (r: (Reply, Option<string>))
    reads repo
    ensures id !in repo.records ==> r == (Thrown(NotFound), None)
    ensures id in repo.records ==> r.1 == Some(Clean(modelUrl))
    ensures id in repo.records && install.Success? ==> r.0 == Reply(200, "Installation du modèle lancée.")
    ensures id in repo.records && install.Failure? ==> r.0 == Reply(500, "Échec de l'installation : " + install.message)
  {
    if id !in repo.records then (Thrown(NotFound), None)
    else match install
      case Success => (Reply(200, "Installation du modèle lancée."), Some(Clean(modelUrl)))
      case Failure(m) => (Reply(500, "Échec de l'installation : " + m), Some(Clean(modelUrl)))
  }

  // ---------------------------------------------------------------------
  // Port change

  /** Which Docker service method builds the new container. */
  datatype Creator = MinecraftCreator | GenericCreator

  /** The Minecraft path is taken for a `server` view whose image is an itzg Minecraft image. */
  function CreatorFor(egg: GameEgg): Creator
  {
    if egg.viewType == Some("server") && egg.dockerImage.Some? && Contains(egg.dockerImage.value, "itzg/minecraft-server")
    then MinecraftCreator else GenericCreator
  }

  const PortChanged: string := "Le port a été changé et le serveur a été redémarré avec succès."

  function PortChangeFailure(cause: string): string
  {
    "Erreur lors du changement de port : " + cause
  }

  /**
   * What a container creator did to the server object it was handed: the
   * host path it left on it (`createServer` sets a fresh one) and the
   * container id it returned, which may be null.
   */
  datatype CreatorEffect = CreatorEffect(hostPath: Option<string>, containerId: Option<string>)

  /**
   * `changeServerPort`. The egg is looked up by the server's image; then
   * the old container is deleted (`stop`, `rm`), the port set, a new
   * container created (`create`: what the chosen creator did, or the
   * message it threw) and the record saved with the new port, the host
   * path the creator left and the id it returned. Any failure answers 500
   * and saves nothing.
   */
  method ChangeServerPort(repo: ServerRepository, eggs: Catalogue, id: int, newPort: Int32,
                          stop: CommandOutcome, rm: CommandOutcome, create: Result<CreatorEffect>)
    returns (reply: Reply, commands: seq<seq<string>>, creator: Option<Creator>)
    requires repo.Valid()
    modifies repo
    ensures repo.Valid()
    ensures id !in old(repo.records) ==>
      reply == Thrown(NotFound) && commands == [] && creator.None? && repo.records == old(repo.records)
    ensures id in old(repo.records) && FindEgg(eggs, old(repo.records[id]).dockerImage).None? ==>
      reply == Reply(500, "Configuration (Egg) introuvable.") && commands == [] && creator.None?
      && repo.records == old(repo.records)
    ensures id in old(repo.records) && FindEgg(eggs, old(repo.records[id]).dockerImage).Some? ==>
      var server := old(repo.records[id]);
      var egg := FindEgg(eggs, server.dockerImage).value;
      var deletion := DeleteContainer(server.containerId, stop, rm);
      && commands == deletion.commands
      && (deletion.outcome.Failure? ==>
            reply == Reply(500, PortChangeFailure(deletion.outcome.message)) && creator.None?
            && repo.records == old(repo.records))
      && (deletion.outcome.Success? && create.Err? ==>
            reply == Reply(500, PortChangeFailure(create.message)) && creator == Some(CreatorFor(egg))
            && repo.records == old(repo.records))
      && (deletion.outcome.Success? && create.Ok? ==>
            reply == Reply(200, PortChanged) && creator == Some(CreatorFor(egg))
            && repo.records == old(repo.records)[id := server.(hostPort := newPort, hostPath := create.value.hostPath,
                                                                    containerId := create.value.containerId)])
    ensures repo.nextId == old(repo.nextId)
  {
    if id !in repo.records {
      return Thrown(NotFound), [], None;
    }
    var server := repo.records[id];
    var found := FindEgg(eggs, server.dockerImage);
    if found.None? {
      return Reply(500, "Configuration (Egg) introuvable."), [], None;
    }
    var egg := found.value;
    var deletion := DeleteContainer(server.containerId, stop, rm);
    commands := deletion.commands;
    if deletion.outcome.Failure? {
      return Reply(500, PortChangeFailure(deletion.outcome.message)), commands, None;
    }
    server := server.(hostPort := newPort);
    creator := Some(CreatorFor(egg));
    if create.Err? {
      reply := Reply(500, PortChangeFailure(create.message));
      return;
    }
    server := server.(hostPath := create.value.hostPath, containerId := create.value.containerId);
    var saved := repo.Save(server);
    reply := Reply(200, PortChanged);
  }
}
