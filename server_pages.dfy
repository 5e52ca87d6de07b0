/**
 * The MVC controller behind the server list and a server's page: create,
 * delete, force-delete, view and power actions. Each answer is a view name
 * (a redirect for the form posts) and at most one flash message.
 */
module ServerPages {
  import opened Outcomes
  import opened Strings
  import opened Entities
  import opened Stats
  import opened Docker
  import opened Eggs
  import opened Repository

  datatype Flash = SuccessMessage(text: string) | ErrorMessage(text: string)

  datatype Page = Page(view: string, flash: Option<Flash>)

  const ServersPage: string := "redirect:/servers"

  /** `listServers`: the signed-in user's servers, and only those. */
  function ListServers(repo: ServerRepository, user: string): (r: set<Server>)
    reads repo
    ensures forall s :: s in r ==> s in repo.records.Values && s.owner == Some(user)
    ensures forall id :: id in repo.records && repo.records[id].owner == Some(user) ==> repo.records[id] in r
  {
    set id | id in repo.records && repo.records[id].owner == Some(user) :: repo.records[id]
  }

  /** The record `createServer` fills in from the form, before Docker sees it. */
  function NewServer(user: string, serverName: string, serverPort: Int32, dockerImage: string,
                     memory: Int32, cpu: string, disk: Int32): Server
  {
    Server(None, serverName, None, dockerImage, serverPort, None, Some(user), memory, cpu, disk)
  }

  /**
   * `createServer`. Without an egg for the image nothing runs and the user
   * is sent back to the form. Otherwise the Docker service creates the
   * container (`mkdir`, `run`: what creating the data directory and
   * `docker run` did) and the record is saved, with its container id, only
   * when that succeeded.
   */
  method CreateServer(repo: ServerRepository, eggs: Catalogue, user: string, serverName: string,
                      serverPort: Int32, dockerImage: string, memory: Int32, cpu: string, disk: Int32,
                      workDir: string, uuid: string, mkdir: Outcome, millis: int, run: CommandOutcome)
    returns (page: Page, command: Option<seq<string>>)
    requires repo.Valid()
    modifies repo
    ensures repo.Valid()
    ensures FindEgg(eggs, dockerImage).None? ==>
      && page == Page("redirect:/servers/new",
                      Some(ErrorMessage("Impossible de trouver la configuration (Egg) pour l'image : " + dockerImage)))
      && command.None? && repo.records == old(repo.records)
    ensures FindEgg(eggs, dockerImage).Some? ==>
      var placed := NewServer(user, serverName, serverPort, dockerImage, memory, cpu, disk)
        .(hostPath := Some(DataPath(workDir, uuid)));
      var outcome := if mkdir.Failure? then Err(mkdir.message) else ContainerIdFrom(run);
      && command == (if mkdir.Failure? then None else Some(RunCommand(placed, FindEgg(eggs, dockerImage).value, millis)))
      && (outcome.Ok? ==>
            && repo.records == old(repo.records)[old(repo.nextId) :=
                 placed.(id := Some(old(repo.nextId)), containerId := Some(outcome.value))]
            && page == Page(ServersPage, Some(SuccessMessage("Le serveur '" + serverName + "' a été créé avec succès !"))))
      && (outcome.Err? ==>
            && repo.records == old(repo.records)
            && page == Page(ServersPage, Some(ErrorMessage("Impossible de créer le serveur : " + outcome.message))))
  {
    var egg := FindEgg(eggs, dockerImage);
    if egg.None? {
      page := Page("redirect:/servers/new",
                   Some(ErrorMessage("Impossible de trouver la configuration (Egg) pour l'image : " + dockerImage)));
      return page, None;
    }
    var server := NewServer(user, serverName, serverPort, dockerImage, memory, cpu, disk);
    var result;
    server, command, result := Docker.CreateServer(server, egg.value, workDir, uuid, mkdir, millis, run);
    if result.Err? {
      return Page(ServersPage, Some(ErrorMessage("Impossible de créer le serveur : " + result.message))), command;
    }
    server := server.(containerId := Some(result.value));
    var saved := repo.Save(server);
    page := Page(ServersPage, Some(SuccessMessage("Le serveur '" + serverName + "' a été créé avec succès !")));
  }

  /**
   * `deleteServer`: the record is removed only when its container was
   * removed; a Docker failure keeps it and reports the failure.
   */
  method DeleteServer(repo: ServerRepository, id: int, stop: CommandOutcome, rm: CommandOutcome)
    returns (page: Page, commands: seq<seq<string>>)
    requires repo.Valid()
    modifies repo
    ensures repo.Valid()
    ensures id !in old(repo.records) ==>
      page == Page(ServersPage, Some(ErrorMessage("Serveur introuvable."))) && commands == []
      && repo.records == old(repo.records)
    ensures id in old(repo.records) ==>
      var server := old(repo.records)[id];
      var deletion := DeleteContainer(server.containerId, stop, rm);
      && commands == deletion.commands
      && (deletion.outcome.Success? ==>
            repo.records == old(repo.records) - {id}
            && page == Page(ServersPage, Some(SuccessMessage("Le serveur '" + server.name + "' a été supprimé avec succès."))))
      && (deletion.outcome.Failure? ==>
            repo.records == old(repo.records)
            && page == Page(ServersPage, Some(ErrorMessage("Impossible de supprimer le serveur : " + deletion.outcome.message))))
  {
    if id !in repo.records {
      return Page(ServersPage, Some(ErrorMessage("Serveur introuvable."))), [];
    }
    var server := repo.records[id];
    var deletion := DeleteContainer(server.containerId, stop, rm);
    commands := deletion.commands;
    if deletion.outcome.Failure? {
      return Page(ServersPage, Some(ErrorMessage("Impossible de supprimer le serveur : " + deletion.outcome.message))), commands;
    }
    repo.Delete(server);
    page := Page(ServersPage, Some(SuccessMessage("Le serveur '" + server.name + "' a été supprimé avec succès.")));
  }

  /** `forceDeleteServer`: the record is removed whatever Docker answered. */
  method ForceDeleteServer(repo: ServerRepository, id: int, stop: CommandOutcome, rm: CommandOutcome)
    returns (page: Page, commands: seq<seq<string>>)
    requires repo.Valid()
    modifies repo
    ensures repo.Valid()
    ensures id !in old(repo.records) ==>
      page == Page(ServersPage, Some(ErrorMessage("Serveur introuvable."))) && commands == []
      && repo.records == old(repo.records)
    ensures id in old(repo.records) ==>
      var server := old(repo.records)[id];
      && commands == DeleteContainer(server.containerId, stop, rm).commands
      && repo.records == old(repo.records) - {id}
      && page == Page(ServersPage, Some(SuccessMessage("Le serveur '" + server.name + "' a été retiré du panel (suppression forcée).")))
  {
    if id !in repo.records {
      return Page(ServersPage, Some(ErrorMessage("Serveur introuvable."))), [];
    }
    var server := repo.records[id];
    var deletion := DeleteContainer(server.containerId, stop, rm);
    commands := deletion.commands;
    repo.Delete(server);
    page := Page(ServersPage, Some(SuccessMessage("Le serveur '" + server.name + "' a été retiré du panel (suppression forcée).")));
  }

  function InvalidId(id: int): string
  {
    "Invalid server Id:" + IntToString(id)
  }

  /** A server's page: the chat page for Ollama images, otherwise the game page with its first statistics. */
  datatype View = LlmView(server: Server) | GameView(server: Server, initialStats: Snapshot)

  /**
   * `viewServer`: an image containing `ollama` gets the chat page and no
   * Docker command runs; any other gets the game page, with the statistics
   * and the commands that `getStats` runs.
   */
  function ViewServer(repo: ServerRepository, id: int, inspect: CommandOutcome, nullMessage: Option<string>,
                      sample: CommandOutcome, parse: ParseOutcome): (r: (Result<View>, seq<seq<string>>))
    reads repo
    ensures id !in repo.records ==> r == (Err(InvalidId(id)), [])
    ensures id in repo.records && Contains(repo.records[id].dockerImage, "ollama") ==>
      r == (Ok(LlmView(repo.records[id])), [])
    ensures id in repo.records && !Contains(repo.records[id].dockerImage, "ollama") ==>
      var s := repo.records[id];
      r == (Ok(GameView(s, StatsFor(s.containerId, inspect, nullMessage, sample, parse))), StatsCommands(s.containerId, inspect))
  {
    if id !in repo.records then (Err(InvalidId(id)), [])
    else
      var s := repo.records[id];
      if Contains(s.dockerImage, "ollama") then (Ok(LlmView(s)), [])
      else (Ok(GameView(s, StatsFor(s.containerId, inspect, nullMessage, sample, parse))), StatsCommands(s.containerId, inspect))
  }

  /** The template each view is rendered with. */
  function ViewName(v: View): string
  {
    if v.LlmView? then "view-llm" else "view-server"
  }

  /**
   * `handleServerAction`: `docker <action> <id>` and back to the server's
   * page, with a success or an error message naming the action.
   */
  function HandleServerAction(repo: ServerRepository, id: int, action: string, run: CommandOutcome): (r: (Result<Page>, seq<seq<string>>))
    reads repo
    ensures id !in repo.records ==> r == (Err(InvalidId(id)), [])
    ensures id in repo.records ==>
      var performed := PerformAction(repo.records[id].containerId, action, run);
      && r.1 == performed.commands
      && r.0.Ok? && r.0.value.view == "redirect:/server/" + IntToString(id)
      && (performed.outcome.Success? ==> r.0.value.flash == Some(SuccessMessage("Action '" + action + "' exécutée avec succès.")))
      && (performed.outcome.Failure? ==>
            r.0.value.flash == Some(ErrorMessage("Échec de l'action '" + action + "': " + performed.outcome.message)))
  {
    if id !in repo.records then (Err(InvalidId(id)), [])
    else
      var performed := PerformAction(repo.records[id].containerId, action, run);
      var flash := match performed.outcome
        case Success => SuccessMessage("Action '" + action + "' exécutée avec succès.")
        case Failure(m) => ErrorMessage("Échec de l'action '" + action + "': " + m);
      (Ok(Page("redirect:/server/" + IntToString(id), Some(flash))), performed.commands)
  }

  /** An action on a server without a container id runs nothing and is reported as refused. */
  lemma ActionWithoutContainerRunsNothing(repo: ServerRepository, id: int, action: string, run: CommandOutcome)
    requires id in repo.records && IsNullOrEmpty(repo.records[id].containerId)
    ensures HandleServerAction(repo, id, action, run).1 == []
    ensures HandleServerAction(repo, id, action, run).0.value.flash ==
      Some(ErrorMessage("Échec de l'action '" + action + "': ID de conteneur invalide."))
  {
    var prefix := "Échec de l'action '" + action;
    var tail := "': " + "ID de conteneur invalide.";
    assert tail == "': ID de conteneur invalide.";
    assert prefix + "': " + "ID de conteneur invalide." == prefix + tail;
  }
}
