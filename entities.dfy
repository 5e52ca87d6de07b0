/**
 * The plain data carriers the core passes around: a deployed server record
 * and a game egg (deployment template) read from the catalogue.
 */
module Entities {
  import opened Outcomes
  import opened Strings

  /**
   * A JSON object read from an egg, as the ordered entries Jackson put in its
   * LinkedHashMap. Keys are never null; a JSON `null` value is `None`.
   */
  type Pairs = seq<(string, Option<string>)>

  /**
   * A game egg: the template a server is created from. `ports` and
   * `environment` are null (`None`) when the egg's JSON does not have them.
   */
  datatype GameEgg = GameEgg(
    name: Option<string>,
    dockerImage: Option<string>,
    viewType: Option<string>,
    ports: Option<Pairs>,
    environment: Option<Pairs>)

  /**
   * One server record. `id` is null until the repository first saves it;
   * `containerId` is the 12-character Docker id once a container exists;
   * `hostPath` is the absolute data directory; `cpu` is the `double` as
   * `String.valueOf` renders it; `owner` is the owning user's name.
   */
  datatype Server = Server(
    id: Option<int>,
    name: string,
    containerId: Option<string>,
    dockerImage: string,
    hostPort: Int32,
    hostPath: Option<string>,
    owner: Option<string>,
    memory: Int32,
    cpu: string,
    disk: Int32)
}
