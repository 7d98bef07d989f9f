/**
  The external world the function app talks to, as plain values: the
  "comments" file share, keyed by directory and file name, and the container
  groups of the resource group, keyed by group name, each with the current
  state of its (single) container.
 */
module Resources {

  type Bytes = seq<bv8>

  /** A file of the share: its directory (`data_in`, `data_out`) and its name. */
  datatype Path = Path(dir: string, name: string)

  /** `instance_view.current_state` of a group's first container. */
  datatype ContainerState = ContainerState(state: string, detailStatus: string)

  datatype World = World(share: map<Path, Bytes>, groups: map<string, ContainerState>)

  /** The names a directory listing of `dir` returns. */
  function Listing(share: map<Path, Bytes>, dir: string): (names: set<string>)
    ensures forall n :: n in names <==> Path(dir, n) in share
  {
    set p | p in share && p.dir == dir :: p.name
  }
}
