/** Identifiers and small generic types shared by every module. */
module Types {

  datatype Option<+T> = None | Some(value: T) {
    function UnwrapOr(default: T): T {
      if Some? then value else default
    }
  }

  datatype Result<+T, +E> = Ok(value: T) | Err(error: E)

  /** A task-run identifier. Only equality and its total order are ever used. */
  type RunId = nat

  datatype Provider = Claude | Codex

  datatype RunKey =
    | Controller(name: string)
    | Native(provider: Provider, sid: string)
    | NativePath(pathProvider: Provider, path: string)
    | Provisional(terminal: string, startMs: int, seqNo: nat)

  /** One dispatch edge (parent to child) or dependency edge (prerequisite to dependent). */
  datatype Edge = Edge(src: RunId, dst: RunId)

  function Max(a: int, b: int): int { if a < b then b else a }

  function Min(a: int, b: int): int { if a < b then a else b }
}
