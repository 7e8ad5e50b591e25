/**
 * The embedded graph store seen from the loader: a connection whose only
 * effect is to record, in order, each statement it is asked to execute.
 * What the store does with a statement is not modelled.
 */
module Store {
  import opened Frames

  /**
   * The DataFrame a statement reads by variable name: the store resolves
   * `LOAD FROM nodes` or `COPY X FROM type_relations` against the caller's
   * local variable of that name.
   */
  datatype Scope = NoScope | Bound(name: string, frame: Frame)

  datatype Statement = Statement(text: string, scope: Scope)

  /** The errors an ingestion run can end with. */
  datatype IngestError =
    | TargetAlreadyExists        // the database path is already a directory
    | UnknownInitialDataset      // no DGL-KE loader for the requested dataset (KeyError)
    | SampleRejected             // DataFrame.sample refused its arguments (ValueError)
    | MissingColumn(name: string) // attribute access on a DataFrame lacking that column
    | EndpointNotRetained        // `.iloc[0]` on an empty lookup (IndexError)

  /** How an ingestion run ends: it completes, or raises after the statements issued so far. */
  datatype Status = Done | Aborted(error: IngestError)

  /** What an ingestion run issues, in order, and how it ends. */
  datatype Run = Run(statements: seq<Statement>, status: Status)

  class Connection {
    var log: seq<Statement>

    constructor ()
      ensures log == []
    {
      log := [];
    }

    method Execute(text: string, scope: Scope)
      modifies this
      ensures log == old(log) + [Statement(text, scope)]
    {
      log := log + [Statement(text, scope)];
    }
  }
}
