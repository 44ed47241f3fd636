/** The database driver and configuration provider as the router sees them:
    configuration entries, connection pools as opaque tokens, the rows of
    the replication-status query, and a record of the calls the router
    makes into the driver (pool creation, lifecycle operations). */
module Driver {
  import opened Base

  /** A value in a database.yml entry; `Null` is YAML's nil (or false). */
  datatype Setting = Number(n: int) | Text(s: string) | Null

  /** One database.yml entry, by key. */
  type Config = map<string, Setting>

  /** `ActiveRecord::ConnectionAdapters::ConnectionPool`: identified by the
      serial number the driver gave it, bound to one configuration. */
  datatype Pool = Pool(serial: nat, config: Config)

  /** The pool lifecycle operations PoolProxy forwards
      (disconnect!, release_connection, clear_reloadable_connections!,
      clear_stale_cached_connections!, verify_active_connections!). */
  datatype LifecycleOp =
    | Disconnect
    | ReleaseConnection
    | ClearReloadableConnections
    | ClearStaleCachedConnections
    | VerifyActiveConnections

  datatype Call =
    | Created(pool: Pool)                  // ConnectionPool.new
    | Lifecycle(op: LifecycleOp, pool: Pool)
    | HandlerClearActiveConnections        // ActiveRecord's own clear_active_connections!

  /** A column of a result row: a string, or NULL / any non-string value. */
  datatype Field = TextField(s: string) | OtherField

  type Row = seq<Field>

  /** What `execute "SHOW SLAVE STATUS;"` does: returns rows, or raises. */
  datatype QueryOutcome = Rows(rows: seq<Row>) | Raised

  /** A live connection, as far as the lag checkers look at it. */
  datatype Connection = Connection(adapterName: string)

  /** The driver: it hands out pools and receives calls. */
  class Driver {
    var created: nat
    var calls: seq<Call>

    constructor()
      ensures created == 0 && calls == []
    {
      created, calls := 0, [];
    }

    /** `ConnectionPool.new(spec_for(config))`: a pool never handed out before. */
    method NewPool(config: Config) returns (p: Pool)
      modifies this
      ensures p == Pool(old(created), config)
      ensures created == old(created) + 1
      ensures calls == old(calls) + [Created(p)]
    {
      p := Pool(created, config);
      created := created + 1;
      calls := calls + [Created(p)];
    }

    method Send(op: LifecycleOp, p: Pool)
      modifies this`calls
      ensures calls == old(calls) + [Lifecycle(op, p)]
    {
      calls := calls + [Lifecycle(op, p)];
    }

    /** ActiveRecord's `clear_active_connections!` before data_fabric wraps it. */
    method ClearActiveConnections()
      modifies this`calls
      ensures calls == old(calls) + [HandlerClearActiveConnections]
    {
      calls := calls + [HandlerClearActiveConnections];
    }
  }
}
