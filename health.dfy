/** The health endpoint (pkg/health): per-component checks, their
    aggregation into an overall status, the reports sent to the service
    monitor, and the HTTP status of the answer.

    The database and the cache are probes: not configured (a nil handle),
    reachable, or failing their ping with an error text. The monitor is an
    object that records the states it is sent. */
module Health {
  import opened Http
  import opened Wrappers

  datatype Status = Up | Down

  function StatusName(s: Status): string {
    match s
    case Up => "UP"
    case Down => "DOWN"
  }

  datatype Component = Component(status: Status, message: string)

  /** What a ping of a configured or unconfigured dependency gives. */
  datatype Probe = NotConfigured | Reachable | Unreachable(err: string)

  /** A report to the service monitor (its timestamp and float metrics are
      not modelled). */
  datatype ServiceState = ServiceState(name: string, status: string, message: string)

  datatype HealthResponse = HealthResponse(status: Status, version: string, services: map<string, Component>)

  const DatabaseNotConfigured := "Database connection not configured"
  const DatabaseFailurePrefix := "Failed to connect to database: "
  const DatabaseOk := "Database connection successful"
  const RedisNotConfigured := "Redis connection not configured"
  const RedisFailurePrefix := "Failed to connect to Redis: "
  const RedisOk := "Redis connection successful"
  const SystemMessage := "System metrics updated"

  /** checkDatabase: DOWN when not configured or when the ping fails (with
      the error appended to a fixed prefix), UP otherwise. */
  function CheckDatabase(db: Probe): (c: Component)
    ensures c.status == Up <==> db.Reachable?
    ensures db.NotConfigured? ==> c.message == DatabaseNotConfigured
    ensures db.Unreachable? ==> c.message == DatabaseFailurePrefix + db.err
  {
    match db
    case NotConfigured => Component(Down, DatabaseNotConfigured)
    case Unreachable(err) => Component(Down, DatabaseFailurePrefix + err)
    case Reachable => Component(Up, DatabaseOk)
  }

  /** checkRedis: the same three-way mapping for the cache. */
  function CheckRedis(cache: Probe): (c: Component)
    ensures c.status == Up <==> cache.Reachable?
    ensures cache.NotConfigured? ==> c.message == RedisNotConfigured
    ensures cache.Unreachable? ==> c.message == RedisFailurePrefix + cache.err
  {
    match cache
    case NotConfigured => Component(Down, RedisNotConfigured)
    case Unreachable(err) => Component(Down, RedisFailurePrefix + err)
    case Reachable => Component(Up, RedisOk)
  }

  /** The overall status: DOWN when a configured database or a configured
      cache checks DOWN; so DOWN exactly when a dependency is configured but
      unreachable, and an unconfigured database alone never makes it DOWN. */
  function Overall(db: Probe, cache: Probe): (s: Status)
    ensures s == Down <==> db.Unreachable? || cache.Unreachable?
  {
    var d, c := CheckDatabase(db), CheckRedis(cache);
    assert !db.NotConfigured? && d.status == Down <==> db.Unreachable?;
    assert !cache.NotConfigured? && c.status == Down <==> cache.Unreachable?;
    if (!db.NotConfigured? && d.status == Down) || (!cache.NotConfigured? && c.status == Down)
    then Down else Up
  }

  /** The service monitor, as the health handler sees it. */
  class Monitor {
    var received: seq<ServiceState>

    constructor ()
      ensures received == []
    {
      received := [];
    }

    method UpdateServiceState(state: ServiceState)
      modifies this
      ensures received == old(received) + [state]
    {
      received := received + [state];
    }
  }

  /** The reports one health check sends: database, then cache when it is
      configured, then the system report carrying the overall status. */
  function Reports(db: Probe, cache: Probe): (rs: seq<ServiceState>)
    ensures |rs| == if cache.NotConfigured? then 2 else 3
    ensures rs[0] == ServiceState("database", StatusName(CheckDatabase(db).status), CheckDatabase(db).message)
    ensures !cache.NotConfigured? ==>
      rs[1] == ServiceState("cache", StatusName(CheckRedis(cache).status), CheckRedis(cache).message)
    ensures rs[|rs| - 1] == ServiceState("system", StatusName(Overall(db, cache)), SystemMessage)
  {
    var d := CheckDatabase(db);
    var c := CheckRedis(cache);
    [ServiceState("database", StatusName(d.status), d.message)]
      + (if cache.NotConfigured? then [] else [ServiceState("cache", StatusName(c.status), c.message)])
      + [ServiceState("system", StatusName(Overall(db, cache)), SystemMessage)]
  }

  class Handler {
    const version: string
    const db: Probe
    const cache: Probe
    const monitor: Option<Monitor>

    constructor (version: string, db: Probe, cache: Probe, monitor: Option<Monitor>)
      ensures this.version == version && this.db == db && this.cache == cache && this.monitor == monitor
    {
      this.version := version;
      this.db := db;
      this.cache := cache;
      this.monitor := monitor;
    }

    /** The objects a health check may change: the monitor, if any. */
    function MonitorFrame(): set<object>
      reads this
    {
      if monitor.Some? then {monitor.value} else {}
    }

    /** checkHealth: fills the services map, updates the overall status
        step by step and reports each step to the monitor. */
    method CheckHealth() returns (response: HealthResponse)
      modifies MonitorFrame()
      ensures response.version == version
      ensures response.services.Keys == {"database"} + (if cache.NotConfigured? then {} else {"cache"})
      ensures response.services["database"] == CheckDatabase(db)
      ensures !cache.NotConfigured? ==> response.services["cache"] == CheckRedis(cache)
      ensures response.status == Overall(db, cache)
      ensures monitor.Some? ==> monitor.value.received == old(monitor.value.received) + Reports(db, cache)
    {
      var services: map<string, Component> := map[];
      var overallStatus := Up;

      var dbComponent := CheckDatabase(db);
      services := services["database" := dbComponent];
      if !db.NotConfigured? && dbComponent.status == Down {
        overallStatus := Down;
      }
      if monitor.Some? {
        monitor.value.UpdateServiceState(ServiceState("database", StatusName(dbComponent.status), dbComponent.message));
      }

      if !cache.NotConfigured? {
        var cacheComponent := CheckRedis(cache);
        services := services["cache" := cacheComponent];
        if cacheComponent.status == Down {
          overallStatus := Down;
        }
        if monitor.Some? {
          monitor.value.UpdateServiceState(ServiceState("cache", StatusName(cacheComponent.status), cacheComponent.message));
        }
      }

      if monitor.Some? {
        monitor.value.UpdateServiceState(ServiceState("system", StatusName(overallStatus), SystemMessage));
      }
      response := HealthResponse(overallStatus, version, services);
    }

    /** ServeHTTP: the JSON content type, 503 before the body when the
        overall status is DOWN, then the encoded response. */
    method ServeHTTP(encode: HealthResponse -> Bytes, w: Sink) returns (response: HealthResponse)
      modifies MonitorFrame(), w
      ensures response.status == Overall(db, cache) && response.version == version
      ensures w.header == old(w.header)["Content-Type" := "application/json"]
      ensures w.sent == old(w.sent)
        + (if response.status == Down then [Event.WriteHeader(StatusServiceUnavailable)] else [])
        + [Event.Write(encode(response))]
    {
      response := CheckHealth();
      w.SetHeader("Content-Type", "application/json");
      if response.status == Down {
        w.WriteHeader(StatusServiceUnavailable);
      }
      w.Write(encode(response));
    }
  }

  /** The client of ServeHTTP receives 503 exactly when the overall status
      is DOWN, and the default 200 otherwise. */
  lemma ServedStatus(status: Status, body: Bytes)
    ensures var events := (if status == Down then [Event.WriteHeader(StatusServiceUnavailable)] else []) + [Event.Write(body)];
      ClientStatus(events) == (if status == Down then StatusServiceUnavailable else StatusOK)
  {
  }
}
