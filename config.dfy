/** The server configuration and the defaults filled into a loaded one.
    Durations are `time.Duration` nanosecond counts. */
module Config {
  import opened GoInts

  datatype ServerConfig = ServerConfig(port: int, environment: string, readTimeout: int, writeTimeout: int)

  datatype StorageConfig = StorageConfig(storageType: string, path: string, retentionDays: int, maxConnections: int)

  datatype IngestionConfig = IngestionConfig(grpcPort: int, httpPort: int, grpcEnabled: bool, httpEnabled: bool, batchSize: int, flushInterval: int)

  datatype WebConfig = WebConfig(enabled: bool, title: string, theme: string, dogfood: bool)

  datatype LoggingConfig = LoggingConfig(level: string, format: string, filePath: string)

  /** The value of a `Config`. */
  datatype Settings = Settings(server: ServerConfig, storage: StorageConfig, ingestion: IngestionConfig, web: WebConfig, logging: LoggingConfig)

  /** A `Config` with every field at its zero value, as YAML decoding of an
      empty file leaves it. */
  const ZeroSettings: Settings := Settings(
    ServerConfig(0, "", 0, 0),
    StorageConfig("", "", 0, 0),
    IngestionConfig(0, 0, false, false, 0, 0),
    WebConfig(false, "", "", false),
    LoggingConfig("", "", ""))

  /** `DefaultConfig()`. */
  const DefaultSettings: Settings := Settings(
    ServerConfig(8080, "development", 30 * Second, 30 * Second),
    StorageConfig("sqlite", "./data/telemorph.db", 30, 10),
    IngestionConfig(4317, 4318, true, true, 1000, 5 * Second),
    WebConfig(true, "Open-Telemorph-Prime", "light", false),
    LoggingConfig("info", "json", ""))

  /** A setting that `setDefaults` would replace if it were zero. */
  function Or<T(==)>(value: T, zero: T, default: T): T {
    if value == zero then default else value
  }

  /** `after` is `default` where `before` was zero, and `before` otherwise. */
  predicate Filled<T(==)>(before: T, zero: T, default: T, after: T) {
    (before == zero ==> after == default) && (before != zero ==> after == before)
  }

  /** Zero server settings take the `DefaultConfig()` values. */
  function ServerDefaults(c: ServerConfig): (r: ServerConfig)
    ensures var d := DefaultSettings.server;
      Filled(c.port, 0, d.port, r.port) && Filled(c.environment, "", d.environment, r.environment)
      && Filled(c.readTimeout, 0, d.readTimeout, r.readTimeout)
      && Filled(c.writeTimeout, 0, d.writeTimeout, r.writeTimeout)
  {
    ServerConfig(Or(c.port, 0, 8080), Or(c.environment, "", "development"),
      Or(c.readTimeout, 0, 30 * Second), Or(c.writeTimeout, 0, 30 * Second))
  }

  /** Zero storage settings take the `DefaultConfig()` values. */
  function StorageDefaults(c: StorageConfig): (r: StorageConfig)
    ensures var d := DefaultSettings.storage;
      Filled(c.storageType, "", d.storageType, r.storageType) && Filled(c.path, "", d.path, r.path)
      && Filled(c.retentionDays, 0, d.retentionDays, r.retentionDays)
      && Filled(c.maxConnections, 0, d.maxConnections, r.maxConnections)
  {
    StorageConfig(Or(c.storageType, "", "sqlite"), Or(c.path, "", "./data/telemorph.db"),
      Or(c.retentionDays, 0, 30), Or(c.maxConnections, 0, 10))
  }

  /** Zero ingestion settings take the `DefaultConfig()` values; with
      neither endpoint switched on, both are, and otherwise the switches
      stay. */
  function IngestionDefaults(c: IngestionConfig): (r: IngestionConfig)
    ensures var d := DefaultSettings.ingestion;
      Filled(c.grpcPort, 0, d.grpcPort, r.grpcPort) && Filled(c.httpPort, 0, d.httpPort, r.httpPort)
      && Filled(c.batchSize, 0, d.batchSize, r.batchSize)
      && Filled(c.flushInterval, 0, d.flushInterval, r.flushInterval)
    ensures !c.grpcEnabled && !c.httpEnabled ==> r.grpcEnabled && r.httpEnabled
    ensures c.grpcEnabled || c.httpEnabled ==> r.grpcEnabled == c.grpcEnabled && r.httpEnabled == c.httpEnabled
  {
    var bothOff := !c.grpcEnabled && !c.httpEnabled;
    IngestionConfig(Or(c.grpcPort, 0, 4317), Or(c.httpPort, 0, 4318),
      c.grpcEnabled || bothOff, c.httpEnabled || bothOff,
      Or(c.batchSize, 0, 1000), Or(c.flushInterval, 0, 5 * Second))
  }

  /** An empty title or theme takes the `DefaultConfig()` value; the two
      switches are left alone. */
  function WebDefaults(c: WebConfig): (r: WebConfig)
    ensures var d := DefaultSettings.web;
      Filled(c.title, "", d.title, r.title) && Filled(c.theme, "", d.theme, r.theme)
    ensures r.enabled == c.enabled && r.dogfood == c.dogfood
  {
    c.(title := Or(c.title, "", "Open-Telemorph-Prime"), theme := Or(c.theme, "", "light"))
  }

  /** An empty level or format takes the `DefaultConfig()` value; the file
      path is left alone. */
  function LoggingDefaults(c: LoggingConfig): (r: LoggingConfig)
    ensures var d := DefaultSettings.logging;
      Filled(c.level, "", d.level, r.level) && Filled(c.format, "", d.format, r.format)
    ensures r.filePath == c.filePath
  {
    c.(level := Or(c.level, "", "info"), format := Or(c.format, "", "json"))
  }

  /** The value `setDefaults` leaves in a `Config`: every section filled. */
  function WithDefaults(s: Settings): (r: Settings)
    ensures Complete(r) && KeepsSet(s, r) && SameUntouched(s, r)
  {
    Settings(ServerDefaults(s.server), StorageDefaults(s.storage), IngestionDefaults(s.ingestion),
      WebDefaults(s.web), LoggingDefaults(s.logging))
  }

  /** No field that has a default is left at zero, and some ingestion
      endpoint is enabled. */
  predicate Complete(s: Settings) {
    s.server.port != 0 && s.server.environment != "" && s.server.readTimeout != 0 && s.server.writeTimeout != 0
    && s.storage.storageType != "" && s.storage.path != "" && s.storage.retentionDays != 0 && s.storage.maxConnections != 0
    && s.ingestion.grpcPort != 0 && s.ingestion.httpPort != 0 && (s.ingestion.grpcEnabled || s.ingestion.httpEnabled)
    && s.ingestion.batchSize != 0 && s.ingestion.flushInterval != 0
    && s.web.title != "" && s.web.theme != ""
    && s.logging.level != "" && s.logging.format != ""
  }

  /** The fields `setDefaults` has no rule for. */
  predicate SameUntouched(s: Settings, t: Settings) {
    t.web.enabled == s.web.enabled && t.web.dogfood == s.web.dogfood && t.logging.filePath == s.logging.filePath
  }

  /** A field that is set keeps its value. */
  predicate KeepsSet(s: Settings, t: Settings) {
    (s.server.port != 0 ==> t.server.port == s.server.port)
    && (s.server.environment != "" ==> t.server.environment == s.server.environment)
    && (s.server.readTimeout != 0 ==> t.server.readTimeout == s.server.readTimeout)
    && (s.server.writeTimeout != 0 ==> t.server.writeTimeout == s.server.writeTimeout)
    && (s.storage.storageType != "" ==> t.storage.storageType == s.storage.storageType)
    && (s.storage.path != "" ==> t.storage.path == s.storage.path)
    && (s.storage.retentionDays != 0 ==> t.storage.retentionDays == s.storage.retentionDays)
    && (s.storage.maxConnections != 0 ==> t.storage.maxConnections == s.storage.maxConnections)
    && (s.ingestion.grpcPort != 0 ==> t.ingestion.grpcPort == s.ingestion.grpcPort)
    && (s.ingestion.httpPort != 0 ==> t.ingestion.httpPort == s.ingestion.httpPort)
    && (s.ingestion.batchSize != 0 ==> t.ingestion.batchSize == s.ingestion.batchSize)
    && (s.ingestion.flushInterval != 0 ==> t.ingestion.flushInterval == s.ingestion.flushInterval)
    && (s.web.title != "" ==> t.web.title == s.web.title)
    && (s.web.theme != "" ==> t.web.theme == s.web.theme)
    && (s.logging.level != "" ==> t.logging.level == s.logging.level)
    && (s.logging.format != "" ==> t.logging.format == s.logging.format)
  }

  /** Each zero field gets its default value, and each set one stays. */
  lemma DefaultsFillZeros(s: Settings)
    ensures Complete(WithDefaults(s))
    ensures KeepsSet(s, WithDefaults(s))
    ensures SameUntouched(s, WithDefaults(s))
  {
  }

  /** The two ingestion switches: both off means both on; otherwise they
      are left as they are. */
  lemma IngestionSwitches(s: Settings)
    ensures var t := WithDefaults(s).ingestion;
      if !s.ingestion.grpcEnabled && !s.ingestion.httpEnabled then t.grpcEnabled && t.httpEnabled
      else t.grpcEnabled == s.ingestion.grpcEnabled && t.httpEnabled == s.ingestion.httpEnabled
  {
  }

  /** The settings `setDefaults` leaves alone are exactly the complete ones. */
  lemma FixedPoints(s: Settings)
    ensures WithDefaults(s) == s <==> Complete(s)
  {
    DefaultsFillZeros(s);
  }

  /** Filling in defaults twice is filling them in once. */
  lemma DefaultsIdempotent(s: Settings)
    ensures WithDefaults(WithDefaults(s)) == WithDefaults(s)
  {
    DefaultsFillZeros(s);
    FixedPoints(WithDefaults(s));
  }

  /** `DefaultConfig()` is complete, so `setDefaults` leaves it unchanged. */
  lemma DefaultIsFixedPoint()
    ensures Complete(DefaultSettings)
    ensures WithDefaults(DefaultSettings) == DefaultSettings
  {
    FixedPoints(DefaultSettings);
  }

  /** Loading an empty file gives `DefaultConfig()` but with the web UI
      disabled: `setDefaults` has no rule for `Web.Enabled`. */
  lemma EmptyFileDefaults()
    ensures WithDefaults(ZeroSettings) == DefaultSettings.(web := DefaultSettings.web.(enabled := false))
    ensures WithDefaults(ZeroSettings) != DefaultSettings
  {
  }

  /** A loaded configuration, filled in place. */
  class Config {
    var server: ServerConfig
    var storage: StorageConfig
    var ingestion: IngestionConfig
    var web: WebConfig
    var logging: LoggingConfig

    function Value(): Settings
      reads this
    {
      Settings(server, storage, ingestion, web, logging)
    }

    /** The configuration as YAML decoding produced it. */
    constructor (decoded: Settings)
      ensures Value() == decoded
    {
      server, storage, ingestion, web, logging := decoded.server, decoded.storage, decoded.ingestion, decoded.web, decoded.logging;
    }

    /** `DefaultConfig()`. */
    constructor Default()
      ensures Value() == DefaultSettings
    {
      server := ServerConfig(8080, "development", 30 * Second, 30 * Second);
      storage := StorageConfig("sqlite", "./data/telemorph.db", 30, 10);
      ingestion := IngestionConfig(4317, 4318, true, true, 1000, 5 * Second);
      web := WebConfig(true, "Open-Telemorph-Prime", "light", false);
      logging := LoggingConfig("info", "json", "");
    }

    /** `setDefaults`: replace each zero field by its default, one at a time. */
    method SetDefaults()
      modifies this
      ensures Value() == WithDefaults(old(Value()))
    {
      SetServerDefaults();
      SetStorageDefaults();
      SetIngestionDefaults();
      SetWebDefaults();
      SetLoggingDefaults();
    }

    method SetServerDefaults()
      modifies this
      ensures server == ServerDefaults(old(server))
      ensures storage == old(storage) && ingestion == old(ingestion) && web == old(web) && logging == old(logging)
    {
      if server.port == 0 {
        server := server.(port := 8080);
      }
      if server.environment == "" {
        server := server.(environment := "development");
      }
      if server.readTimeout == 0 {
        server := server.(readTimeout := 30 * Second);
      }
      if server.writeTimeout == 0 {
        server := server.(writeTimeout := 30 * Second);
      }
    }

    method SetStorageDefaults()
      modifies this
      ensures storage == StorageDefaults(old(storage))
      ensures server == old(server) && ingestion == old(ingestion) && web == old(web) && logging == old(logging)
    {
      if storage.storageType == "" {
        storage := storage.(storageType := "sqlite");
      }
      if storage.path == "" {
        storage := storage.(path := "./data/telemorph.db");
      }
      if storage.retentionDays == 0 {
        storage := storage.(retentionDays := 30);
      }
      if storage.maxConnections == 0 {
        storage := storage.(maxConnections := 10);
      }
    }

    method SetIngestionDefaults()
      modifies this
      ensures ingestion == IngestionDefaults(old(ingestion))
      ensures server == old(server) && storage == old(storage) && web == old(web) && logging == old(logging)
    {
      if ingestion.grpcPort == 0 {
        ingestion := ingestion.(grpcPort := 4317);
      }
      if ingestion.httpPort == 0 {
        ingestion := ingestion.(httpPort := 4318);
      }
      if !ingestion.grpcEnabled && !ingestion.httpEnabled {
        ingestion := ingestion.(grpcEnabled := true, httpEnabled := true);
      }
      if ingestion.batchSize == 0 {
        ingestion := ingestion.(batchSize := 1000);
      }
      if ingestion.flushInterval == 0 {
        ingestion := ingestion.(flushInterval := 5 * Second);
      }
    }

    method SetWebDefaults()
      modifies this
      ensures web == WebDefaults(old(web))
      ensures server == old(server) && storage == old(storage) && ingestion == old(ingestion) && logging == old(logging)
    {
      if web.title == "" {
        web := web.(title := "Open-Telemorph-Prime");
      }
      if web.theme == "" {
        web := web.(theme := "light");
      }
    }

    method SetLoggingDefaults()
      modifies this
      ensures logging == LoggingDefaults(old(logging))
      ensures server == old(server) && storage == old(storage) && ingestion == old(ingestion) && web == old(web)
    {
      if logging.level == "" {
        logging := logging.(level := "info");
      }
      if logging.format == "" {
        logging := logging.(format := "json");
      }
    }
  }
}
