/**
 * Start-up step that looks at the primary datasource's database and, from
 * it, fills in the Quartz JobStore driver delegate and turns a MyBatis-Plus
 * id type of `NONE` into `INPUT` (sequence databases) or `AUTO`.
 */
module IdTypeEnvironmentPostProcessor {

  import opened Common
  import opened MybatisPlus
  import opened ConfigurableEnvironment

  const ID_TYPE_KEY: string := "mybatis-plus.global-config.db-config.id-type"
  const DATASOURCE_DYNAMIC_KEY: string := "spring.datasource.dynamic"
  // Written in two pieces so that the verifier can look at its characters.
  const QUARTZ_JOB_STORE_DRIVER_KEY: string := "spring.quartz.properties." + "org.quartz.jobStore.driverDelegateClass"

  /** Databases without auto-increment columns, whose keys come from sequences. */
  const INPUT_ID_TYPES: set<DbType> := {ORACLE, ORACLE_12C, POSTGRE_SQL, KINGBASE_ES, DB2, H2}

  function PrimaryKey(): string
  {
    DATASOURCE_DYNAMIC_KEY + "." + "primary"
  }

  function UrlKey(primary: string): string
  {
    DATASOURCE_DYNAMIC_KEY + ".datasource." + primary + ".url"
  }

  /**
   * `getDbType(environment)`: the database of the primary datasource, read
   * from its JDBC url by `dbTypeOfUrl` (`JdbcUtils.getDbType`, not part of
   * this model); `None` when the primary name or its url is empty or missing.
   */
  function GetDbType(env: PropertySources, dbTypeOfUrl: string -> DbType): (r: Option<DbType>)
    ensures r.None? <==>
      IsEmpty(GetProperty(env, PrimaryKey()))
      || IsEmpty(GetProperty(env, UrlKey(GetProperty(env, PrimaryKey()).value)))
    ensures r.Some? ==> r.value == dbTypeOfUrl(GetProperty(env, UrlKey(GetProperty(env, PrimaryKey()).value)).value)
  {
    var primary := GetProperty(env, PrimaryKey());
    if IsEmpty(primary) then None
    else
      var url := GetProperty(env, UrlKey(primary.value));
      if IsEmpty(url) then None else Some(dbTypeOfUrl(url.value))
  }

  /**
   * `getIdType(environment)`: the id type the first source defining the key
   * holds (`Missing` when none does, or its text is empty); a text naming no
   * constant fails the conversion.
   */
  function GetIdType(env: PropertySources): (r: IdTypeLookup)
    ensures r == Missing <==> Resolve(env, ID_TYPE_KEY).None? || Resolve(env, ID_TYPE_KEY) == Some(Text(""))
    ensures r.Found? <==> match Resolve(env, ID_TYPE_KEY)
                          case None => false
                          case Some(IdTypeValue(_)) => true
                          case Some(Text(s)) => IdTypeFromText(s).Some?
    ensures r.Found? ==> Resolve(env, ID_TYPE_KEY) == Some(IdTypeValue(r.idType))
                         || Resolve(env, ID_TYPE_KEY) == Some(Text(IdTypeName(r.idType)))
                         || Resolve(env, ID_TYPE_KEY) == Some(Text(LowerName(r.idType)))
  {
    GetIdTypeProperty(env, ID_TYPE_KEY)
  }

  /** The Quartz driver delegate a database needs, if it needs a specific one. */
  function DriverDelegateClass(dbType: DbType): (driver: Option<string>)
    ensures driver.Some? <==> dbType in {POSTGRE_SQL, ORACLE, ORACLE_12C, SQL_SERVER, SQL_SERVER2005}
    ensures driver.Some? ==> driver.value != ""
  {
    match dbType
    case POSTGRE_SQL => Some("org.quartz.impl.jdbcjobstore.PostgreSQLDelegate")
    case ORACLE => Some("org.quartz.impl.jdbcjobstore.oracle.OracleDelegate")
    case ORACLE_12C => Some("org.quartz.impl.jdbcjobstore.oracle.OracleDelegate")
    case SQL_SERVER => Some("org.quartz.impl.jdbcjobstore.MSSQLDelegate")
    case SQL_SERVER2005 => Some("org.quartz.impl.jdbcjobstore.MSSQLDelegate")
    case _ => None
  }

  /** The id type a `NONE` setting is replaced by. */
  function ReplacementIdType(dbType: DbType): (t: IdType)
    ensures t == INPUT <==> dbType in INPUT_ID_TYPES
    ensures t == INPUT || t == AUTO
  {
    if dbType in INPUT_ID_TYPES then INPUT else AUTO
  }

  /** The sources after `getSystemProperties().put(key, value)`. */
  function PutSystemProperty(env: PropertySources, key: string, value: PropertyValue): PropertySources
  {
    env.(systemProperties := env.systemProperties[key := value])
  }

  /** The sources after `setJobStoreDriverIfPresent`: a configured driver is kept, a missing one filled in. */
  function AfterJobStoreDriver(env: PropertySources, dbType: DbType): PropertySources
  {
    if !IsEmpty(GetProperty(env, QUARTZ_JOB_STORE_DRIVER_KEY)) then env
    else
      match DriverDelegateClass(dbType)
      case None => env
      case Some(driver) => PutSystemProperty(env, QUARTZ_JOB_STORE_DRIVER_KEY, Text(driver))
  }

  /**
   * What `postProcessEnvironment` leaves behind: the property sources, the
   * database `SqlConstants.init` was called with (`None`: not called), and
   * whether reading the id type failed its conversion (the method then throws).
   */
  datatype Processed = Processed(sources: PropertySources, sqlConstantsInit: Option<DbType>, conversionFailed: bool)

  /** The effect of `postProcessEnvironment` on a snapshot of the sources. */
  function Process(env: PropertySources, dbTypeOfUrl: string -> DbType): Processed
  {
    match GetDbType(env, dbTypeOfUrl)
    case None => Processed(env, None, false)
    case Some(dbType) =>
      var withDriver := AfterJobStoreDriver(env, dbType);
      match GetIdType(withDriver)
      case NotConvertible => Processed(withDriver, Some(dbType), true)
      case Missing => Processed(withDriver, Some(dbType), false)
      case Found(t) =>
        if t != NONE then Processed(withDriver, Some(dbType), false)
        else
          var replaced := PutSystemProperty(withDriver, ID_TYPE_KEY, IdTypeValue(ReplacementIdType(dbType)));
          Processed(replaced, Some(dbType), false)
  }

  // ---- the imperative steps, on the environment object ----

  /** `setIdType(environment, idType)`. */
  method SetIdType(environment: Environment, idType: IdType)
    modifies environment
    ensures environment.Sources() == PutSystemProperty(old(environment.Sources()), ID_TYPE_KEY, IdTypeValue(idType))
  {
    environment.PutSystemProperty(ID_TYPE_KEY, IdTypeValue(idType));
  }

  /** `setJobStoreDriverIfPresent(environment, dbType)`. */
  method SetJobStoreDriverIfPresent(environment: Environment, dbType: DbType)
    modifies environment
    ensures environment.Sources() == AfterJobStoreDriver(old(environment.Sources()), dbType)
  {
    var driverClass := GetProperty(environment.Sources(), QUARTZ_JOB_STORE_DRIVER_KEY);
    if !IsEmpty(driverClass) {
      return;
    }
    match dbType {
      case POSTGRE_SQL =>
        driverClass := Some("org.quartz.impl.jdbcjobstore.PostgreSQLDelegate");
      case ORACLE | ORACLE_12C =>
        driverClass := Some("org.quartz.impl.jdbcjobstore.oracle.OracleDelegate");
      case SQL_SERVER | SQL_SERVER2005 =>
        driverClass := Some("org.quartz.impl.jdbcjobstore.MSSQLDelegate");
      case _ =>
    }
    if !IsEmpty(driverClass) {
      environment.PutSystemProperty(QUARTZ_JOB_STORE_DRIVER_KEY, Text(driverClass.value));
    }
  }

  /**
   * `postProcessEnvironment(environment, application)`. Returns the database
   * handed to `SqlConstants.init` (if it was called) and `false` when reading
   * the id type threw.
   */
  method PostProcessEnvironment(environment: Environment, dbTypeOfUrl: string -> DbType)
    returns (sqlConstantsInit: Option<DbType>, ok: bool)
    modifies environment
    ensures environment.Sources() == Process(old(environment.Sources()), dbTypeOfUrl).sources
    ensures sqlConstantsInit == Process(old(environment.Sources()), dbTypeOfUrl).sqlConstantsInit
    ensures ok == !Process(old(environment.Sources()), dbTypeOfUrl).conversionFailed
  {
    var dbType := GetDbType(environment.Sources(), dbTypeOfUrl);
    if dbType.None? {
      return None, true;
    }
    SetJobStoreDriverIfPresent(environment, dbType.value);
    sqlConstantsInit := dbType;
    var idType := GetIdType(environment.Sources());
    if idType.NotConvertible? {
      return sqlConstantsInit, false;
    }
    ok := true;
    if idType != Found(NONE) {
      return;
    }
    if dbType.value in INPUT_ID_TYPES {
      SetIdType(environment, INPUT);
      return;
    }
    SetIdType(environment, AUTO);
  }

  // ---- properties of the selection ----

  /** The keys read and the two keys written are all different. */
  lemma KeysDistinct(primary: string)
    ensures ID_TYPE_KEY != QUARTZ_JOB_STORE_DRIVER_KEY
    ensures PrimaryKey() != ID_TYPE_KEY && PrimaryKey() != QUARTZ_JOB_STORE_DRIVER_KEY
    ensures UrlKey(primary) != ID_TYPE_KEY && UrlKey(primary) != QUARTZ_JOB_STORE_DRIVER_KEY
  {
    assert ID_TYPE_KEY[0] == 'm' && QUARTZ_JOB_STORE_DRIVER_KEY[0] == 's';
    assert QUARTZ_JOB_STORE_DRIVER_KEY[7] == 'q';
    assert PrimaryKey()[0] == 's' && PrimaryKey()[7] == 'd';
    assert UrlKey(primary)[0] == 's' && UrlKey(primary)[7] == 'd';
  }

  /** Writing one system property leaves every other key's lookup as it was. */
  lemma PutKeepsOtherKeys(env: PropertySources, key: string, value: PropertyValue, other: string)
    requires other != key
    ensures Resolve(PutSystemProperty(env, key, value), other) == Resolve(env, other)
    ensures GetProperty(PutSystemProperty(env, key, value), other) == GetProperty(env, other)
  {
  }

  lemma GetDbTypeUnaffected(env: PropertySources, key: string, value: PropertyValue, dbTypeOfUrl: string -> DbType)
    requires key == ID_TYPE_KEY || key == QUARTZ_JOB_STORE_DRIVER_KEY
    ensures GetDbType(PutSystemProperty(env, key, value), dbTypeOfUrl) == GetDbType(env, dbTypeOfUrl)
  {
    KeysDistinct("");
    PutKeepsOtherKeys(env, key, value, PrimaryKey());
    var primary := GetProperty(env, PrimaryKey());
    if !IsEmpty(primary) {
      KeysDistinct(primary.value);
      PutKeepsOtherKeys(env, key, value, UrlKey(primary.value));
    }
  }

  /** The driver step does not change how the id type reads. */
  lemma DriverStepKeepsIdType(env: PropertySources, dbType: DbType)
    ensures GetIdType(AfterJobStoreDriver(env, dbType)) == GetIdType(env)
    ensures AfterJobStoreDriver(env, dbType).above == env.above
    ensures AfterJobStoreDriver(env, dbType).below == env.below
  {
    KeysDistinct("");
  }

  /** Without a detectable primary database nothing is changed and `SqlConstants.init` is not called. */
  lemma NoDbTypeLeavesEnvironmentUnchanged(env: PropertySources, dbTypeOfUrl: string -> DbType)
    requires IsEmpty(GetProperty(env, PrimaryKey())) || IsEmpty(GetProperty(env, UrlKey(GetProperty(env, PrimaryKey()).value)))
    ensures Process(env, dbTypeOfUrl) == Processed(env, None, false)
  {
  }

  /** A configured, non-empty driver delegate is never overwritten. */
  lemma ConfiguredDriverKept(env: PropertySources, dbTypeOfUrl: string -> DbType)
    requires !IsEmpty(GetProperty(env, QUARTZ_JOB_STORE_DRIVER_KEY))
    ensures var after := Process(env, dbTypeOfUrl).sources;
      (QUARTZ_JOB_STORE_DRIVER_KEY in after.systemProperties <==> QUARTZ_JOB_STORE_DRIVER_KEY in env.systemProperties)
      && (QUARTZ_JOB_STORE_DRIVER_KEY in env.systemProperties ==>
            after.systemProperties[QUARTZ_JOB_STORE_DRIVER_KEY] == env.systemProperties[QUARTZ_JOB_STORE_DRIVER_KEY])
      && GetProperty(after, QUARTZ_JOB_STORE_DRIVER_KEY) == GetProperty(env, QUARTZ_JOB_STORE_DRIVER_KEY)
  {
    KeysDistinct("");
  }

  /**
   * With a detected database and no configured driver, the delegate the
   * database needs is written (whatever the id type is); a database that
   * needs none gets no driver key.
   */
  lemma MissingDriverFilledIn(env: PropertySources, dbTypeOfUrl: string -> DbType, dbType: DbType)
    requires GetDbType(env, dbTypeOfUrl) == Some(dbType)
    requires IsEmpty(GetProperty(env, QUARTZ_JOB_STORE_DRIVER_KEY))
    ensures var after := Process(env, dbTypeOfUrl).sources;
      match DriverDelegateClass(dbType)
      case Some(driver) =>
        QUARTZ_JOB_STORE_DRIVER_KEY in after.systemProperties
        && after.systemProperties[QUARTZ_JOB_STORE_DRIVER_KEY] == Text(driver)
      case None =>
        (QUARTZ_JOB_STORE_DRIVER_KEY in after.systemProperties <==> QUARTZ_JOB_STORE_DRIVER_KEY in env.systemProperties)
        && (QUARTZ_JOB_STORE_DRIVER_KEY in env.systemProperties ==>
              after.systemProperties[QUARTZ_JOB_STORE_DRIVER_KEY] == env.systemProperties[QUARTZ_JOB_STORE_DRIVER_KEY])
  {
    KeysDistinct("");
  }

  /** The id-type key is written only when the id type currently reads `NONE`. */
  lemma IdTypeKeptUnlessNone(env: PropertySources, dbTypeOfUrl: string -> DbType)
    requires GetIdType(env) != Found(NONE)
    ensures var after := Process(env, dbTypeOfUrl).sources;
      (ID_TYPE_KEY in after.systemProperties <==> ID_TYPE_KEY in env.systemProperties)
      && (ID_TYPE_KEY in env.systemProperties ==> after.systemProperties[ID_TYPE_KEY] == env.systemProperties[ID_TYPE_KEY])
  {
    KeysDistinct("");
    match GetDbType(env, dbTypeOfUrl)
    case None =>
    case Some(dbType) => DriverStepKeepsIdType(env, dbType);
  }

  /** `NONE` becomes `INPUT` for the sequence databases and `AUTO` for all others. */
  lemma NoneIdTypeReplaced(env: PropertySources, dbTypeOfUrl: string -> DbType, dbType: DbType)
    requires GetDbType(env, dbTypeOfUrl) == Some(dbType)
    requires GetIdType(env) == Found(NONE)
    ensures var p := Process(env, dbTypeOfUrl);
      !p.conversionFailed && p.sqlConstantsInit == Some(dbType)
      && ID_TYPE_KEY in p.sources.systemProperties
      && (p.sources.systemProperties[ID_TYPE_KEY] == IdTypeValue(INPUT) <==> dbType in INPUT_ID_TYPES)
      && (p.sources.systemProperties[ID_TYPE_KEY] == IdTypeValue(AUTO) <==> dbType !in INPUT_ID_TYPES)
  {
    DriverStepKeepsIdType(env, dbType);
  }

  /**
   * Only the system-properties layer changes, and in it only the id-type
   * and driver-delegate keys.
   */
  lemma OnlyTwoSystemPropertiesWritten(env: PropertySources, dbTypeOfUrl: string -> DbType)
    ensures var after := Process(env, dbTypeOfUrl).sources;
      after.above == env.above && after.below == env.below
      && (forall k :: k != ID_TYPE_KEY && k != QUARTZ_JOB_STORE_DRIVER_KEY ==>
            (k in after.systemProperties <==> k in env.systemProperties))
      && (forall k :: k != ID_TYPE_KEY && k != QUARTZ_JOB_STORE_DRIVER_KEY && k in env.systemProperties ==>
            after.systemProperties[k] == env.systemProperties[k])
  {
    match GetDbType(env, dbTypeOfUrl)
    case None =>
    case Some(dbType) => DriverStepKeepsIdType(env, dbType);
  }

  /** Unless a source ahead of the system properties sets the id type, the replacement is what the id type then reads. */
  lemma ReplacementTakesEffect(env: PropertySources, dbTypeOfUrl: string -> DbType, dbType: DbType)
    requires GetDbType(env, dbTypeOfUrl) == Some(dbType)
    requires GetIdType(env) == Found(NONE)
    requires ID_TYPE_KEY !in env.above
    ensures GetIdType(Process(env, dbTypeOfUrl).sources) == Found(ReplacementIdType(dbType))
  {
    DriverStepKeepsIdType(env, dbType);
  }

  /** The driver step does nothing to sources it has already been applied to. */
  lemma DriverStepIdempotent(env: PropertySources, dbType: DbType)
    ensures AfterJobStoreDriver(AfterJobStoreDriver(env, dbType), dbType) == AfterJobStoreDriver(env, dbType)
  {
    var once := AfterJobStoreDriver(env, dbType);
    if once != env {
      var driver := DriverDelegateClass(dbType).value;
      assert once.systemProperties[QUARTZ_JOB_STORE_DRIVER_KEY] == Text(driver);
      assert once.systemProperties[QUARTZ_JOB_STORE_DRIVER_KEY := Text(driver)] == once.systemProperties;
    }
  }

  /** Writing the id type does not wake the driver step up again. */
  lemma DriverStepStaysSettled(env: PropertySources, dbType: DbType, value: PropertyValue)
    requires AfterJobStoreDriver(env, dbType) == env
    ensures AfterJobStoreDriver(PutSystemProperty(env, ID_TYPE_KEY, value), dbType) == PutSystemProperty(env, ID_TYPE_KEY, value)
  {
    KeysDistinct("");
    var put := PutSystemProperty(env, ID_TYPE_KEY, value);
    PutKeepsOtherKeys(env, ID_TYPE_KEY, value, QUARTZ_JOB_STORE_DRIVER_KEY);
    if IsEmpty(GetProperty(env, QUARTZ_JOB_STORE_DRIVER_KEY)) && DriverDelegateClass(dbType).Some? {
      var driver := DriverDelegateClass(dbType).value;
      assert env.systemProperties[QUARTZ_JOB_STORE_DRIVER_KEY := Text(driver)] == env.systemProperties;
      assert QUARTZ_JOB_STORE_DRIVER_KEY in env.systemProperties && env.systemProperties[QUARTZ_JOB_STORE_DRIVER_KEY] == Text(driver);
      assert put.systemProperties[QUARTZ_JOB_STORE_DRIVER_KEY := Text(driver)] == put.systemProperties;
    }
  }

  /** A run over sources the driver step has settled, whose id type is not `NONE` or already holds the replacement, changes nothing. */
  lemma SettledRunChangesNothing(env: PropertySources, dbTypeOfUrl: string -> DbType, dbType: DbType)
    requires GetDbType(env, dbTypeOfUrl) == Some(dbType)
    requires AfterJobStoreDriver(env, dbType) == env
    requires GetIdType(env) != Found(NONE)
      || (ID_TYPE_KEY in env.systemProperties && env.systemProperties[ID_TYPE_KEY] == IdTypeValue(ReplacementIdType(dbType)))
    ensures Process(env, dbTypeOfUrl).sources == env
  {
    if GetIdType(env) == Found(NONE) {
      assert env.systemProperties[ID_TYPE_KEY := IdTypeValue(ReplacementIdType(dbType))] == env.systemProperties;
    }
  }

  /**
   * Running the step a second time changes nothing more. (When the id type is
   * pinned ahead of the system properties, each run writes the same value again.)
   */
  lemma ProcessIdempotent(env: PropertySources, dbTypeOfUrl: string -> DbType)
    ensures Process(Process(env, dbTypeOfUrl).sources, dbTypeOfUrl).sources == Process(env, dbTypeOfUrl).sources
  {
    var after := Process(env, dbTypeOfUrl).sources;
    match GetDbType(env, dbTypeOfUrl)
    case None =>
    case Some(dbType) =>
      var withDriver := AfterJobStoreDriver(env, dbType);
      DriverStepKeepsIdType(env, dbType);
      DriverStepIdempotent(env, dbType);
      if withDriver != env {
        GetDbTypeUnaffected(env, QUARTZ_JOB_STORE_DRIVER_KEY, Text(DriverDelegateClass(dbType).value), dbTypeOfUrl);
      }
      if GetIdType(withDriver) != Found(NONE) {
        assert after == withDriver;
        SettledRunChangesNothing(after, dbTypeOfUrl, dbType);
      } else {
        var value := IdTypeValue(ReplacementIdType(dbType));
        assert after == PutSystemProperty(withDriver, ID_TYPE_KEY, value);
        GetDbTypeUnaffected(withDriver, ID_TYPE_KEY, value, dbTypeOfUrl);
        DriverStepStaysSettled(withDriver, dbType, value);
        SettledRunChangesNothing(after, dbTypeOfUrl, dbType);
      }
  }
}
