/**
 * A Postgres instance in the isolated subnets of an environment's network.
 *
 * The database reads the network's outputs from the parameter store, derives
 * its user and database names from the application environment, and
 * publishes five outputs of its own under keys
 * `<environmentName>-<applicationName>-Database-<field>`.
 */
module Postgres {
  import opened Lang
  import Ssm
  import opened AppEnvironment
  import Network

  // ---------------------------------------------------------------------
  // Parameter names and keys

  /** The five outputs the database publishes. */
  datatype DatabaseParameter = EndpointAddress | EndpointPort | DatabaseName | SecurityGroupId | SecretArn

  /** The `PARAMETER_*` constants. */
  function ParameterName(p: DatabaseParameter): (name: string)
  {
    match p
    case EndpointAddress => "endpointAddress"
    case EndpointPort => "endpointPort"
    case DatabaseName => "databaseName"
    case SecurityGroupId => "securityGroupId"
    case SecretArn => "secretArn"
  }

  /** Which output a parameter name stands for, if any. */
  function ParameterOfName(name: string): (r: Option<DatabaseParameter>)
  {
    if name == "endpointAddress" then Some(EndpointAddress)
    else if name == "endpointPort" then Some(EndpointPort)
    else if name == "databaseName" then Some(DatabaseName)
    else if name == "securityGroupId" then Some(SecurityGroupId)
    else if name == "secretArn" then Some(SecretArn)
    else None
  }

  /** Every parameter name reads back as its own parameter, so the five names are distinct. */
  lemma ParameterOfNameInverse(p: DatabaseParameter)
    ensures ParameterOfName(ParameterName(p)) == Some(p)
  {
  }

  /** No database parameter name holds a hyphen. */
  lemma ParameterNameHasNoHyphen(p: DatabaseParameter)
    ensures '-' !in ParameterName(p)
  {
  }

  /** The names of the endpoint are not network parameter names. */
  lemma EndpointNameIsNotNetworkName(p: DatabaseParameter)
    requires p.EndpointAddress? || p.EndpointPort?
    ensures Network.ParameterOfName(ParameterName(p)) == None
  {
  }

  /** The names of the database, its security group and its secret are not network parameter names. */
  lemma ResourceNameIsNotNetworkName(p: DatabaseParameter)
    requires p.DatabaseName? || p.SecurityGroupId? || p.SecretArn?
    ensures Network.ParameterOfName(ParameterName(p)) == None
  {
  }

  /** No database parameter name is a network parameter name. */
  lemma ParameterNameIsNotNetworkName(p: DatabaseParameter)
    ensures Network.ParameterOfName(ParameterName(p)) == None
  {
    if p.EndpointAddress? || p.EndpointPort? {
      EndpointNameIsNotNetworkName(p);
    } else {
      ResourceNameIsNotNetworkName(p);
    }
  }

  /**
   * `createParameterName`: the raw environment name and the raw application
   * name, not the sanitized `toString`, then `-Database-` and the parameter
   * name.
   */
  function CreateParameterName(e: ApplicationEnvironment, parameterName: string): (r: string)
    ensures |r| > |e.environmentName| + |parameterName|
    ensures r[..|e.environmentName|] == e.environmentName && r[|r| - |parameterName|..] == parameterName
  {
    e.environmentName + "-" + e.applicationName + "-Database-" + parameterName
  }

  /** The store key of one output of the database of an application environment. */
  function Key(e: ApplicationEnvironment, p: DatabaseParameter): string
  {
    CreateParameterName(e, ParameterName(p))
  }

  /** The naming of the outputs of the database of `e`. */
  function KeysOf(e: ApplicationEnvironment): DatabaseParameter -> string
  {
    p => Key(e, p)
  }

  /** Which output of the database of `e` the key `k` belongs to, if any. */
  function KeyOwner(e: ApplicationEnvironment, k: string): (r: Option<DatabaseParameter>)
  {
    var prefix := e.environmentName + "-" + e.applicationName + "-Database-";
    if |prefix| <= |k| && k[..|prefix|] == prefix then ParameterOfName(k[|prefix|..]) else None
  }

  /** Every key names its own output, so within one application environment the keys are distinct. */
  lemma KeyOwnerInverse(e: ApplicationEnvironment, p: DatabaseParameter)
    ensures KeyOwner(e, Key(e, p)) == Some(p)
  {
    var prefix := e.environmentName + "-" + e.applicationName + "-Database-";
    var k := Key(e, p);
    assert k[..|prefix|] == prefix;
    assert k[|prefix|..] == ParameterName(p);
    ParameterOfNameInverse(p);
  }

  /**
   * A database key is never a network key, whatever the environment names:
   * the database cannot overwrite an output of any network.
   */
  lemma KeyIsNotNetworkKey(e: ApplicationEnvironment, p: DatabaseParameter, env: string, q: Network.NetworkParameter)
    ensures Key(e, p) != Network.Key(env, q)
  {
    ParameterNameHasNoHyphen(p);
    ParameterNameIsNotNetworkName(p);
    Network.ParameterNameHasNoHyphen(q);
    Network.ParameterOfNameInverse(q);
    var x := e.environmentName + "-" + e.applicationName + "-Database";
    var y := env + "-Network";
    assert Key(e, p) == x + "-" + ParameterName(p);
    assert Network.Key(env, q) == y + "-" + Network.ParameterName(q);
    DistinctLastSegments(x, ParameterName(p), y, Network.ParameterName(q));
  }

  /** Names whose hyphen-free last segments differ are different. */
  lemma DistinctLastSegments(x: string, n: string, y: string, m: string)
    requires '-' !in n && '-' !in m && n != m
    ensures x + "-" + n != y + "-" + m
  {
    if x + "-" + n == y + "-" + m {
      LastSegmentUnique(x, n, y, m);
    }
  }

  /**
   * Because the raw names are joined with a hyphen, two different application
   * environments can share their database keys: environment `a-b` with
   * application `c`, and environment `a` with application `b-c`.
   */
  lemma KeysCollideAcrossEnvironments(p: DatabaseParameter)
    ensures ApplicationEnvironment("c", "a-b") != ApplicationEnvironment("b-c", "a")
    ensures Key(ApplicationEnvironment("c", "a-b"), p) == Key(ApplicationEnvironment("b-c", "a"), p)
  {
    assert "a-b" + "-" + "c" == "a" + "-" + "b-c";
  }

  // ---------------------------------------------------------------------
  // Database identifiers

  /** Keeps exactly the characters of `[a-zA-Z0-9]`, in their order. */
  function KeepAlphanumeric(s: string): (r: string)
    ensures forall i :: 0 <= i < |r| ==> IsAlphanumeric(r[i])
    ensures (forall i :: 0 <= i < |s| ==> IsAlphanumeric(s[i])) ==> r == s
    decreases |s|
  {
    if |s| == 0 then ""
    else
      var rest := KeepAlphanumeric(s[1..]);
      if IsAlphanumeric(s[0]) then [s[0]] + rest else rest
  }

  /** Filtering works character by character: it distributes over concatenation. */
  lemma {:induction false} KeepAlphanumericAppend(a: string, b: string)
    ensures KeepAlphanumeric(a + b) == KeepAlphanumeric(a) + KeepAlphanumeric(b)
    decreases |a|
  {
    if |a| == 0 {
      assert a + b == b;
    } else {
      assert (a + b)[0] == a[0];
      assert (a + b)[1..] == a[1..] + b;
      KeepAlphanumericAppend(a[1..], b);
    }
  }

  /** The filter keeps one character per alphanumeric character of its input. */
  lemma {:induction false} KeepAlphanumericLength(s: string)
    ensures |KeepAlphanumeric(s)| == Count(s, IsAlphanumeric)
    decreases |s|
  {
    if |s| > 0 {
      KeepAlphanumericLength(s[1..]);
    }
  }

  /**
   * `sanitizeDbName`: drops every character outside `[a-zA-Z0-9]`, then
   * replaces a leading digit by `a`.
   */
  function SanitizeDbName(s: string): (r: string)
    ensures IsDbIdentifier(r)
    ensures |r| == |KeepAlphanumeric(s)|
  {
    var kept := KeepAlphanumeric(s);
    if |kept| > 0 && IsDigit(kept[0]) then "a" + kept[1..] else kept
  }

  /** A valid database identifier: alphanumeric, and starting with a letter if not empty. */
  predicate IsDbIdentifier(s: string)
  {
    (forall i :: 0 <= i < |s| ==> IsAlphanumeric(s[i])) && (|s| > 0 ==> IsLetter(s[0]))
  }

  /**
   * The sanitized name is a valid identifier with one character per
   * alphanumeric character of the input, and it agrees with the filtered
   * input everywhere but at a leading digit.
   */
  lemma SanitizeDbNameSpec(s: string)
    ensures IsDbIdentifier(SanitizeDbName(s))
    ensures |SanitizeDbName(s)| == Count(s, IsAlphanumeric)
    ensures forall i :: 0 < i < |SanitizeDbName(s)| ==> SanitizeDbName(s)[i] == KeepAlphanumeric(s)[i]
    ensures |KeepAlphanumeric(s)| > 0 ==>
              SanitizeDbName(s)[0] == (if IsDigit(KeepAlphanumeric(s)[0]) then 'a' else KeepAlphanumeric(s)[0])
  {
    KeepAlphanumericLength(s);
  }

  /** Sanitizing a valid identifier changes nothing, so sanitizing twice is sanitizing once. */
  lemma SanitizeDbNameIdempotent(s: string)
    ensures IsDbIdentifier(s) ==> SanitizeDbName(s) == s
    ensures SanitizeDbName(SanitizeDbName(s)) == SanitizeDbName(s)
  {
    SanitizeDbNameSpec(s);
  }

  /** The master user name: `sanitizeDbName(prefix("dbUser"))`. */
  function Username(e: ApplicationEnvironment): (r: string)
    ensures IsDbIdentifier(r)
  {
    SanitizeDbName(Prefix(e, "dbUser"))
  }

  /** The database name: `sanitizeDbName(prefix("database"))`. */
  function DbName(e: ApplicationEnvironment): (r: string)
    ensures IsDbIdentifier(r)
  {
    SanitizeDbName(Prefix(e, "database"))
  }

  /** Sanitizing keeps an alphanumeric tail that starts with a letter. */
  lemma SanitizeDbNameKeepsTail(x: string, s: string)
    requires |s| > 0 && IsLetter(s[0])
    requires forall i :: 0 <= i < |s| ==> IsAlphanumeric(s[i])
    ensures IsSuffix(s, SanitizeDbName(x + s))
  {
    var head := KeepAlphanumeric(x);
    KeepAlphanumericAppend(x, s);
    var kept := KeepAlphanumeric(x + s);
    assert kept == head + s;
    if |head| > 0 && IsDigit(head[0]) {
      assert kept[1..] == head[1..] + s;
      assert SanitizeDbName(x + s) == "a" + head[1..] + s;
    }
  }

  /** A prefixed name ending in an identifier sanitizes to an identifier with the same ending. */
  lemma SanitizedPrefixEndsWith(e: ApplicationEnvironment, s: string)
    requires |s| > 0 && IsLetter(s[0])
    requires forall i :: 0 <= i < |s| ==> IsAlphanumeric(s[i])
    ensures IsDbIdentifier(SanitizeDbName(Prefix(e, s)))
    ensures IsSuffix(s, SanitizeDbName(Prefix(e, s)))
  {
    SanitizeDbNameSpec(Prefix(e, s));
    SanitizeDbNameKeepsTail(ToString(e) + "-", s);
  }

  /** The user and database names are valid identifiers ending in `dbUser` and `database`. */
  lemma NamesAreIdentifiers(e: ApplicationEnvironment)
    ensures IsDbIdentifier(Username(e)) && IsSuffix("dbUser", Username(e))
    ensures IsDbIdentifier(DbName(e)) && IsSuffix("database", DbName(e))
  {
    SanitizedPrefixEndsWith(e, "dbUser");
    SanitizedPrefixEndsWith(e, "database");
  }

  // ---------------------------------------------------------------------
  // Input parameters

  class DatabaseInputParameters {
    var storageInGb: int
    var instanceClass: string
    var postgresVersion: string

    /** The defaults: 20 GB of storage on a `db.t2.micro` instance running Postgres 11.5. */
    constructor ()
      ensures storageInGb == 20 && instanceClass == "db.t2.micro" && postgresVersion == "11.5"
    {
      storageInGb := 20;
      instanceClass := "db.t2.micro";
      postgresVersion := "11.5";
    }

    /** Accepts any storage size and returns the same object. */
    method WithStorageInGb(storageInGb: int) returns (r: DatabaseInputParameters)
      modifies this
      ensures r == this && this.storageInGb == storageInGb
      ensures instanceClass == old(instanceClass) && postgresVersion == old(postgresVersion)
    {
      this.storageInGb := storageInGb;
      return this;
    }

    /** Sets the instance class and returns the same object; `null` is rejected. */
    method WithInstanceClass(instanceClass: Nullable<string>) returns (r: Result<DatabaseInputParameters>)
      modifies this
      ensures r.Success? <==> instanceClass.NonNull?
      ensures r.Success? ==> r.value == this && this.instanceClass == instanceClass.value
      ensures r.Failure? ==> r.error == NullPointerException(None) && this.instanceClass == old(this.instanceClass)
      ensures storageInGb == old(storageInGb) && postgresVersion == old(postgresVersion)
    {
      var c :- RequireNonNull(instanceClass, None);
      this.instanceClass := c;
      return Success(this);
    }

    /** Sets the Postgres version and returns the same object; `null` is rejected. */
    method WithPostgresVersion(postgresVersion: Nullable<string>) returns (r: Result<DatabaseInputParameters>)
      modifies this
      ensures r.Success? <==> postgresVersion.NonNull?
      ensures r.Success? ==> r.value == this && this.postgresVersion == postgresVersion.value
      ensures r.Failure? ==> r.error == NullPointerException(None) && this.postgresVersion == old(this.postgresVersion)
      ensures storageInGb == old(storageInGb) && instanceClass == old(instanceClass)
    {
      var v :- RequireNonNull(postgresVersion, None);
      this.postgresVersion := v;
      return Success(this);
    }
  }

  // ---------------------------------------------------------------------
  // Output parameters and the store

  datatype DatabaseOutputParameters = DatabaseOutputParameters(
    endpointAddress: string,
    endpointPort: string,
    dbName: string,
    databaseSecretArn: string,
    databaseSecurityGroupId: string)

  /**
   * `createOutputParameters`: the store after the five writes, each output
   * under the key `key` gives it.
   */
  function WriteOutputParameters(entries: map<string, string>, key: DatabaseParameter -> string, o: DatabaseOutputParameters): (m: map<string, string>)
  {
    entries
      [key(EndpointAddress) := o.endpointAddress]
      [key(EndpointPort) := o.endpointPort]
      [key(DatabaseName) := o.dbName]
      [key(SecurityGroupId) := o.databaseSecurityGroupId]
      [key(SecretArn) := o.databaseSecretArn]
  }

  /**
   * The five getters, each output from the key `key` gives it, in the order
   * of the constructor of the outputs. Fails on the first key nobody wrote.
   */
  function ReadOutputParameters(entries: map<string, string>, key: DatabaseParameter -> string): (r: Result<DatabaseOutputParameters>)
    ensures r.Failure? ==> exists p :: r.error == ParameterNotFound(key(p)) && key(p) !in entries
  {
    var endpointAddress :- Ssm.Get(entries, key(EndpointAddress));
    var endpointPort :- Ssm.Get(entries, key(EndpointPort));
    var dbName :- Ssm.Get(entries, key(DatabaseName));
    var secretArn :- Ssm.Get(entries, key(SecretArn));
    var securityGroupId :- Ssm.Get(entries, key(SecurityGroupId));
    Success(DatabaseOutputParameters(endpointAddress, endpointPort, dbName, secretArn, securityGroupId))
  }

  /** `getOutputParametersFromParameterStore`: the outputs of the database of `e`. */
  function GetOutputParametersFromParameterStore(entries: map<string, string>, e: ApplicationEnvironment): (r: Result<DatabaseOutputParameters>)
    ensures r.Failure? ==> exists p :: r.error == ParameterNotFound(Key(e, p)) && Key(e, p) !in entries
  {
    ReadOutputParameters(entries, KeysOf(e))
  }

  /** Under any naming that `owner` can invert, reading after writing gives every output back. */
  lemma ReadAfterWrite(entries: map<string, string>, key: DatabaseParameter -> string,
                       owner: string -> Option<DatabaseParameter>, o: DatabaseOutputParameters)
    requires forall p :: owner(key(p)) == Some(p)
    ensures ReadOutputParameters(WriteOutputParameters(entries, key, o), key) == Success(o)
  {
  }

  /** The writes touch the five keys of the naming and nothing else. */
  lemma WriteKeepsOtherKeys(entries: map<string, string>, key: DatabaseParameter -> string, o: DatabaseOutputParameters, k: string)
    requires forall p :: key(p) != k
    ensures Ssm.Get(WriteOutputParameters(entries, key, o), k) == Ssm.Get(entries, k)
  {
  }

  /** Reading the database of `e` after writing it returns exactly the outputs written. */
  lemma StoreRoundTrip(entries: map<string, string>, e: ApplicationEnvironment, o: DatabaseOutputParameters)
    ensures GetOutputParametersFromParameterStore(WriteOutputParameters(entries, KeysOf(e), o), e) == Success(o)
  {
    forall p ensures KeyOwner(e, KeysOf(e)(p)) == Some(p) {
      KeyOwnerInverse(e, p);
    }
    ReadAfterWrite(entries, KeysOf(e), k => KeyOwner(e, k), o);
  }

  /** Writing the database's outputs leaves every network's outputs as they were. */
  lemma WriteKeepsNetwork(entries: map<string, string>, e: ApplicationEnvironment, o: DatabaseOutputParameters, env: string)
    ensures Network.GetOutputParametersFromParameterStore(WriteOutputParameters(entries, KeysOf(e), o), env)
            == Network.GetOutputParametersFromParameterStore(entries, env)
  {
    forall q ensures Ssm.Get(WriteOutputParameters(entries, KeysOf(e), o), Network.KeysOf(env)(q))
                     == Ssm.Get(entries, Network.KeysOf(env)(q)) {
      forall p ensures KeysOf(e)(p) != Network.KeysOf(env)(q) {
        KeyIsNotNetworkKey(e, p, env, q);
      }
      WriteKeepsOtherKeys(entries, KeysOf(e), o, Network.KeysOf(env)(q));
    }
    Network.ReadSeesOnlyItsKeys(WriteOutputParameters(entries, KeysOf(e), o), entries, Network.KeysOf(env));
  }

  // ---------------------------------------------------------------------
  // The construct

  /**
   * Identifiers that the provisioning framework assigns to the resources the
   * database asks it to create; the construct only passes them on.
   */
  datatype DatabaseCloudIds = DatabaseCloudIds(
    securityGroupId: string,
    secretArn: string,
    endpointAddress: string,
    endpointPort: string)

  /** The settings the construct gives the database instance. */
  datatype DbInstanceSettings = DbInstanceSettings(
    allocatedStorage: string,
    availabilityZone: string,
    dbInstanceClass: string,
    dbName: string,
    engine: string,
    engineVersion: string,
    masterUsername: string,
    subnetIds: seq<string>,
    publiclyAccessible: bool)

  /**
   * The instance settings: the storage as a decimal string, the first
   * availability zone and the isolated subnets of the network, the
   * sanitized names, and no public access.
   */
  function InstanceSettings(e: ApplicationEnvironment, input: DatabaseInputParameters, network: Network.NetworkOutputParameters): (s: DbInstanceSettings)
    requires |network.availabilityZones| > 0
    reads input
    ensures s.allocatedStorage == IntToString(input.storageInGb) && ParseInt(s.allocatedStorage) == Some(input.storageInGb)
    ensures s.availabilityZone == network.availabilityZones[0] && s.subnetIds == network.isolatedSubnets
    ensures IsDbIdentifier(s.dbName) && IsSuffix("database", s.dbName)
    ensures IsDbIdentifier(s.masterUsername) && IsSuffix("dbUser", s.masterUsername)
    ensures s.engine == "postgres" && !s.publiclyAccessible
    ensures s.dbInstanceClass == input.instanceClass && s.engineVersion == input.postgresVersion
  {
    IntToStringRoundTrip(input.storageInGb);
    NamesAreIdentifiers(e);
    DbInstanceSettings(
      IntToString(input.storageInGb), network.availabilityZones[0], input.instanceClass,
      DbName(e), "postgres", input.postgresVersion, Username(e), network.isolatedSubnets, false)
  }

  class PostgresDatabase {
    const applicationEnvironment: ApplicationEnvironment
    const settings: DbInstanceSettings
    const ids: DatabaseCloudIds

    constructor Init(applicationEnvironment: ApplicationEnvironment, settings: DbInstanceSettings, ids: DatabaseCloudIds)
      ensures this.applicationEnvironment == applicationEnvironment && this.settings == settings && this.ids == ids
    {
      this.applicationEnvironment := applicationEnvironment;
      this.settings := settings;
      this.ids := ids;
    }

    /**
     * The outputs as they are written to the store: the instance's endpoint
     * and database name, the secret's ARN and the security group's id.
     */
    function GetOutputParameters(): (o: DatabaseOutputParameters)
      ensures o.databaseSecretArn == ids.secretArn && o.databaseSecurityGroupId == ids.securityGroupId
      ensures o.endpointAddress == ids.endpointAddress && o.endpointPort == ids.endpointPort
      ensures o.dbName == settings.dbName
    {
      DatabaseOutputParameters(ids.endpointAddress, ids.endpointPort, settings.dbName, ids.secretArn, ids.securityGroupId)
    }

    /**
     * `getOutputParameters` as written: the security group's id is passed
     * where the constructor expects the secret's ARN, and the other way round.
     */
    function GetOutputParametersAsWritten(): (o: DatabaseOutputParameters)
      ensures o.databaseSecretArn == ids.securityGroupId && o.databaseSecurityGroupId == ids.secretArn
    {
      DatabaseOutputParameters(ids.endpointAddress, ids.endpointPort, settings.dbName, ids.securityGroupId, ids.secretArn)
    }

    /** `createOutputParameters`: five store writes in sequence. */
    method CreateOutputParameters(store: Ssm.ParameterStore)
      modifies store
      ensures store.entries == WriteOutputParameters(old(store.entries), KeysOf(applicationEnvironment), GetOutputParameters())
    {
      var e := applicationEnvironment;
      store.Put(Key(e, EndpointAddress), ids.endpointAddress);
      store.Put(Key(e, EndpointPort), ids.endpointPort);
      store.Put(Key(e, DatabaseName), settings.dbName);
      store.Put(Key(e, SecurityGroupId), ids.securityGroupId);
      store.Put(Key(e, SecretArn), ids.secretArn);
    }
  }

  /**
   * The in-stack outputs as written disagree with what a stack reading the
   * store sees whenever the secret's ARN and the security group's id differ.
   */
  lemma InStackOutputsSwapped(db: PostgresDatabase, entries: map<string, string>)
    requires db.ids.secretArn != db.ids.securityGroupId
    ensures GetOutputParametersFromParameterStore(
              WriteOutputParameters(entries, KeysOf(db.applicationEnvironment), db.GetOutputParameters()),
              db.applicationEnvironment)
            != Success(db.GetOutputParametersAsWritten())
  {
    StoreRoundTrip(entries, db.applicationEnvironment, db.GetOutputParameters());
  }

  /**
   * `new PostgresDatabase(...)`: reads the network of the environment from
   * the store, which fails if it was never deployed, then configures the
   * instance and publishes the five outputs. A stack that reads the store
   * afterwards sees the database's outputs, and the network's outputs are
   * untouched.
   */
  method CreateDatabase(e: ApplicationEnvironment, input: DatabaseInputParameters, ids: DatabaseCloudIds, store: Ssm.ParameterStore)
    returns (r: Result<PostgresDatabase>)
    modifies store
    ensures var network := Network.GetOutputParametersFromParameterStore(old(store.entries), e.environmentName);
      && (r.Success? <==> network.Success?)
      && (r.Failure? ==> r.error == network.error && store.entries == old(store.entries))
      && (r.Success? ==> fresh(r.value) && r.value.applicationEnvironment == e && r.value.ids == ids
                         && r.value.settings == InstanceSettings(e, input, network.value))
    ensures r.Success? ==> store.entries == WriteOutputParameters(old(store.entries), KeysOf(e), r.value.GetOutputParameters())
    ensures r.Success? ==> GetOutputParametersFromParameterStore(store.entries, e) == Success(r.value.GetOutputParameters())
    ensures Network.GetOutputParametersFromParameterStore(store.entries, e.environmentName)
            == Network.GetOutputParametersFromParameterStore(old(store.entries), e.environmentName)
  {
    var network :- Network.GetOutputParametersFromParameterStore(store.entries, e.environmentName);
    var db := new PostgresDatabase.Init(e, InstanceSettings(e, input, network), ids);
    db.CreateOutputParameters(store);
    StoreRoundTrip(old(store.entries), e, db.GetOutputParameters());
    WriteKeepsNetwork(old(store.entries), e, db.GetOutputParameters(), e.environmentName);
    return Success(db);
  }
}
