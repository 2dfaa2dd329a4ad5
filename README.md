# Stratospheric CDK constructs — a verified model

The constructs library builds AWS infrastructure for a Spring Boot application with the AWS CDK. It has five building blocks:

- an `ApplicationEnvironment` descriptor, which gives every resource name an `environment-application` prefix;
- a `Network` (VPC, ECS cluster, load balancer with an HTTP and an optional HTTPS listener), which publishes its outputs in the SSM parameter store;
- a `PostgresDatabase`, which reads the network's outputs from that store and publishes its own;
- a `Service`, an ECS service behind the network's load balancer;
- a `DockerRepository`, an ECR repository with a lifecycle rule.

Most of the library hands values to CDK builders. This model keeps the parts that decide something:

- how names are derived and sanitized;
- the keys, values and `"null"` sentinel that the network and the database write to the parameter store, and how they are read back;
- the `null` checks, defaults and fluent setters of the input-parameter classes;
- the branches of the constructs: HTTPS or not, sticky sessions or not, image from a URL or from ECR, retain or destroy;
- the two loops of the service.

## Layout

| file | module | source |
|---|---|---|
| `lang.dfy` | `Lang` | the Java platform the constructs use: `Optional`, `null`, `Objects.requireNonNull`, `List.get`, `String.valueOf(int)`, the exceptions |
| `parameter_store.dfy` | `Ssm` | the SSM parameter store, as a map from parameter name to string value |
| `application_environment.dfy` | `AppEnvironment` | `ApplicationEnvironment.java` |
| `network.dfy` | `Network` | `Network.java` |
| `postgres_database.dfy` | `Postgres` | `PostgresDatabase.java` |
| `service.dfy` | `EcsService` | `Service.java` |
| `docker_repository.dfy` | `DockerRepository` | `DockerRepository.java` |

## How Java and the cloud are modelled

- **Exceptions and `null`.**
  - A Java exception is a `Failure` of a `Result`. `null` is `Nullable.Null`, kept apart from an empty `Optional`.
  - Setters that change an object in place are methods of a class with a `modifies` clause. They return the same object, as the fluent Java setters do.
- **Resources made by the cloud.** A resource the cloud creates is represented by identifiers that are parameters of the model: subnet ids, ARNs, the endpoint of the database, the registry URI of an image.
  - `Network.CloudIds`, `Postgres.DatabaseCloudIds` and `EcsService.ServiceCloudIds` carry them.
  - The registry URI is the function parameter `repositoryUriForTag`.
- **The parameter store.**
  - A write is `Ssm.ParameterStore.Put`. A read is `Ssm.Get`, which fails with `ParameterNotFound` when no stack wrote the name.
  - In the real system, a read yields a token that is resolved at deployment, and reading a missing parameter fails then, not at synthesis. The model reads the resolved value and folds both failures into one.
- **Structured names instead of string surgery.** The network's and the database's parameters are datatypes whose names are the Java constants. A key is the environment prefix followed by that name.
  - Store lemmas are proved against any naming function that can be inverted, and then instantiated with the real keys.
  - This states the store round trip for every environment name, not for examples.
- **Database keys can collide.** Keys of the database are not unique across environments: `Postgres.KeysCollideAcrossEnvironments` exhibits two different environments with the same keys. The format `env-app-Database-name` cannot tell where the environment name ends. The model states this and does not depend on the opposite.
- **Health-check path.** The documentation of `withHealthCheckPath` names `/actuator/health` as the default. The code initialises the field to `/`. The model follows the code.

## Model

| member | source | states |
|---|---|---|
| Lang.RequireNonNull | src/main/java/dev/stratospheric/cdk/Network.java:477-481 | `Objects.requireNonNull` passes a non-null value through unchanged and throws `NullPointerException` with the given message (or none) on `null` |
| Lang.OptionalGet | src/main/java/dev/stratospheric/cdk/Service.java:74 | `Optional.get` yields the value when present and throws `NoSuchElementException` when empty |
| Lang.ListGet | src/main/java/dev/stratospheric/cdk/Network.java:393-398 | `List.get(i)` succeeds exactly when `i` is below the length, with the `i`-th element |
| Lang.NatToString | src/main/java/dev/stratospheric/cdk/PostgresDatabase.java:95 | the decimal rendering is a non-empty string of digits without a leading zero (except for 0) |
| Lang.IntToString | src/main/java/dev/stratospheric/cdk/PostgresDatabase.java:95 | `String.valueOf(int)`: a minus sign exactly for negative numbers, followed by decimal digits; its partner `IntToStringRoundTrip` reads it back |
| Lang.ParseNatToString | src/main/java/dev/stratospheric/cdk/PostgresDatabase.java:95 | reading the digits of a natural number back gives the number |
| Lang.IntToStringRoundTrip | src/main/java/dev/stratospheric/cdk/PostgresDatabase.java:95 | `String.valueOf(int)` loses nothing: parsing it back gives the same `int`, negative numbers included |
| Lang.IntToStringInjective | src/main/java/dev/stratospheric/cdk/Service.java:225 | two different numbers never render alike |
| Lang.LastSegmentUnique | src/main/java/dev/stratospheric/cdk/Network.java:133-135 | a name `x-n` whose last segment `n` has no hyphen determines `x` and `n` |
| Ssm.ParameterStore.Put | src/main/java/dev/stratospheric/cdk/Network.java:358-361 | writing a parameter sets its value and leaves every other parameter as it was |
| Ssm.Get | src/main/java/dev/stratospheric/cdk/Network.java:137-140 | a read succeeds exactly when the name was written, with the written value; otherwise it fails naming the parameter |
| AppEnvironment.Sanitize | src/main/java/dev/stratospheric/cdk/ApplicationEnvironment.java:42-44 | the result holds only characters of `[a-zA-Z0-9-]`, and a name made only of those is left unchanged |
| AppEnvironment.SanitizeAppend | src/main/java/dev/stratospheric/cdk/ApplicationEnvironment.java:42-44 | sanitizing a concatenation is concatenating the sanitized parts |
| AppEnvironment.SanitizeLength | src/main/java/dev/stratospheric/cdk/ApplicationEnvironment.java:42-44 | the result is exactly as long as the number of allowed characters of the input, so never longer |
| AppEnvironment.SanitizeMembers | src/main/java/dev/stratospheric/cdk/ApplicationEnvironment.java:42-44 | a character occurs in the result exactly when it occurs in the input and is allowed |
| AppEnvironment.SanitizeIdempotent | src/main/java/dev/stratospheric/cdk/ApplicationEnvironment.java:42-44 | sanitizing twice is sanitizing once |
| AppEnvironment.ToString | src/main/java/dev/stratospheric/cdk/ApplicationEnvironment.java:46-49 | `toString` yields only characters of `[a-zA-Z0-9-]`; `ToStringJoinsSanitizedNames` gives its structure |
| AppEnvironment.Prefix | src/main/java/dev/stratospheric/cdk/ApplicationEnvironment.java:54-56 | `prefix(s)` ends with `s` verbatim, unsanitized, after a non-empty head; `PrefixStructure` gives the head |
| AppEnvironment.ToStringJoinsSanitizedNames | src/main/java/dev/stratospheric/cdk/ApplicationEnvironment.java:46-49 | `toString` is the sanitized environment name, a hyphen, and the sanitized application name, and is itself sanitized |
| AppEnvironment.ToStringOfSanitizedNames | src/main/java/dev/stratospheric/cdk/ApplicationEnvironment.java:46-49 | names that are already clean are joined as they are |
| AppEnvironment.PrefixStructure | src/main/java/dev/stratospheric/cdk/ApplicationEnvironment.java:54-56 | `prefix(s)` is `env-app-s` with both names sanitized and `s` kept verbatim as its suffix, and its length follows |
| AppEnvironment.PrefixExample | src/test/java/dev/stratospheric/cdk/ApplicationEnvironmentTest.java:10-13 | environment `prod`, application `myapp`, suffix `foo` give `prod-myapp-foo` |
| AppEnvironment.PrefixBounded | src/main/java/dev/stratospheric/cdk/ApplicationEnvironment.java:62-68 | as written: a name within the limit is returned whole; a longer one yields its last 21 characters whatever the limit, and throws `IndexOutOfBoundsException(length - 21, length)`, as `substring` does, when it has fewer than 21 |
| AppEnvironment.PrefixBoundedAsDocumented | src/main/java/dev/stratospheric/cdk/ApplicationEnvironment.java:58-61 | as documented: the result is a suffix of the name, of length `min(length, limit)` |
| AppEnvironment.PrefixBoundedMatchesDocumentationOnlyAt21 | src/main/java/dev/stratospheric/cdk/ApplicationEnvironment.java:58-68 | code and documentation agree exactly when the name fits or the limit is 21 |
| AppEnvironment.LongPrefixCounterexample | src/test/java/dev/stratospheric/cdk/ApplicationEnvironmentTest.java:15-19 | the long-prefix test input with limit 20 yields `n-name-my-long-prefix` (21 characters) where the documented behaviour gives `-name-my-long-prefix` |
| Network.ParameterOfNameInverse | src/main/java/dev/stratospheric/cdk/Network.java:59-72 | every network parameter is recovered from its constant name |
| Network.ParameterOfNameInverseListener | src/main/java/dev/stratospheric/cdk/Network.java:59-63 | the same, for the listener, security-group and cluster parameters |
| Network.ParameterOfNameInverseSubnet | src/main/java/dev/stratospheric/cdk/Network.java:64-69 | the same, for the subnet and availability-zone parameters |
| Network.ParameterOfNameInverseLoadBalancer | src/main/java/dev/stratospheric/cdk/Network.java:70-72 | the same, for the load-balancer parameters |
| Network.ParameterNamesDistinct | src/main/java/dev/stratospheric/cdk/Network.java:59-72 | the fourteen constant names are pairwise different |
| Network.ParameterNameHasNoHyphen | src/main/java/dev/stratospheric/cdk/Network.java:59-72 | no constant name contains a hyphen |
| Network.ParameterNameHasNoHyphenListener | src/main/java/dev/stratospheric/cdk/Network.java:59-63 | the same, for the first group of names |
| Network.ParameterNameHasNoHyphenSubnet | src/main/java/dev/stratospheric/cdk/Network.java:64-69 | the same, for the subnet and zone names |
| Network.ParameterNameHasNoHyphenLoadBalancer | src/main/java/dev/stratospheric/cdk/Network.java:70-72 | the same, for the load-balancer names |
| Network.KeyInjective | src/main/java/dev/stratospheric/cdk/Network.java:132-135 | `env-Network-name` keys of different environments or different parameters never coincide |
| Network.KeyOwnerInverse | src/main/java/dev/stratospheric/cdk/Network.java:132-135 | the parameter is recovered from its key in the store |
| Network.DecodeHttpsListenerArn | src/main/java/dev/stratospheric/cdk/Network.java:147-155 | a stored `"null"` reads as an empty `Optional`, any other value as itself |
| Network.HttpsListenerArnRoundTrip | src/main/java/dev/stratospheric/cdk/Network.java:368-378 | storing and reading the HTTPS listener ARN gives it back, except for a listener whose ARN is literally `"null"`, which reads back as absent |
| Network.CreateParameterName | src/main/java/dev/stratospheric/cdk/Network.java:133-135 | the key starts with the raw environment name and ends with the parameter name; `KeyInjective` shows no two keys coincide |
| Network.ReadOutputParameters | src/main/java/dev/stratospheric/cdk/Network.java:167-198 | a successful read always yields exactly two isolated subnets, two public subnets and two availability zones |
| Network.GetOutputParametersFromParameterStore | src/main/java/dev/stratospheric/cdk/Network.java:116-130 | a read yields two of each list, or fails naming one of this environment's network keys that nobody wrote; `StoreRoundTrip` is its partner |
| Network.WriteOutputParameters | src/main/java/dev/stratospheric/cdk/Network.java:356-437 | the fourteen writes of `createOutputParameters`; its contract is given by `WrittenScalarsKept`, `WrittenListsKept`, `WriteKeepsOtherKeys` and `ReadAfterWrite` |
| Network.WrittenScalarsKept | src/main/java/dev/stratospheric/cdk/Network.java:356-389 | after all writes, the VPC, listener, security-group and cluster keys hold what was written for them |
| Network.WrittenListsKept | src/main/java/dev/stratospheric/cdk/Network.java:391-437 | after all writes, the zone, subnet and load-balancer keys hold the first two list entries and the scalars written for them |
| Network.ReadAfterWrite | src/main/java/dev/stratospheric/cdk/Network.java:356-437 | reading what `createOutputParameters` wrote gives the outputs back, lists cut to two and the ARN through the sentinel |
| Network.WriteKeepsOtherKeys | src/main/java/dev/stratospheric/cdk/Network.java:356-437 | the writes touch no key outside the network's fourteen |
| Network.ReadSeesOnlyItsKeys | src/main/java/dev/stratospheric/cdk/Network.java:116-130 | the read depends only on the network's fourteen keys |
| Network.StoreRoundTrip | src/main/java/dev/stratospheric/cdk/Network.java:116-130 | `getOutputParametersFromParameterStore(env)` returns what the network of `env` wrote, for every environment name and every prior store |
| Network.StoreRoundTripExact | src/main/java/dev/stratospheric/cdk/Network.java:116-130 | outputs with exactly two of each list and a real HTTPS ARN come back unchanged |
| Network.OtherEnvironmentNotFound | src/main/java/dev/stratospheric/cdk/Network.java:132-135 | the network of one environment does not make another environment's network readable |
| Network.NetworkInputParameters.constructor | src/main/java/dev/stratospheric/cdk/Network.java:473-475 | no certificate by default |
| Network.NetworkInputParameters.OfNullable | src/main/java/dev/stratospheric/cdk/Network.java:469-471 | a `null` certificate ARN means no certificate |
| Network.NetworkInputParameters.WithSslCertificateArn | src/main/java/dev/stratospheric/cdk/Network.java:477-481 | sets the certificate and returns the same object; `null` throws and leaves the setting as it was |
| Network.Network.PrefixWithEnvironmentName | src/main/java/dev/stratospheric/cdk/Network.java:269-271 | the name is the environment name, a hyphen, then the string |
| Network.Network.Init | src/main/java/dev/stratospheric/cdk/Network.java:88-100 | the cluster is named `prefixWithEnvironmentName("ecsCluster")`, that is `env-ecsCluster`; no listener exists yet |
| Network.Network.GetOutputParameters | src/main/java/dev/stratospheric/cdk/Network.java:443-457 | the HTTPS listener ARN is present exactly when there is an HTTPS listener; the other outputs are the construct's resources |
| Network.Network.CreateLoadBalancer | src/main/java/dev/stratospheric/cdk/Network.java:277-350 | an HTTPS listener and the HTTP-to-HTTPS redirect (priority 1, path `*`) exist exactly when a certificate is given; the outputs are then written to the store, and that fails exactly when a list has fewer than two entries |
| Network.Network.CreateOutputParameters | src/main/java/dev/stratospheric/cdk/Network.java:356-438 | the store afterwards is the old store with the fourteen outputs written; a list with fewer than two entries throws `IndexOutOfBoundsException` |
| Network.CreateNetwork | src/main/java/dev/stratospheric/cdk/Network.java:81-105 | the construct succeeds exactly when the VPC has two of each list and has an HTTPS listener exactly when a certificate was given; on success the store is the old store with the fourteen outputs written, so another stack reads them back; on failure it throws `IndexOutOfBoundsException` and no key outside the network's fourteen changes |
| Postgres.ParameterOfNameInverse | src/main/java/dev/stratospheric/cdk/PostgresDatabase.java:43-47 | every database parameter is recovered from its constant name |
| Postgres.ParameterNameHasNoHyphen | src/main/java/dev/stratospheric/cdk/PostgresDatabase.java:43-47 | no database parameter name contains a hyphen |
| Postgres.EndpointNameIsNotNetworkName | src/main/java/dev/stratospheric/cdk/PostgresDatabase.java:43-44 | the endpoint names are not network parameter names |
| Postgres.ResourceNameIsNotNetworkName | src/main/java/dev/stratospheric/cdk/PostgresDatabase.java:45-47 | the database-name, security-group and secret names are not network parameter names |
| Postgres.ParameterNameIsNotNetworkName | src/main/java/dev/stratospheric/cdk/PostgresDatabase.java:43-47 | no database parameter name is a network parameter name |
| Postgres.KeyOwnerInverse | src/main/java/dev/stratospheric/cdk/PostgresDatabase.java:120-123 | the parameter is recovered from its `env-app-Database-name` key |
| Postgres.CreateParameterName | src/main/java/dev/stratospheric/cdk/PostgresDatabase.java:121-123 | the key starts with the raw environment name and ends with the parameter name; `KeyOwnerInverse` recovers the parameter |
| Postgres.KeyIsNotNetworkKey | src/main/java/dev/stratospheric/cdk/PostgresDatabase.java:120-123 | no database key is ever a network key, whatever the environments |
| Postgres.KeysCollideAcrossEnvironments | src/main/java/dev/stratospheric/cdk/PostgresDatabase.java:120-123 | two different application environments can share every database key |
| Postgres.KeepAlphanumeric | src/main/java/dev/stratospheric/cdk/PostgresDatabase.java:205 | the result holds only `[a-zA-Z0-9]`, and an input made only of those is left unchanged |
| Postgres.KeepAlphanumericAppend | src/main/java/dev/stratospheric/cdk/PostgresDatabase.java:205 | the filter distributes over concatenation |
| Postgres.KeepAlphanumericLength | src/main/java/dev/stratospheric/cdk/PostgresDatabase.java:205 | the result is exactly as long as the number of alphanumeric characters of the input |
| Postgres.SanitizeDbName | src/main/java/dev/stratospheric/cdk/PostgresDatabase.java:202-208 | `sanitizeDbName` yields a valid identifier (alphanumeric, starting with a letter unless empty) as long as the filtered input |
| Postgres.Username | src/main/java/dev/stratospheric/cdk/PostgresDatabase.java:68 | the master user name is a valid database identifier |
| Postgres.DbName | src/main/java/dev/stratospheric/cdk/PostgresDatabase.java:98 | the database name is a valid database identifier |
| Postgres.SanitizeDbNameSpec | src/main/java/dev/stratospheric/cdk/PostgresDatabase.java:202-208 | the result is empty or starts with a letter and is alphanumeric, has one character per alphanumeric input character, keeps the filtered input everywhere after position 0, and at position 0 has `a` for a leading digit and the leading letter otherwise |
| Postgres.SanitizeDbNameIdempotent | src/main/java/dev/stratospheric/cdk/PostgresDatabase.java:202-208 | a valid identifier is kept, so sanitizing twice is sanitizing once |
| Postgres.SanitizeDbNameKeepsTail | src/main/java/dev/stratospheric/cdk/PostgresDatabase.java:202-208 | a clean suffix that starts with a letter survives sanitizing as the suffix |
| Postgres.SanitizedPrefixEndsWith | src/main/java/dev/stratospheric/cdk/PostgresDatabase.java:202-208 | a sanitized prefixed name is a valid identifier ending with its clean suffix |
| Postgres.NamesAreIdentifiers | src/main/java/dev/stratospheric/cdk/PostgresDatabase.java:68-98 | the master user name and database name are valid identifiers ending in `dbUser` and `database` |
| Postgres.DatabaseInputParameters.constructor | src/main/java/dev/stratospheric/cdk/PostgresDatabase.java:224-226 | defaults: 20 GB, `db.t2.micro`, Postgres `11.5` |
| Postgres.DatabaseInputParameters.WithStorageInGb | src/main/java/dev/stratospheric/cdk/PostgresDatabase.java:233-236 | sets the storage only and returns the same object |
| Postgres.DatabaseInputParameters.WithInstanceClass | src/main/java/dev/stratospheric/cdk/PostgresDatabase.java:243-247 | sets the instance class only; `null` throws and changes nothing |
| Postgres.DatabaseInputParameters.WithPostgresVersion | src/main/java/dev/stratospheric/cdk/PostgresDatabase.java:254-258 | sets the version only; `null` throws and changes nothing |
| Postgres.ReadAfterWrite | src/main/java/dev/stratospheric/cdk/PostgresDatabase.java:173-200 | reading what was written gives exactly the outputs back |
| Postgres.WriteKeepsOtherKeys | src/main/java/dev/stratospheric/cdk/PostgresDatabase.java:173-200 | the writes touch no key outside the database's five |
| Postgres.GetOutputParametersFromParameterStore | src/main/java/dev/stratospheric/cdk/PostgresDatabase.java:134-168 | a read fails only by naming one of this environment's database keys that nobody wrote; `StoreRoundTrip` is its partner |
| Postgres.StoreRoundTrip | src/main/java/dev/stratospheric/cdk/PostgresDatabase.java:134-168 | `getOutputParametersFromParameterStore(e)` returns what the database of `e` wrote |
| Postgres.WriteKeepsNetwork | src/main/java/dev/stratospheric/cdk/PostgresDatabase.java:173-200 | writing the database outputs never changes what any environment's network read returns |
| Postgres.InstanceSettings | src/main/java/dev/stratospheric/cdk/PostgresDatabase.java:94-106 | the storage string is `String.valueOf` of the requested GB and parses back to it, the instance sits in the first zone on the isolated subnets, names are valid identifiers, engine `postgres`, not public, class and version as requested |
| Postgres.PostgresDatabase.Init | src/main/java/dev/stratospheric/cdk/PostgresDatabase.java:52-61 | the construct keeps its environment, settings and resource identifiers |
| Postgres.PostgresDatabase.GetOutputParameters | src/main/java/dev/stratospheric/cdk/PostgresDatabase.java:213-221 | corrected: the secret ARN field holds the secret's ARN and the security-group field the group's id |
| Postgres.PostgresDatabase.GetOutputParametersAsWritten | src/main/java/dev/stratospheric/cdk/PostgresDatabase.java:213-221 | as written: the two fields are swapped |
| Postgres.PostgresDatabase.CreateOutputParameters | src/main/java/dev/stratospheric/cdk/PostgresDatabase.java:173-200 | the store afterwards is the old store with the five outputs written |
| Postgres.InStackOutputsSwapped | src/main/java/dev/stratospheric/cdk/PostgresDatabase.java:213-221 | whenever the secret ARN and group id differ, another stack reads outputs different from what `getOutputParameters` returns in the same stack |
| Postgres.CreateDatabase | src/main/java/dev/stratospheric/cdk/PostgresDatabase.java:52-118 | the construct succeeds exactly when the network of its environment can be read (else the store is unchanged); on success the store is the old store with the five outputs written under this environment's keys, so they read back, and the network's outputs are unchanged |
| EcsService.NewUrlSource | src/main/java/dev/stratospheric/cdk/Service.java:261-266 | a `null` URL throws; otherwise the URL is kept, tag and repository are `null`, and it is not an ECR source |
| EcsService.NewRepositorySource | src/main/java/dev/stratospheric/cdk/Service.java:271-277 | a `null` repository name or tag throws; otherwise both are kept, the URL is `null`, and it is an ECR source |
| EcsService.ContainerImage | src/main/java/dev/stratospheric/cdk/Service.java:132-139 | the image the container runs; its contract is `ContainerImageOfSource` |
| EcsService.ContainerImageOfSource | src/main/java/dev/stratospheric/cdk/Service.java:132-139 | the container runs the given URL, or the registry's URI for the given repository and tag |
| EcsService.ToKeyValuePairs | src/main/java/dev/stratospheric/cdk/Service.java:245-251 | every map entry becomes exactly one name/value pair, and no other pair appears |
| EcsService.ListingDeterminesMap | src/main/java/dev/stratospheric/cdk/Service.java:245-251 | the pairs determine the map they list, so nothing is lost |
| EcsService.IngressIdInjective | src/main/java/dev/stratospheric/cdk/Service.java:225 | `securityGroupIngress<i>` ids of different counters differ |
| EcsService.AllowIngressFromEcs | src/main/java/dev/stratospheric/cdk/Service.java:222-232 | one ingress rule per security group, in order, numbered from 1, from the service's group on every protocol, with pairwise different ids |
| EcsService.ServiceInputParameters.constructor | src/main/java/dev/stratospheric/cdk/Service.java:300-332 | the given source, groups and variables, and every other field at its default |
| EcsService.ServiceInputParameters.WithoutIngress | src/main/java/dev/stratospheric/cdk/Service.java:341-347 | the same with no security groups |
| EcsService.ServiceInputParameters.WithHealthCheckIntervalSeconds | src/main/java/dev/stratospheric/cdk/Service.java:354-357 | changes only its own field and returns the same object |
| EcsService.ServiceInputParameters.WithHealthCheckPath | src/main/java/dev/stratospheric/cdk/Service.java:364-368 | changes only the path; `null` throws and changes nothing |
| EcsService.ServiceInputParameters.WithContainerPort | src/main/java/dev/stratospheric/cdk/Service.java:375-379 | changes only the port (the `null` check of the boxed `int` never fires) |
| EcsService.ServiceInputParameters.WithContainerProtocol | src/main/java/dev/stratospheric/cdk/Service.java:384-388 | changes only the protocol; `null` throws and changes nothing |
| EcsService.ServiceInputParameters.WithHealthCheckTimeoutSeconds | src/main/java/dev/stratospheric/cdk/Service.java:395-398 | changes only its own field |
| EcsService.ServiceInputParameters.WithHealthyThresholdCount | src/main/java/dev/stratospheric/cdk/Service.java:405-408 | changes only its own field |
| EcsService.ServiceInputParameters.WithUnhealthyThresholdCount | src/main/java/dev/stratospheric/cdk/Service.java:415-418 | changes only its own field |
| EcsService.ServiceInputParameters.WithCpu | src/main/java/dev/stratospheric/cdk/Service.java:427-430 | changes only its own field |
| EcsService.ServiceInputParameters.WithMemory | src/main/java/dev/stratospheric/cdk/Service.java:439-442 | changes only its own field |
| EcsService.ServiceInputParameters.WithLogRetention | src/main/java/dev/stratospheric/cdk/Service.java:449-453 | changes only the retention; `null` throws and changes nothing |
| EcsService.ServiceInputParameters.WithDesiredInstances | src/main/java/dev/stratospheric/cdk/Service.java:460-463 | changes only the desired count |
| EcsService.ServiceInputParameters.WithMaximumInstancesPercent | src/main/java/dev/stratospheric/cdk/Service.java:471-474 | changes only its own field |
| EcsService.ServiceInputParameters.WithMinimumHealthyInstancesPercent | src/main/java/dev/stratospheric/cdk/Service.java:482-485 | changes only its own field |
| EcsService.ServiceInputParameters.WithTaskRolePolicyStatements | src/main/java/dev/stratospheric/cdk/Service.java:493-496 | changes only its own field |
| EcsService.ServiceInputParameters.WithStickySessionsEnabled | src/main/java/dev/stratospheric/cdk/Service.java:503-506 | changes only its own field |
| EcsService.ServiceInputParameters.WithAwsLogsDateTimeFormat | src/main/java/dev/stratospheric/cdk/Service.java:516-519 | changes only its own field |
| EcsService.StickySessionAttributes | src/main/java/dev/stratospheric/cdk/Service.java:38-52 | cookie stickiness attributes are present exactly when sticky sessions are enabled |
| EcsService.TaskRolePolicy | src/main/java/dev/stratospheric/cdk/Service.java:118-128 | the task role gets an inline policy named `prefix("ecsTaskRolePolicy")` with the statements exactly when there are statements |
| EcsService.HttpsListenerRuleAsWritten | src/main/java/dev/stratospheric/cdk/Service.java:69-76 | as written: the HTTPS rule (priority 1, path `*`) on the network's HTTPS listener, and `NoSuchElementException` when the network has none |
| EcsService.HttpsListenerRule | src/main/java/dev/stratospheric/cdk/Service.java:78-83 | corrected: the same rule, present exactly when the network has an HTTPS listener |
| EcsService.HttpsListenerRuleDiscrepancy | src/main/java/dev/stratospheric/cdk/Service.java:69-83 | the two agree whenever there is an HTTPS listener; without one, the code throws where the rule should be left out |
| EcsService.CreateService | src/main/java/dev/stratospheric/cdk/Service.java:29-220 | fails exactly when the network has no HTTPS listener (the `NullPointerException` of a missing region is listed under Left out); otherwise HTTPS rule priority 1 and HTTP rule priority 2, stickiness iff enabled, the target group has the configured health-check path, protocol and port, targets by IP in the network's VPC, and its health-check port is `String.valueOf` of the container port, the image follows the source, every environment variable passed once, one ingress per group, numbered from 1, from the service's security group on every protocol (`-1`), log group and container names prefixed, cluster and public subnets of the network, CPU and memory are `String.valueOf` of the settings and parse back |
| DockerRepository.NewInputParameters | src/main/java/dev/stratospheric/cdk/DockerRepository.java:57-62 | no `null` checks; at most 10 images; the registry is retained |
| DockerRepository.NewInputParametersWithRetention | src/main/java/dev/stratospheric/cdk/DockerRepository.java:84-91 | a `null` account id throws first, then a `null` repository name, each with its message; otherwise all four arguments are stored |
| DockerRepository.NewInputParametersWithImageCount | src/main/java/dev/stratospheric/cdk/DockerRepository.java:69-76 | a `null` account id throws first, then a `null` repository name, each with its message; otherwise the three arguments are kept and the registry is retained |
| DockerRepository.ImageCountConstructorRetains | src/main/java/dev/stratospheric/cdk/DockerRepository.java:69-76 | the three-argument constructor is the four-argument one with retention on, including its `null` checks |
| DockerRepository.ConstructorsAgreeOnDefaults | src/main/java/dev/stratospheric/cdk/DockerRepository.java:57-76 | on non-`null` arguments, the three-argument constructor with 10 images equals the two-argument one |
| DockerRepository.RemovalPolicyOf | src/main/java/dev/stratospheric/cdk/DockerRepository.java:31 | `RETAIN` exactly when retention is asked for, `DESTROY` otherwise |
| DockerRepository.DescriptionStatesImageCount | src/main/java/dev/stratospheric/cdk/DockerRepository.java:34 | the description `limit to <n> images` reads back as exactly `n` |
| DockerRepository.LifecycleRuleOf | src/main/java/dev/stratospheric/cdk/DockerRepository.java:32-36 | priority 1, the image count passed through, and a description that states that count |
| DockerRepository.CreateDockerRepository | src/main/java/dev/stratospheric/cdk/DockerRepository.java:29-40 | the repository is named as asked, has one lifecycle rule as above, the removal policy follows retention, and the account gets push and pull |

## Left out

- CDK resource construction (VPC, cluster, load balancer, listeners, target groups, task definitions, security groups, roles, log groups, secrets, DB instances, subnet groups): library calls whose identifiers are parameters of the model.
- `Tags` and `ApplicationEnvironment.tag`: they only attach labels and decide nothing.
- `Network.getOutputParameters` in the model reads identifiers from `CloudIds` instead of from CDK objects.
- The CloudFormation condition on the HTTPS listener rule (`Service.java:79-83`): it is evaluated at deployment. When the service is given a network's in-stack outputs without an HTTPS listener, the code throws before the condition exists.
- Deploy-time tokens: a value read from the parameter store is modelled as the string it resolves to at deployment. At synthesis, `getStringValue` yields an unresolved token instead. So the `"null"` test of `Network.DecodeHttpsListenerArn` never matches at synthesis, and a network read from the store always carries a present HTTPS listener ARN. On that path the source does not throw at `Service.java:74` but reaches the condition at `Service.java:79-83`. `EcsService.CreateService` failing for a network read from the store describes the resolved value, not synthesis.
- EcsService.CreateService: does not model the `NullPointerException` that the `Map.of` at `Service.java:148-152` throws when the `awsEnvironment` argument is `null` or its region is `null` (an `Environment` built without a region). The model has no environment or region argument, and names only the missing HTTPS listener as a failure.
- The task execution role's fixed policy, the log configuration map and the CDK dependency between service and listener rule: constant wiring with no branch.
- The `Map.of` at `Service.java:148-152` throws on a `null` date-time format. The model types that field as a non-`null` string.
- EcsService.ServiceInputParameters.WithAwsLogsDateTimeFormat: does not accept `null`, because the field is typed as a string; a `null` set here would surface as that `Map.of` exception.
- EcsService.ServiceInputParameters.WithTaskRolePolicyStatements: does not accept a `null` list, which would make the `isEmpty` check at `Service.java:122` throw.
- Network.Network.CreateOutputParameters: on failure states only that keys outside the network's fourteen are unchanged, not which of the fourteen were already written, because CDK discards a failed synthesis anyway.
- Network.Network.CreateLoadBalancer: on failure states the same weaker frame as `CreateOutputParameters`, for the same reason.
- EcsService.ServiceInputParameters.constructor: takes the image source, the security-group list and the variable map as non-`null` values. Java stores all three unchecked, so a `null` one throws `NullPointerException` only later, inside `new Service(...)`: at `Service.java:133` for the source, in `toKeyValuePairs` (`Service.java:157`) for the map, and in `allowIngressFromEcs` for the list. The model does not represent these late exceptions.
- EcsService.ServiceInputParameters.WithoutIngress: takes the image source and the variable map as non-`null` values, for the same reason as the three-argument constructor, and does not model the later `NullPointerException` a `null` one causes.
- A `null` application or environment name is not modelled: Java string concatenation would turn it into the text `null`, which `sanitize` keeps. The model's names are strings.
- AppEnvironment.PrefixBounded: counts lengths in characters (Unicode scalar values) where Java's `length()` and `substring` count UTF-16 code units. The two agree when the name has no character outside the Basic Multilingual Plane. Otherwise Java's limit test and 21-unit cut differ from the model's, and Java's cut can split a surrogate pair.
- AppEnvironment.PrefixBoundedAsDocumented: counts lengths in characters, as `PrefixBounded` does, and agrees with Java only when the name has no character outside the Basic Multilingual Plane.
- EcsService.ToKeyValuePairs: does not fix the order of the pairs, because `HashMap` iteration order is unspecified.
- Java `int` width: counters, ports, sizes and image counts are unbounded integers. The ingress counter would wrap only after 2^31 security groups.
- `JumpHost`, `SpringBootApplication` and `SpringBootApplicationStack` are not part of this model; they are a bastion host and a demo application built on the modelled constructs.
- The `"null"` check at `Network.java:150` is followed by `Optional.ofNullable`, whose empty case cannot arise for a value read from the store. The model reads a string, never `null`.

## Findings

| source | as written | input that shows it | evidently intended | confidence | as-written member | corrected member |
|---|---|---|---|---|---|---|
| src/main/java/dev/stratospheric/cdk/ApplicationEnvironment.java:67 | `prefix(s, limit)` keeps the last 21 characters whatever the limit, and throws when the name is longer than the limit but shorter than 21 | environment `my-long-env-name`, application `my-long-application-name`, `prefix("my-long-prefix", 20)` gives `n-name-my-long-prefix`, which has 21 characters, where the test expects `-name-my-long-prefix` | keep the last `limit` characters, as the documentation at lines 58-61 and the test say | high; not executed | AppEnvironment.LongPrefixCounterexample | AppEnvironment.PrefixBoundedAsDocumented |
| src/main/java/dev/stratospheric/cdk/PostgresDatabase.java:213-221 | `getOutputParameters` passes the security-group id as the secret ARN and the secret ARN as the security-group id (the constructor's order is address, port, name, secret, group) | any database whose secret ARN and security-group id differ: the in-stack outputs disagree with the ones another stack reads from the store | the same order as `getOutputParametersFromParameterStore` at lines 134-141 | high; not executed | Postgres.InStackOutputsSwapped | Postgres.PostgresDatabase.GetOutputParameters |
| src/main/java/dev/stratospheric/cdk/Service.java:74 | `httpsListenerArn.get()` throws `NoSuchElementException` when the network has no HTTPS listener | the in-stack outputs of a network built without a certificate, handed to `new Service(...)`, as `SpringBootApplicationStack.java:31-37` does | leave the HTTPS rule out when there is no HTTPS listener, as the comment and condition at lines 78-83 intend | medium; not executed | EcsService.HttpsListenerRuleAsWritten | EcsService.HttpsListenerRule |
