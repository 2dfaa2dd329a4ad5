/**
 * An ECS service on top of an environment's network: a target group behind
 * the network's load balancer, listener rules that forward to it, a task
 * definition running one container, and security-group ingress rules.
 */
module EcsService {
  import opened Lang
  import opened AppEnvironment
  import Network

  // ---------------------------------------------------------------------
  // Docker image source

  /**
   * Where the container image comes from: a plain image URL, or a
   * repository of the container registry and an image tag. The two Java
   * constructors are the only way to build one, so exactly one of the two
   * forms is filled in.
   */
  datatype DockerImageSource =
    | FromUrl(url: string)
    | FromRepository(repositoryName: string, imageTag: string)

  /** `new DockerImageSource(dockerImageUrl)`: `null` is rejected. */
  function NewUrlSource(dockerImageUrl: Nullable<string>): (r: Result<DockerImageSource>)
    ensures r.Success? <==> dockerImageUrl.NonNull?
    ensures r.Failure? ==> r.error == NullPointerException(None)
    ensures r.Success? ==> GetDockerImageUrl(r.value) == dockerImageUrl
    ensures r.Success? ==> GetDockerImageTag(r.value).Null? && GetDockerRepositoryName(r.value).Null?
    ensures r.Success? ==> !IsEcrSource(r.value)
  {
    var url :- RequireNonNull(dockerImageUrl, None);
    Success(FromUrl(url))
  }

  /** `new DockerImageSource(dockerRepositoryName, dockerImageTag)`: both are checked for `null`, the name first. */
  function NewRepositorySource(dockerRepositoryName: Nullable<string>, dockerImageTag: Nullable<string>): (r: Result<DockerImageSource>)
    ensures r.Success? <==> dockerRepositoryName.NonNull? && dockerImageTag.NonNull?
    ensures r.Failure? ==> r.error == NullPointerException(None)
    ensures r.Success? ==> GetDockerRepositoryName(r.value) == dockerRepositoryName
    ensures r.Success? ==> GetDockerImageTag(r.value) == dockerImageTag
    ensures r.Success? ==> GetDockerImageUrl(r.value).Null?
    ensures r.Success? ==> IsEcrSource(r.value)
  {
    var name :- RequireNonNull(dockerRepositoryName, None);
    var tag :- RequireNonNull(dockerImageTag, None);
    Success(FromRepository(name, tag))
  }

  function GetDockerRepositoryName(s: DockerImageSource): Nullable<string>
  {
    if s.FromRepository? then NonNull(s.repositoryName) else Null
  }

  function GetDockerImageTag(s: DockerImageSource): Nullable<string>
  {
    if s.FromRepository? then NonNull(s.imageTag) else Null
  }

  function GetDockerImageUrl(s: DockerImageSource): Nullable<string>
  {
    if s.FromUrl? then NonNull(s.url) else Null
  }

  /** `isEcrSource`: the repository name is not `null`. */
  predicate IsEcrSource(s: DockerImageSource)
  {
    GetDockerRepositoryName(s).NonNull?
  }

  /**
   * The image of the container: the registry's URI for the tag when the
   * source is a repository, otherwise the image URL. The registry computes
   * the URI; `repositoryUriForTag` stands for it.
   */
  function ContainerImage(s: DockerImageSource, repositoryUriForTag: (string, string) -> string): (image: string)
  {
    if IsEcrSource(s) then repositoryUriForTag(GetDockerRepositoryName(s).value, GetDockerImageTag(s).value)
    else GetDockerImageUrl(s).value
  }

  /** A source built from a URL runs that URL; one built from a repository runs the registry's image for the tag. */
  lemma ContainerImageOfSource(url: string, name: string, tag: string, repositoryUriForTag: (string, string) -> string)
    ensures ContainerImage(NewUrlSource(NonNull(url)).value, repositoryUriForTag) == url
    ensures ContainerImage(NewRepositorySource(NonNull(name), NonNull(tag)).value, repositoryUriForTag)
            == repositoryUriForTag(name, tag)
  {
  }

  // ---------------------------------------------------------------------
  // Environment variables and ingress rules

  datatype KeyValuePair = KeyValuePair(name: string, value: string)

  /** `pairs` lists every entry of `m` exactly once, and nothing else. */
  predicate IsListingOf(pairs: seq<KeyValuePair>, m: map<string, string>)
  {
    && |pairs| == |m|
    && (forall i :: 0 <= i < |pairs| ==> pairs[i].name in m && m[pairs[i].name] == pairs[i].value)
    && (forall i, j :: 0 <= i < j < |pairs| ==> pairs[i].name != pairs[j].name)
    && (forall k :: k in m ==> exists i :: 0 <= i < |pairs| && pairs[i].name == k)
  }

  /**
   * `toKeyValuePairs`: one pair per entry of the map, in the order in which
   * the map hands out its entries, which the model leaves open.
   */
  method ToKeyValuePairs(m: map<string, string>) returns (pairs: seq<KeyValuePair>)
    ensures IsListingOf(pairs, m)
  {
    pairs := [];
    var remaining := m.Keys;
    while remaining != {}
      invariant remaining <= m.Keys
      invariant |pairs| + |remaining| == |m|
      invariant forall i :: 0 <= i < |pairs| ==> pairs[i].name in m && m[pairs[i].name] == pairs[i].value
      invariant forall i :: 0 <= i < |pairs| ==> pairs[i].name !in remaining
      invariant forall i, j :: 0 <= i < j < |pairs| ==> pairs[i].name != pairs[j].name
      invariant forall k :: k in m && k !in remaining ==> exists i :: 0 <= i < |pairs| && pairs[i].name == k
      decreases |remaining|
    {
      var k :| k in remaining;
      ghost var listed := pairs;
      pairs := pairs + [KeyValuePair(k, m[k])];
      remaining := remaining - {k};
      forall k' | k' in m && k' !in remaining
        ensures exists i :: 0 <= i < |pairs| && pairs[i].name == k'
      {
        if k' == k {
          assert pairs[|pairs| - 1].name == k';
        } else {
          var i :| 0 <= i < |listed| && listed[i].name == k';
          assert pairs[i] == listed[i];
        }
      }
    }
  }

  /** A listing of a map determines the map: reading the pairs back gives every entry. */
  lemma ListingDeterminesMap(pairs: seq<KeyValuePair>, m1: map<string, string>, m2: map<string, string>)
    requires IsListingOf(pairs, m1) && IsListingOf(pairs, m2)
    ensures m1 == m2
  {
    forall k | k in m1
      ensures k in m2 && m1[k] == m2[k]
    {
      var i :| 0 <= i < |pairs| && pairs[i].name == k;
    }
    forall k | k in m2
      ensures k in m1
    {
      var i :| 0 <= i < |pairs| && pairs[i].name == k;
    }
  }

  /** The construct id of the `n`-th ingress rule, counting from 1. */
  function IngressId(n: int): (id: string)
  {
    "securityGroupIngress" + IntToString(n)
  }

  /** Different numbers give different construct ids. */
  lemma IngressIdInjective(a: int, b: int)
    ensures IngressId(a) == IngressId(b) ==> a == b
  {
    if IngressId(a) == IngressId(b) {
      var prefix := "securityGroupIngress";
      assert IngressId(a)[|prefix|..] == IntToString(a);
      assert IngressId(b)[|prefix|..] == IntToString(b);
      IntToStringInjective(a, b);
    }
  }

  /** An ingress rule: traffic from the service's security group into `groupId`, on every protocol. */
  datatype Ingress = Ingress(constructId: string, sourceSecurityGroupId: string, groupId: string, ipProtocol: string)

  /**
   * `allowIngressFromEcs`: one ingress rule per security group, in list
   * order, numbered from 1 by a counter.
   */
  method AllowIngressFromEcs(securityGroupIds: seq<string>, ecsSecurityGroupId: string) returns (ingresses: seq<Ingress>)
    ensures |ingresses| == |securityGroupIds|
    ensures forall j :: 0 <= j < |ingresses| ==>
              ingresses[j] == Ingress(IngressId(j + 1), ecsSecurityGroupId, securityGroupIds[j], "-1")
    ensures forall a, b :: 0 <= a < b < |ingresses| ==> ingresses[a].constructId != ingresses[b].constructId
  {
    ingresses := [];
    var i := 1;
    var n := 0;
    while n < |securityGroupIds|
      invariant 0 <= n <= |securityGroupIds| && i == n + 1
      invariant |ingresses| == n
      invariant forall j :: 0 <= j < n ==> ingresses[j] == Ingress(IngressId(j + 1), ecsSecurityGroupId, securityGroupIds[j], "-1")
    {
      ingresses := ingresses + [Ingress(IngressId(i), ecsSecurityGroupId, securityGroupIds[n], "-1")];
      i := i + 1;
      n := n + 1;
    }
    forall a, b | 0 <= a < b < |ingresses|
      ensures ingresses[a].constructId != ingresses[b].constructId
    {
      IngressIdInjective(a + 1, b + 1);
    }
  }

  // ---------------------------------------------------------------------
  // Input parameters

  /** A log retention period of the logging service; an opaque token. */
  datatype RetentionDays = RetentionDays(name: string)

  /** An IAM policy statement; an opaque token. */
  datatype PolicyStatement = PolicyStatement(json: string)

  /** All knobs of a service, as the service construct reads them. */
  datatype ServiceSettings = ServiceSettings(
    dockerImageSource: DockerImageSource,
    environmentVariables: map<string, string>,
    securityGroupIdsToGrantIngressFromEcs: seq<string>,
    taskRolePolicyStatements: seq<PolicyStatement>,
    healthCheckIntervalSeconds: int,
    healthCheckPath: string,
    containerPort: int,
    containerProtocol: string,
    healthCheckTimeoutSeconds: int,
    healthyThresholdCount: int,
    unhealthyThresholdCount: int,
    logRetention: RetentionDays,
    cpu: int,
    memory: int,
    desiredInstancesCount: int,
    maximumInstancesPercent: int,
    minimumHealthyInstancesPercent: int,
    stickySessionsEnabled: bool,
    awslogsDateTimeFormat: string)

  /**
   * The field initializers: a health check of `/` every 15 seconds, port
   * 8080 over HTTP, 256 CPU units and 512 MB for each of 2 instances, logs
   * kept one week, no sticky sessions and no task role statements.
   */
  function DefaultSettings(dockerImageSource: DockerImageSource, securityGroupIds: seq<string>,
                           environmentVariables: map<string, string>): (s: ServiceSettings)
  {
    ServiceSettings(
      dockerImageSource, environmentVariables, securityGroupIds, [],
      15, "/", 8080, "HTTP", 5, 2, 8, RetentionDays("ONE_WEEK"),
      256, 512, 2, 200, 50, false, "%Y-%m-%dT%H:%M:%S.%f%z")
  }

  class ServiceInputParameters {
    const dockerImageSource: DockerImageSource
    const environmentVariables: map<string, string>
    const securityGroupIdsToGrantIngressFromEcs: seq<string>
    var taskRolePolicyStatements: seq<PolicyStatement>
    var healthCheckIntervalSeconds: int
    var healthCheckPath: string
    var containerPort: int
    var containerProtocol: string
    var healthCheckTimeoutSeconds: int
    var healthyThresholdCount: int
    var unhealthyThresholdCount: int
    var logRetention: RetentionDays
    var cpu: int
    var memory: int
    var desiredInstancesCount: int
    var maximumInstancesPercent: int
    var minimumHealthyInstancesPercent: int
    var stickySessionsEnabled: bool
    var awslogsDateTimeFormat: string

    /** The current value of every knob. */
    function Settings(): (s: ServiceSettings)
      reads this
    {
      ServiceSettings(
        dockerImageSource, environmentVariables, securityGroupIdsToGrantIngressFromEcs, taskRolePolicyStatements,
        healthCheckIntervalSeconds, healthCheckPath, containerPort, containerProtocol,
        healthCheckTimeoutSeconds, healthyThresholdCount, unhealthyThresholdCount, logRetention,
        cpu, memory, desiredInstancesCount, maximumInstancesPercent, minimumHealthyInstancesPercent,
        stickySessionsEnabled, awslogsDateTimeFormat)
    }

    /** The three-argument constructor: the given source, groups and variables, defaults elsewhere. */
    constructor (dockerImageSource: DockerImageSource, securityGroupIdsToGrantIngressFromEcs: seq<string>,
                 environmentVariables: map<string, string>)
      ensures Settings() == DefaultSettings(dockerImageSource, securityGroupIdsToGrantIngressFromEcs, environmentVariables)
    {
      this.dockerImageSource := dockerImageSource;
      this.environmentVariables := environmentVariables;
      this.securityGroupIdsToGrantIngressFromEcs := securityGroupIdsToGrantIngressFromEcs;
      taskRolePolicyStatements := [];
      healthCheckIntervalSeconds := 15;
      healthCheckPath := "/";
      containerPort := 8080;
      containerProtocol := "HTTP";
      healthCheckTimeoutSeconds := 5;
      healthyThresholdCount := 2;
      unhealthyThresholdCount := 8;
      logRetention := RetentionDays("ONE_WEEK");
      cpu := 256;
      memory := 512;
      desiredInstancesCount := 2;
      maximumInstancesPercent := 200;
      minimumHealthyInstancesPercent := 50;
      stickySessionsEnabled := false;
      awslogsDateTimeFormat := "%Y-%m-%dT%H:%M:%S.%f%z";
    }

    /** The two-argument constructor: no security groups to grant ingress to. */
    constructor WithoutIngress(dockerImageSource: DockerImageSource, environmentVariables: map<string, string>)
      ensures Settings() == DefaultSettings(dockerImageSource, [], environmentVariables)
    {
      this.dockerImageSource := dockerImageSource;
      this.environmentVariables := environmentVariables;
      this.securityGroupIdsToGrantIngressFromEcs := [];
      taskRolePolicyStatements := [];
      healthCheckIntervalSeconds := 15;
      healthCheckPath := "/";
      containerPort := 8080;
      containerProtocol := "HTTP";
      healthCheckTimeoutSeconds := 5;
      healthyThresholdCount := 2;
      unhealthyThresholdCount := 8;
      logRetention := RetentionDays("ONE_WEEK");
      cpu := 256;
      memory := 512;
      desiredInstancesCount := 2;
      maximumInstancesPercent := 200;
      minimumHealthyInstancesPercent := 50;
      stickySessionsEnabled := false;
      awslogsDateTimeFormat := "%Y-%m-%dT%H:%M:%S.%f%z";
    }

    method WithHealthCheckIntervalSeconds(healthCheckIntervalSeconds: int) returns (r: ServiceInputParameters)
      modifies this
      ensures r == this && Settings() == old(Settings()).(healthCheckIntervalSeconds := healthCheckIntervalSeconds)
    {
      this.healthCheckIntervalSeconds := healthCheckIntervalSeconds;
      return this;
    }

    /** `null` is rejected and leaves the object as it was. */
    method WithHealthCheckPath(healthCheckPath: Nullable<string>) returns (r: Result<ServiceInputParameters>)
      modifies this
      ensures r.Success? <==> healthCheckPath.NonNull?
      ensures r.Success? ==> r.value == this && Settings() == old(Settings()).(healthCheckPath := healthCheckPath.value)
      ensures r.Failure? ==> r.error == NullPointerException(None) && Settings() == old(Settings())
    {
      var path :- RequireNonNull(healthCheckPath, None);
      this.healthCheckPath := path;
      return Success(this);
    }

    /** The `null` check on the boxed `int` can never fail. */
    method WithContainerPort(containerPort: int) returns (r: ServiceInputParameters)
      modifies this
      ensures r == this && Settings() == old(Settings()).(containerPort := containerPort)
    {
      this.containerPort := containerPort;
      return this;
    }

    /** `null` is rejected and leaves the object as it was. */
    method WithContainerProtocol(containerProtocol: Nullable<string>) returns (r: Result<ServiceInputParameters>)
      modifies this
      ensures r.Success? <==> containerProtocol.NonNull?
      ensures r.Success? ==> r.value == this && Settings() == old(Settings()).(containerProtocol := containerProtocol.value)
      ensures r.Failure? ==> r.error == NullPointerException(None) && Settings() == old(Settings())
    {
      var protocol :- RequireNonNull(containerProtocol, None);
      this.containerProtocol := protocol;
      return Success(this);
    }

    method WithHealthCheckTimeoutSeconds(healthCheckTimeoutSeconds: int) returns (r: ServiceInputParameters)
      modifies this
      ensures r == this && Settings() == old(Settings()).(healthCheckTimeoutSeconds := healthCheckTimeoutSeconds)
    {
      this.healthCheckTimeoutSeconds := healthCheckTimeoutSeconds;
      return this;
    }

    method WithHealthyThresholdCount(healthyThresholdCount: int) returns (r: ServiceInputParameters)
      modifies this
      ensures r == this && Settings() == old(Settings()).(healthyThresholdCount := healthyThresholdCount)
    {
      this.healthyThresholdCount := healthyThresholdCount;
      return this;
    }

    method WithUnhealthyThresholdCount(unhealthyThresholdCount: int) returns (r: ServiceInputParameters)
      modifies this
      ensures r == this && Settings() == old(Settings()).(unhealthyThresholdCount := unhealthyThresholdCount)
    {
      this.unhealthyThresholdCount := unhealthyThresholdCount;
      return this;
    }

    method WithCpu(cpu: int) returns (r: ServiceInputParameters)
      modifies this
      ensures r == this && Settings() == old(Settings()).(cpu := cpu)
    {
      this.cpu := cpu;
      return this;
    }

    method WithMemory(memory: int) returns (r: ServiceInputParameters)
      modifies this
      ensures r == this && Settings() == old(Settings()).(memory := memory)
    {
      this.memory := memory;
      return this;
    }

    /** `null` is rejected and leaves the object as it was. */
    method WithLogRetention(logRetention: Nullable<RetentionDays>) returns (r: Result<ServiceInputParameters>)
      modifies this
      ensures r.Success? <==> logRetention.NonNull?
      ensures r.Success? ==> r.value == this && Settings() == old(Settings()).(logRetention := logRetention.value)
      ensures r.Failure? ==> r.error == NullPointerException(None) && Settings() == old(Settings())
    {
      var retention :- RequireNonNull(logRetention, None);
      this.logRetention := retention;
      return Success(this);
    }

    method WithDesiredInstances(desiredInstances: int) returns (r: ServiceInputParameters)
      modifies this
      ensures r == this && Settings() == old(Settings()).(desiredInstancesCount := desiredInstances)
    {
      this.desiredInstancesCount := desiredInstances;
      return this;
    }

    method WithMaximumInstancesPercent(maximumInstancesPercent: int) returns (r: ServiceInputParameters)
      modifies this
      ensures r == this && Settings() == old(Settings()).(maximumInstancesPercent := maximumInstancesPercent)
    {
      this.maximumInstancesPercent := maximumInstancesPercent;
      return this;
    }

    method WithMinimumHealthyInstancesPercent(minimumHealthyInstancesPercent: int) returns (r: ServiceInputParameters)
      modifies this
      ensures r == this && Settings() == old(Settings()).(minimumHealthyInstancesPercent := minimumHealthyInstancesPercent)
    {
      this.minimumHealthyInstancesPercent := minimumHealthyInstancesPercent;
      return this;
    }

    method WithTaskRolePolicyStatements(taskRolePolicyStatements: seq<PolicyStatement>) returns (r: ServiceInputParameters)
      modifies this
      ensures r == this && Settings() == old(Settings()).(taskRolePolicyStatements := taskRolePolicyStatements)
    {
      this.taskRolePolicyStatements := taskRolePolicyStatements;
      return this;
    }

    method WithStickySessionsEnabled(stickySessionsEnabled: bool) returns (r: ServiceInputParameters)
      modifies this
      ensures r == this && Settings() == old(Settings()).(stickySessionsEnabled := stickySessionsEnabled)
    {
      this.stickySessionsEnabled := stickySessionsEnabled;
      return this;
    }

    method WithAwsLogsDateTimeFormat(awsLogsDateTimeFormat: string) returns (r: ServiceInputParameters)
      modifies this
      ensures r == this && Settings() == old(Settings()).(awslogsDateTimeFormat := awsLogsDateTimeFormat)
    {
      this.awslogsDateTimeFormat := awsLogsDateTimeFormat;
      return this;
    }
  }

  // ---------------------------------------------------------------------
  // The construct

  datatype TargetGroupAttribute = TargetGroupAttribute(key: string, value: string)

  /** The load-balancer cookie attributes, one hour long, or none at all. */
  function StickySessionAttributes(enabled: bool): (attributes: seq<TargetGroupAttribute>)
    ensures |attributes| > 0 <==> enabled
    ensures TargetGroupAttribute("stickiness.enabled", "true") in attributes <==> enabled
  {
    if enabled then
      [ TargetGroupAttribute("stickiness.enabled", "true"),
        TargetGroupAttribute("stickiness.type", "lb_cookie"),
        TargetGroupAttribute("stickiness.lb_cookie.duration_seconds", "3600") ]
    else []
  }

  /** The target group the load balancer forwards to: the containers' port, by IP. */
  datatype TargetGroup = TargetGroup(
    healthCheckPath: string,
    healthCheckPort: string,
    protocol: string,
    port: int,
    attributes: seq<TargetGroupAttribute>,
    targetType: string,
    vpcId: string)

  /** A rule on a listener that forwards every path to the target group. */
  datatype ListenerRule = ListenerRule(listenerArn: string, priority: int, pathPattern: string, targetGroupArn: string)

  /**
   * The rule on the HTTPS listener as written: `httpsListenerArn.get()`
   * throws when the network has no HTTPS listener.
   */
  function HttpsListenerRuleAsWritten(network: Network.NetworkOutputParameters, targetGroupArn: string): (r: Result<ListenerRule>)
    ensures r.Success? <==> network.httpsListenerArn.Some?
    ensures r.Failure? ==> r.error == NoSuchElementException
    ensures r.Success? ==> r.value == ListenerRule(network.httpsListenerArn.value, 1, "*", targetGroupArn)
  {
    var arn :- OptionalGet(network.httpsListenerArn);
    Success(ListenerRule(arn, 1, "*", targetGroupArn))
  }

  /**
   * The rule on the HTTPS listener as the deployment condition beside it
   * intends: present exactly when the network has an HTTPS listener.
   */
  function HttpsListenerRule(network: Network.NetworkOutputParameters, targetGroupArn: string): (r: Option<ListenerRule>)
    ensures r.Some? <==> network.httpsListenerArn.Some?
    ensures r.Some? ==> r.value == ListenerRule(network.httpsListenerArn.value, 1, "*", targetGroupArn)
  {
    if network.httpsListenerArn.Some? then Some(ListenerRule(network.httpsListenerArn.value, 1, "*", targetGroupArn)) else None
  }

  /**
   * The two agree on every network with an HTTPS listener; on a network
   * without one, such as the in-stack outputs of a network built without a
   * certificate, the code as written throws where the intended rule is
   * simply left out.
   */
  lemma HttpsListenerRuleDiscrepancy(network: Network.NetworkOutputParameters, targetGroupArn: string)
    ensures network.httpsListenerArn.Some? ==>
              HttpsListenerRuleAsWritten(network, targetGroupArn) == Success(HttpsListenerRule(network, targetGroupArn).value)
    ensures network.httpsListenerArn.None? ==>
              HttpsListenerRuleAsWritten(network, targetGroupArn) == Failure(NoSuchElementException)
              && HttpsListenerRule(network, targetGroupArn) == None
  {
  }

  /** Identifiers that the provisioning framework assigns; the construct only passes them on. */
  datatype ServiceCloudIds = ServiceCloudIds(targetGroupArn: string, ecsSecurityGroupId: string)

  /** An inline policy of a role, under its name. */
  datatype InlinePolicy = InlinePolicy(name: string, statements: seq<PolicyStatement>)

  /** The task role carries the given statements as an inline policy, or no inline policy when there are none. */
  function TaskRolePolicy(e: ApplicationEnvironment, statements: seq<PolicyStatement>): (policy: Option<InlinePolicy>)
    ensures policy.Some? <==> |statements| > 0
    ensures policy.Some? ==> policy.value.statements == statements && policy.value.name == Prefix(e, "ecsTaskRolePolicy")
  {
    if |statements| > 0 then Some(InlinePolicy(Prefix(e, "ecsTaskRolePolicy"), statements)) else None
  }

  /** What the construct asks the provisioning framework to create. */
  datatype ServiceResources = ServiceResources(
    targetGroup: TargetGroup,
    httpsListenerRule: ListenerRule,
    httpListenerRule: ListenerRule,
    logGroupName: string,
    taskRolePolicy: Option<InlinePolicy>,
    containerName: string,
    image: string,
    environment: seq<KeyValuePair>,
    taskCpu: string,
    taskMemory: string,
    ingresses: seq<Ingress>,
    cluster: string,
    subnets: seq<string>)

  /**
   * `new Service(...)`: fails with `NoSuchElementException` on a network
   * without an HTTPS listener; otherwise the HTTPS rule has priority 1, the
   * HTTP rule priority 2, sticky sessions are configured exactly when
   * enabled, the image follows the image source, every environment variable
   * is passed once, and each listed security group gets its own numbered
   * ingress rule.
   */
  method CreateService(e: ApplicationEnvironment, settings: ServiceSettings, network: Network.NetworkOutputParameters,
                       ids: ServiceCloudIds, repositoryUriForTag: (string, string) -> string)
    returns (r: Result<ServiceResources>)
    ensures r.Success? <==> network.httpsListenerArn.Some?
    ensures r.Failure? ==> r.error == NoSuchElementException
    ensures r.Success? ==> r.value.httpsListenerRule == ListenerRule(network.httpsListenerArn.value, 1, "*", ids.targetGroupArn)
    ensures r.Success? ==> r.value.httpListenerRule == ListenerRule(network.httpListenerArn, 2, "*", ids.targetGroupArn)
    ensures r.Success? ==> (|r.value.targetGroup.attributes| > 0 <==> settings.stickySessionsEnabled)
    ensures r.Success? ==> r.value.targetGroup.healthCheckPath == settings.healthCheckPath
                           && r.value.targetGroup.protocol == settings.containerProtocol
                           && r.value.targetGroup.vpcId == network.vpcId && r.value.targetGroup.targetType == "ip"
    ensures r.Success? ==> r.value.targetGroup.port == settings.containerPort
                           && r.value.targetGroup.healthCheckPort == IntToString(settings.containerPort)
                           && ParseInt(r.value.targetGroup.healthCheckPort) == Some(settings.containerPort)
    ensures r.Success? ==> r.value.image == ContainerImage(settings.dockerImageSource, repositoryUriForTag)
    ensures r.Success? ==> IsListingOf(r.value.environment, settings.environmentVariables)
    ensures r.Success? ==> |r.value.ingresses| == |settings.securityGroupIdsToGrantIngressFromEcs|
    ensures r.Success? ==> forall j :: 0 <= j < |r.value.ingresses| ==>
              r.value.ingresses[j]
              == Ingress(IngressId(j + 1), ids.ecsSecurityGroupId, settings.securityGroupIdsToGrantIngressFromEcs[j], "-1")
    ensures r.Success? ==> r.value.logGroupName == Prefix(e, "logs") && r.value.containerName == Prefix(e, "container")
    ensures r.Success? ==> r.value.cluster == network.ecsClusterName && r.value.subnets == network.publicSubnets
    ensures r.Success? ==> (r.value.taskRolePolicy.Some? <==> |settings.taskRolePolicyStatements| > 0)
    ensures r.Success? ==> r.value.taskCpu == IntToString(settings.cpu) && r.value.taskMemory == IntToString(settings.memory)
    ensures r.Success? ==> ParseInt(r.value.taskCpu) == Some(settings.cpu) && ParseInt(r.value.taskMemory) == Some(settings.memory)
  {
    var targetGroup := TargetGroup(
      settings.healthCheckPath, IntToString(settings.containerPort), settings.containerProtocol, settings.containerPort,
      StickySessionAttributes(settings.stickySessionsEnabled), "ip", network.vpcId);
    IntToStringRoundTrip(settings.containerPort);
    var httpsListenerRule :- HttpsListenerRuleAsWritten(network, ids.targetGroupArn);
    var httpListenerRule := ListenerRule(network.httpListenerArn, 2, "*", ids.targetGroupArn);
    var taskRolePolicy := TaskRolePolicy(e, settings.taskRolePolicyStatements);
    var image := ContainerImage(settings.dockerImageSource, repositoryUriForTag);
    var environment := ToKeyValuePairs(settings.environmentVariables);
    IntToStringRoundTrip(settings.cpu);
    IntToStringRoundTrip(settings.memory);
    var ingresses := AllowIngressFromEcs(settings.securityGroupIdsToGrantIngressFromEcs, ids.ecsSecurityGroupId);
    r := Success(ServiceResources(
      targetGroup, httpsListenerRule, httpListenerRule, Prefix(e, "logs"), taskRolePolicy, Prefix(e, "container"),
      image, environment, IntToString(settings.cpu), IntToString(settings.memory),
      ingresses, network.ecsClusterName, network.publicSubnets));
  }
}
