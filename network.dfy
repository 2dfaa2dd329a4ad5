/**
 * The base network of an environment: a VPC with two public and two
 * isolated subnets, an ECS cluster and an internet-facing load balancer with
 * an HTTP listener and, when a certificate is given, an HTTPS listener.
 *
 * The network publishes the identifiers of what it created in the parameter
 * store, under keys `<environmentName>-Network-<field>`, so that constructs
 * deployed later in other stacks can read them back.
 */
module Network {
  import opened Lang
  import Ssm

  // ---------------------------------------------------------------------
  // Parameter names

  /** The fourteen outputs the network publishes. */
  datatype NetworkParameter =
    | VpcId | HttpListener | HttpsListener | LoadBalancerSecurityGroupId | EcsClusterName
    | IsolatedSubnetOne | IsolatedSubnetTwo | PublicSubnetOne | PublicSubnetTwo
    | AvailabilityZoneOne | AvailabilityZoneTwo
    | LoadBalancerArn | LoadBalancerDnsName | LoadBalancerHostedZoneId

  /** The `PARAMETER_*` constants. */
  function ParameterName(p: NetworkParameter): (name: string)
  {
    match p
    case VpcId => "vpcId"
    case HttpListener => "httpListenerArn"
    case HttpsListener => "httpsListenerArn"
    case LoadBalancerSecurityGroupId => "loadBalancerSecurityGroupId"
    case EcsClusterName => "ecsClusterName"
    case IsolatedSubnetOne => "isolatedSubnetIdOne"
    case IsolatedSubnetTwo => "isolatedSubnetIdTwo"
    case PublicSubnetOne => "publicSubnetIdOne"
    case PublicSubnetTwo => "publicSubnetIdTwo"
    case AvailabilityZoneOne => "availabilityZoneOne"
    case AvailabilityZoneTwo => "availabilityZoneTwo"
    case LoadBalancerArn => "loadBalancerArn"
    case LoadBalancerDnsName => "loadBalancerDnsName"
    case LoadBalancerHostedZoneId => "loadBalancerCanonicalHostedZoneId"
  }

  /** Which output a parameter name stands for, if any. */
  function ParameterOfName(name: string): (r: Option<NetworkParameter>)
  {
    if name == "vpcId" then Some(VpcId)
    else if name == "httpListenerArn" then Some(HttpListener)
    else if name == "httpsListenerArn" then Some(HttpsListener)
    else if name == "loadBalancerSecurityGroupId" then Some(LoadBalancerSecurityGroupId)
    else if name == "ecsClusterName" then Some(EcsClusterName)
    else if name == "isolatedSubnetIdOne" then Some(IsolatedSubnetOne)
    else if name == "isolatedSubnetIdTwo" then Some(IsolatedSubnetTwo)
    else if name == "publicSubnetIdOne" then Some(PublicSubnetOne)
    else if name == "publicSubnetIdTwo" then Some(PublicSubnetTwo)
    else if name == "availabilityZoneOne" then Some(AvailabilityZoneOne)
    else if name == "availabilityZoneTwo" then Some(AvailabilityZoneTwo)
    else if name == "loadBalancerArn" then Some(LoadBalancerArn)
    else if name == "loadBalancerDnsName" then Some(LoadBalancerDnsName)
    else if name == "loadBalancerCanonicalHostedZoneId" then Some(LoadBalancerHostedZoneId)
    else None
  }

  /** Every parameter name reads back as its own parameter: the names of the VPC, the listeners, the security group and the cluster. */
  lemma ParameterOfNameInverseListener(p: NetworkParameter)
    requires p.VpcId? || p.HttpListener? || p.HttpsListener? || p.LoadBalancerSecurityGroupId? || p.EcsClusterName?
    ensures ParameterOfName(ParameterName(p)) == Some(p)
  {
  }

  /** Every parameter name reads back as its own parameter: the names of the subnets and the availability zones. */
  lemma ParameterOfNameInverseSubnet(p: NetworkParameter)
    requires p.IsolatedSubnetOne? || p.IsolatedSubnetTwo? || p.PublicSubnetOne? || p.PublicSubnetTwo? || p.AvailabilityZoneOne? || p.AvailabilityZoneTwo?
    ensures ParameterOfName(ParameterName(p)) == Some(p)
  {
  }

  /** Every parameter name reads back as its own parameter: the names of the load balancer. */
  lemma ParameterOfNameInverseLoadBalancer(p: NetworkParameter)
    requires p.LoadBalancerArn? || p.LoadBalancerDnsName? || p.LoadBalancerHostedZoneId?
    ensures ParameterOfName(ParameterName(p)) == Some(p)
  {
  }

  /** Every parameter name reads back as its own parameter. */
  lemma ParameterOfNameInverse(p: NetworkParameter)
    ensures ParameterOfName(ParameterName(p)) == Some(p)
  {
    if p.VpcId? || p.HttpListener? || p.HttpsListener? || p.LoadBalancerSecurityGroupId? || p.EcsClusterName? {
      ParameterOfNameInverseListener(p);
    } else if p.IsolatedSubnetOne? || p.IsolatedSubnetTwo? || p.PublicSubnetOne? || p.PublicSubnetTwo? || p.AvailabilityZoneOne? || p.AvailabilityZoneTwo? {
      ParameterOfNameInverseSubnet(p);
    } else {
      ParameterOfNameInverseLoadBalancer(p);
    }
  }

  /** The fourteen parameter names are pairwise distinct. */
  lemma ParameterNamesDistinct(p: NetworkParameter, q: NetworkParameter)
    ensures ParameterName(p) == ParameterName(q) ==> p == q
  {
    ParameterOfNameInverse(p);
    ParameterOfNameInverse(q);
  }

  /** No parameter name contains a hyphen, so it is the last segment of its key: the names of the VPC, the listeners, the security group and the cluster. */
  lemma ParameterNameHasNoHyphenListener(p: NetworkParameter)
    requires p.VpcId? || p.HttpListener? || p.HttpsListener? || p.LoadBalancerSecurityGroupId? || p.EcsClusterName?
    ensures '-' !in ParameterName(p)
  {
  }

  /** No parameter name contains a hyphen, so it is the last segment of its key: the names of the subnets and the availability zones. */
  lemma ParameterNameHasNoHyphenSubnet(p: NetworkParameter)
    requires p.IsolatedSubnetOne? || p.IsolatedSubnetTwo? || p.PublicSubnetOne? || p.PublicSubnetTwo? || p.AvailabilityZoneOne? || p.AvailabilityZoneTwo?
    ensures '-' !in ParameterName(p)
  {
  }

  /** No parameter name contains a hyphen, so it is the last segment of its key: the names of the load balancer. */
  lemma ParameterNameHasNoHyphenLoadBalancer(p: NetworkParameter)
    requires p.LoadBalancerArn? || p.LoadBalancerDnsName? || p.LoadBalancerHostedZoneId?
    ensures '-' !in ParameterName(p)
  {
  }

  /** No parameter name contains a hyphen, so it is the last segment of its key. */
  lemma ParameterNameHasNoHyphen(p: NetworkParameter)
    ensures '-' !in ParameterName(p)
  {
    if p.VpcId? || p.HttpListener? || p.HttpsListener? || p.LoadBalancerSecurityGroupId? || p.EcsClusterName? {
      ParameterNameHasNoHyphenListener(p);
    } else if p.IsolatedSubnetOne? || p.IsolatedSubnetTwo? || p.PublicSubnetOne? || p.PublicSubnetTwo? || p.AvailabilityZoneOne? || p.AvailabilityZoneTwo? {
      ParameterNameHasNoHyphenSubnet(p);
    } else {
      ParameterNameHasNoHyphenLoadBalancer(p);
    }
  }

  /**
   * `createParameterName`: the raw, unsanitized environment name, then
   * `-Network-`, then the parameter name, which can be read off the end.
   */
  function CreateParameterName(environmentName: string, parameterName: string): (r: string)
    ensures |r| > |environmentName| + |parameterName|
    ensures r[..|environmentName|] == environmentName && r[|r| - |parameterName|..] == parameterName
  {
    environmentName + "-Network-" + parameterName
  }

  /** The store key of one output of the network of an environment. */
  function Key(environmentName: string, p: NetworkParameter): string
  {
    CreateParameterName(environmentName, ParameterName(p))
  }

  predicate IsNetworkKey(environmentName: string, k: string)
  {
    exists p :: k == Key(environmentName, p)
  }

  /**
   * Keys never collide: the environment name and the output are both
   * determined by the key, whatever characters the environment name holds.
   */
  lemma KeyInjective(e1: string, p1: NetworkParameter, e2: string, p2: NetworkParameter)
    ensures Key(e1, p1) == Key(e2, p2) ==> e1 == e2 && p1 == p2
  {
    if Key(e1, p1) == Key(e2, p2) {
      ParameterNamesDistinct(p1, p2);
      ParameterNameHasNoHyphen(p1);
      ParameterNameHasNoHyphen(p2);
      assert Key(e1, p1) == (e1 + "-Network") + "-" + ParameterName(p1);
      assert Key(e2, p2) == (e2 + "-Network") + "-" + ParameterName(p2);
      LastSegmentUnique(e1 + "-Network", ParameterName(p1), e2 + "-Network", ParameterName(p2));
      assert e1 == (e1 + "-Network")[..|e1|];
      assert e2 == (e2 + "-Network")[..|e2|];
    }
  }

  // ---------------------------------------------------------------------
  // The "null" sentinel of the HTTPS listener

  /** The value written for the HTTPS listener: its ARN, or the text `null` when there is none. */
  function EncodeHttpsListenerArn(arn: Option<string>): (v: string)
  {
    match arn
    case None => "null"
    case Some(a) => a
  }

  /** `getHttpsListenerArnFromParameterStore`: the text `null` reads as empty, anything else as present. */
  function DecodeHttpsListenerArn(v: string): (arn: Option<string>)
    ensures arn.None? <==> v == "null"
    ensures arn.Some? ==> arn.value == v
  {
    if v == "null" then None else Some(v)
  }

  /**
   * The sentinel round-trips every value except a listener ARN that is
   * itself the text `null`, which comes back as absent.
   */
  lemma HttpsListenerArnRoundTrip(arn: Option<string>)
    ensures DecodeHttpsListenerArn(EncodeHttpsListenerArn(arn)) == arn <==> arn != Some("null")
    ensures DecodeHttpsListenerArn(EncodeHttpsListenerArn(Some("null"))) == None
  {
  }

  // ---------------------------------------------------------------------
  // Output parameters and the store

  datatype NetworkOutputParameters = NetworkOutputParameters(
    vpcId: string,
    httpListenerArn: string,
    httpsListenerArn: Option<string>,
    loadbalancerSecurityGroupId: string,
    ecsClusterName: string,
    isolatedSubnets: seq<string>,
    publicSubnets: seq<string>,
    availabilityZones: seq<string>,
    loadBalancerArn: string,
    loadBalancerDnsName: string,
    loadBalancerCanonicalHostedZoneId: string)

  /** Each list holds the two entries that the store has room for. */
  predicate HasTwoOfEach(o: NetworkOutputParameters)
  {
    |o.isolatedSubnets| >= 2 && |o.publicSubnets| >= 2 && |o.availabilityZones| >= 2
  }

  /** The naming of the outputs of the network of environment `env`. */
  function KeysOf(env: string): NetworkParameter -> string
  {
    p => Key(env, p)
  }

  /** Which output of the network of `env` the key `k` belongs to, if any. */
  function KeyOwner(env: string, k: string): (r: Option<NetworkParameter>)
  {
    var prefix := env + "-Network-";
    if |prefix| <= |k| && k[..|prefix|] == prefix then ParameterOfName(k[|prefix|..]) else None
  }

  /** Every key names its own output, so the naming of an environment is one-to-one. */
  lemma KeyOwnerInverse(env: string, p: NetworkParameter)
    ensures KeyOwner(env, Key(env, p)) == Some(p)
  {
    var prefix := env + "-Network-";
    var k := Key(env, p);
    assert k[..|prefix|] == prefix;
    assert k[|prefix|..] == ParameterName(p);
    ParameterOfNameInverse(p);
  }

  /**
   * `createOutputParameters`: the store after the fourteen writes, made one
   * after the other in the order of the source, each output under the key
   * `key` gives it; only elements 0 and 1 of each list are written.
   */
  function WriteOutputParameters(entries: map<string, string>, key: NetworkParameter -> string, o: NetworkOutputParameters): (m: map<string, string>)
    requires HasTwoOfEach(o)
  {
    entries
      [key(VpcId) := o.vpcId]
      [key(HttpListener) := o.httpListenerArn]
      [key(HttpsListener) := EncodeHttpsListenerArn(o.httpsListenerArn)]
      [key(LoadBalancerSecurityGroupId) := o.loadbalancerSecurityGroupId]
      [key(EcsClusterName) := o.ecsClusterName]
      [key(AvailabilityZoneOne) := o.availabilityZones[0]]
      [key(AvailabilityZoneTwo) := o.availabilityZones[1]]
      [key(IsolatedSubnetOne) := o.isolatedSubnets[0]]
      [key(IsolatedSubnetTwo) := o.isolatedSubnets[1]]
      [key(PublicSubnetOne) := o.publicSubnets[0]]
      [key(PublicSubnetTwo) := o.publicSubnets[1]]
      [key(LoadBalancerArn) := o.loadBalancerArn]
      [key(LoadBalancerDnsName) := o.loadBalancerDnsName]
      [key(LoadBalancerHostedZoneId) := o.loadBalancerCanonicalHostedZoneId]
  }

  /**
   * The fourteen `get...FromParameterStore` reads, each output from the key
   * `key` gives it, the lists rebuilt in the order One, Two. Fails on the
   * first key that nobody wrote.
   */
  function ReadOutputParameters(entries: map<string, string>, key: NetworkParameter -> string): (r: Result<NetworkOutputParameters>)
    ensures r.Success? ==> |r.value.isolatedSubnets| == |r.value.publicSubnets| == |r.value.availabilityZones| == 2
    ensures r.Failure? ==> exists p :: r.error == ParameterNotFound(key(p)) && key(p) !in entries
  {
    var vpcId :- Ssm.Get(entries, key(VpcId));
    var httpListenerArn :- Ssm.Get(entries, key(HttpListener));
    var httpsListenerArn :- Ssm.Get(entries, key(HttpsListener));
    var securityGroupId :- Ssm.Get(entries, key(LoadBalancerSecurityGroupId));
    var clusterName :- Ssm.Get(entries, key(EcsClusterName));
    var isolatedOne :- Ssm.Get(entries, key(IsolatedSubnetOne));
    var isolatedTwo :- Ssm.Get(entries, key(IsolatedSubnetTwo));
    var publicOne :- Ssm.Get(entries, key(PublicSubnetOne));
    var publicTwo :- Ssm.Get(entries, key(PublicSubnetTwo));
    var zoneOne :- Ssm.Get(entries, key(AvailabilityZoneOne));
    var zoneTwo :- Ssm.Get(entries, key(AvailabilityZoneTwo));
    var loadBalancerArn :- Ssm.Get(entries, key(LoadBalancerArn));
    var dnsName :- Ssm.Get(entries, key(LoadBalancerDnsName));
    var hostedZoneId :- Ssm.Get(entries, key(LoadBalancerHostedZoneId));
    Success(NetworkOutputParameters(
      vpcId, httpListenerArn, DecodeHttpsListenerArn(httpsListenerArn), securityGroupId, clusterName,
      [isolatedOne, isolatedTwo], [publicOne, publicTwo], [zoneOne, zoneTwo],
      loadBalancerArn, dnsName, hostedZoneId))
  }

  /** `getOutputParametersFromParameterStore`: the outputs of the network of `env`. */
  function GetOutputParametersFromParameterStore(entries: map<string, string>, env: string): (r: Result<NetworkOutputParameters>)
    ensures r.Success? ==> HasTwoOfEach(r.value)
    ensures r.Failure? ==> exists p :: r.error == ParameterNotFound(Key(env, p)) && Key(env, p) !in entries
  {
    ReadOutputParameters(entries, KeysOf(env))
  }

  /** What a consuming stack sees of the outputs: the sentinel applied, each list cut to two. */
  function StoredView(o: NetworkOutputParameters): (v: NetworkOutputParameters)
    requires HasTwoOfEach(o)
  {
    o.(httpsListenerArn := DecodeHttpsListenerArn(EncodeHttpsListenerArn(o.httpsListenerArn)),
       isolatedSubnets := o.isolatedSubnets[..2],
       publicSubnets := o.publicSubnets[..2],
       availabilityZones := o.availabilityZones[..2])
  }

  /** The first five writes survive the later ones. */
  lemma WrittenScalarsKept(entries: map<string, string>, key: NetworkParameter -> string,
                           owner: string -> Option<NetworkParameter>, o: NetworkOutputParameters)
    requires HasTwoOfEach(o)
    requires forall p :: owner(key(p)) == Some(p)
    ensures var m := WriteOutputParameters(entries, key, o);
      && Ssm.Get(m, key(VpcId)) == Success(o.vpcId)
      && Ssm.Get(m, key(HttpListener)) == Success(o.httpListenerArn)
      && Ssm.Get(m, key(HttpsListener)) == Success(EncodeHttpsListenerArn(o.httpsListenerArn))
      && Ssm.Get(m, key(LoadBalancerSecurityGroupId)) == Success(o.loadbalancerSecurityGroupId)
      && Ssm.Get(m, key(EcsClusterName)) == Success(o.ecsClusterName)
  {
  }

  /** The list elements and the load balancer's identifiers survive the later writes. */
  lemma WrittenListsKept(entries: map<string, string>, key: NetworkParameter -> string,
                         owner: string -> Option<NetworkParameter>, o: NetworkOutputParameters)
    requires HasTwoOfEach(o)
    requires forall p :: owner(key(p)) == Some(p)
    ensures var m := WriteOutputParameters(entries, key, o);
      && Ssm.Get(m, key(AvailabilityZoneOne)) == Success(o.availabilityZones[0])
      && Ssm.Get(m, key(AvailabilityZoneTwo)) == Success(o.availabilityZones[1])
      && Ssm.Get(m, key(IsolatedSubnetOne)) == Success(o.isolatedSubnets[0])
      && Ssm.Get(m, key(IsolatedSubnetTwo)) == Success(o.isolatedSubnets[1])
      && Ssm.Get(m, key(PublicSubnetOne)) == Success(o.publicSubnets[0])
      && Ssm.Get(m, key(PublicSubnetTwo)) == Success(o.publicSubnets[1])
      && Ssm.Get(m, key(LoadBalancerArn)) == Success(o.loadBalancerArn)
      && Ssm.Get(m, key(LoadBalancerDnsName)) == Success(o.loadBalancerDnsName)
      && Ssm.Get(m, key(LoadBalancerHostedZoneId)) == Success(o.loadBalancerCanonicalHostedZoneId)
  {
  }

  /**
   * Under any naming that a function `owner` can invert, reading after
   * writing gives the stored view: no write overwrites another output.
   */
  lemma ReadAfterWrite(entries: map<string, string>, key: NetworkParameter -> string,
                       owner: string -> Option<NetworkParameter>, o: NetworkOutputParameters)
    requires HasTwoOfEach(o)
    requires forall p :: owner(key(p)) == Some(p)
    ensures ReadOutputParameters(WriteOutputParameters(entries, key, o), key) == Success(StoredView(o))
  {
    WrittenScalarsKept(entries, key, owner, o);
    WrittenListsKept(entries, key, owner, o);
    assert o.isolatedSubnets[..2] == [o.isolatedSubnets[0], o.isolatedSubnets[1]];
    assert o.publicSubnets[..2] == [o.publicSubnets[0], o.publicSubnets[1]];
    assert o.availabilityZones[..2] == [o.availabilityZones[0], o.availabilityZones[1]];
  }

  /** The writes touch the fourteen keys of the naming and nothing else. */
  lemma WriteKeepsOtherKeys(entries: map<string, string>, key: NetworkParameter -> string, o: NetworkOutputParameters, k: string)
    requires HasTwoOfEach(o)
    requires forall p :: key(p) != k
    ensures Ssm.Get(WriteOutputParameters(entries, key, o), k) == Ssm.Get(entries, k)
  {
  }

  /** A read looks at the fourteen keys of its naming and at nothing else in the store. */
  lemma ReadSeesOnlyItsKeys(m1: map<string, string>, m2: map<string, string>, key: NetworkParameter -> string)
    requires forall p :: Ssm.Get(m1, key(p)) == Ssm.Get(m2, key(p))
    ensures ReadOutputParameters(m1, key) == ReadOutputParameters(m2, key)
  {
  }

  /**
   * Every output is read under the key it was written to: reading the
   * network's parameters back returns what was written, whatever else the
   * store held before.
   */
  lemma StoreRoundTrip(entries: map<string, string>, env: string, o: NetworkOutputParameters)
    requires HasTwoOfEach(o)
    ensures GetOutputParametersFromParameterStore(WriteOutputParameters(entries, KeysOf(env), o), env) == Success(StoredView(o))
  {
    forall p ensures KeyOwner(env, KeysOf(env)(p)) == Some(p) {
      KeyOwnerInverse(env, p);
    }
    ReadAfterWrite(entries, KeysOf(env), k => KeyOwner(env, k), o);
  }

  /**
   * With exactly two subnets and zones of each kind and an HTTPS listener
   * ARN other than the text `null`, the outputs come back unchanged; a
   * listener ARN `null` comes back as no listener.
   */
  lemma StoreRoundTripExact(entries: map<string, string>, env: string, o: NetworkOutputParameters)
    requires |o.isolatedSubnets| == |o.publicSubnets| == |o.availabilityZones| == 2
    ensures GetOutputParametersFromParameterStore(WriteOutputParameters(entries, KeysOf(env), o), env) == Success(o)
            <==> o.httpsListenerArn != Some("null")
  {
    StoreRoundTrip(entries, env, o);
    HttpsListenerArnRoundTrip(o.httpsListenerArn);
    assert o.isolatedSubnets[..2] == o.isolatedSubnets;
    assert o.publicSubnets[..2] == o.publicSubnets;
    assert o.availabilityZones[..2] == o.availabilityZones;
  }

  /**
   * Writing one environment's network does not make another environment's
   * network readable: its read still fails on the first key.
   */
  lemma OtherEnvironmentNotFound(entries: map<string, string>, env: string, other: string, o: NetworkOutputParameters)
    requires HasTwoOfEach(o) && other != env
    requires Key(other, VpcId) !in entries
    ensures GetOutputParametersFromParameterStore(WriteOutputParameters(entries, KeysOf(env), o), other)
            == Failure(ParameterNotFound(Key(other, VpcId)))
  {
    forall p ensures KeysOf(env)(p) != Key(other, VpcId) {
      KeyInjective(other, VpcId, env, p);
    }
    WriteKeepsOtherKeys(entries, KeysOf(env), o, Key(other, VpcId));
  }

  // ---------------------------------------------------------------------
  // Input parameters

  class NetworkInputParameters {
    var sslCertificateArn: Option<string>

    /** The certificate ARN is empty: the load balancer listens to plain HTTP only. */
    constructor ()
      ensures sslCertificateArn == None
    {
      sslCertificateArn := None;
    }

    /** The deprecated constructor: `Optional.ofNullable(sslCertificateArn)`. */
    constructor OfNullable(sslCertificateArn: Nullable<string>)
      ensures sslCertificateArn.Null? ==> this.sslCertificateArn == None
      ensures sslCertificateArn.NonNull? ==> this.sslCertificateArn == Some(sslCertificateArn.value)
    {
      this.sslCertificateArn := if sslCertificateArn.NonNull? then Some(sslCertificateArn.value) else None;
    }

    /** Sets the certificate ARN and returns the same object; `null` is rejected. */
    method WithSslCertificateArn(sslCertificateArn: Nullable<string>) returns (r: Result<NetworkInputParameters>)
      modifies this
      ensures r.Success? <==> sslCertificateArn.NonNull?
      ensures r.Success? ==> r.value == this && this.sslCertificateArn == Some(sslCertificateArn.value)
      ensures r.Failure? ==> r.error == NullPointerException(None) && this.sslCertificateArn == old(this.sslCertificateArn)
    {
      var arn :- RequireNonNull(sslCertificateArn, None);
      this.sslCertificateArn := Some(arn);
      return Success(this);
    }
  }

  // ---------------------------------------------------------------------
  // The construct

  /** The identifiers of the VPC, as the provisioning framework assigns them. */
  datatype Vpc = Vpc(vpcId: string, availabilityZones: seq<string>, isolatedSubnetIds: seq<string>, publicSubnetIds: seq<string>)

  datatype LoadBalancer = LoadBalancer(arn: string, dnsName: string, canonicalHostedZoneId: string)

  /** The HTTPS listener on port 443 and the certificate it terminates TLS with. */
  datatype HttpsListenerInfo = HttpsListenerInfo(arn: string, certificateArn: string)

  /** The rule on the HTTP listener that redirects every path to HTTPS. */
  datatype RedirectRule = RedirectRule(priority: int, protocol: string, port: string, pathPattern: string)

  /**
   * Identifiers that the provisioning framework assigns to the resources the
   * network asks it to create; the construct only passes them on.
   */
  datatype CloudIds = CloudIds(
    vpc: Vpc,
    loadBalancerSecurityGroupId: string,
    loadBalancer: LoadBalancer,
    httpListenerArn: string,
    httpsListenerArn: string)

  class Network {
    const environmentName: string
    const vpc: Vpc
    const ecsClusterName: string
    var httpListenerArn: string
    var httpsListener: Option<HttpsListenerInfo>
    var httpRedirectRule: Option<RedirectRule>
    var loadbalancerSecurityGroupId: string
    var loadBalancer: LoadBalancer

    /** `prefixWithEnvironmentName`: the raw environment name, a hyphen, the given name. */
    function PrefixWithEnvironmentName(s: string): (r: string)
      ensures |r| == |environmentName| + 1 + |s|
      ensures r[..|environmentName| + 1] == environmentName + "-"
      ensures r[|environmentName| + 1..] == s
    {
      environmentName + "-" + s
    }

    /** The part of the constructor before `createLoadBalancer`: the VPC and the cluster. */
    constructor Init(environmentName: string, vpc: Vpc)
      ensures this.environmentName == environmentName && this.vpc == vpc
      ensures ecsClusterName == PrefixWithEnvironmentName("ecsCluster")
      ensures ecsClusterName == environmentName + "-ecsCluster"
      ensures httpsListener == None && httpRedirectRule == None
    {
      this.environmentName := environmentName;
      this.vpc := vpc;
      this.ecsClusterName := environmentName + "-" + "ecsCluster";
      assert "-" + "ecsCluster" == "-ecsCluster";
      httpsListener := None;
      httpRedirectRule := None;
    }

    /** `getOutputParameters`: the outputs, read from the construct's own fields. */
    function GetOutputParameters(): (o: NetworkOutputParameters)
      reads this
      ensures o.httpsListenerArn.Some? <==> httpsListener.Some?
      ensures o.httpsListenerArn.Some? ==> o.httpsListenerArn.value == httpsListener.value.arn
      ensures o.vpcId == vpc.vpcId && o.ecsClusterName == ecsClusterName
    {
      NetworkOutputParameters(
        vpc.vpcId, httpListenerArn,
        if httpsListener.Some? then Some(httpsListener.value.arn) else None,
        loadbalancerSecurityGroupId, ecsClusterName,
        vpc.isolatedSubnetIds, vpc.publicSubnetIds, vpc.availabilityZones,
        loadBalancer.arn, loadBalancer.dnsName, loadBalancer.canonicalHostedZoneId)
    }

    /**
     * `createLoadBalancer`: the security group, the load balancer and the
     * HTTP listener always; the HTTPS listener with the certificate and the
     * HTTP-to-HTTPS redirect only when a certificate ARN is present; then the
     * output parameters.
     */
    method CreateLoadBalancer(sslCertificateArn: Option<string>, ids: CloudIds, store: Ssm.ParameterStore) returns (r: Outcome)
      requires vpc == ids.vpc
      modifies this, store
      ensures httpsListener.Some? <==> sslCertificateArn.Some?
      ensures httpsListener.Some? ==> httpsListener.value == HttpsListenerInfo(ids.httpsListenerArn, sslCertificateArn.value)
      ensures httpRedirectRule.Some? <==> sslCertificateArn.Some?
      ensures httpRedirectRule.Some? ==> httpRedirectRule.value == RedirectRule(1, "HTTPS", "443", "*")
      ensures httpListenerArn == ids.httpListenerArn && loadBalancer == ids.loadBalancer
      ensures loadbalancerSecurityGroupId == ids.loadBalancerSecurityGroupId
      ensures r.Pass? <==> HasTwoOfEach(GetOutputParameters())
      ensures r.Pass? ==> store.entries == WriteOutputParameters(old(store.entries), KeysOf(environmentName), GetOutputParameters())
      ensures r.Fail? ==> r.error.IndexOutOfBoundsException?
      ensures r.Fail? ==> forall k :: !IsNetworkKey(environmentName, k) ==> Ssm.Get(store.entries, k) == Ssm.Get(old(store.entries), k)
    {
      loadbalancerSecurityGroupId := ids.loadBalancerSecurityGroupId;
      loadBalancer := ids.loadBalancer;
      httpListenerArn := ids.httpListenerArn;
      if sslCertificateArn.Some? {
        httpsListener := Some(HttpsListenerInfo(ids.httpsListenerArn, sslCertificateArn.value));
        httpRedirectRule := Some(RedirectRule(1, "HTTPS", "443", "*"));
      } else {
        httpsListener := None;
        httpRedirectRule := None;
      }
      r := CreateOutputParameters(store);
    }

    /**
     * `createOutputParameters`: fourteen store writes in sequence. Reading
     * element 0 or 1 of a list that is too short throws, after the writes
     * before it were made, all of them to this network's keys.
     */
    method CreateOutputParameters(store: Ssm.ParameterStore) returns (r: Outcome)
      modifies store
      ensures r.Pass? <==> HasTwoOfEach(GetOutputParameters())
      ensures r.Pass? ==> store.entries == WriteOutputParameters(old(store.entries), KeysOf(environmentName), GetOutputParameters())
      ensures r.Fail? ==> r.error.IndexOutOfBoundsException?
      ensures r.Fail? ==> forall k :: !IsNetworkKey(environmentName, k) ==> Ssm.Get(store.entries, k) == Ssm.Get(old(store.entries), k)
    {
      var env := environmentName;
      store.Put(Key(env, VpcId), vpc.vpcId);
      store.Put(Key(env, HttpListener), httpListenerArn);
      if httpsListener.Some? {
        store.Put(Key(env, HttpsListener), httpsListener.value.arn);
      } else {
        store.Put(Key(env, HttpsListener), "null");
      }
      store.Put(Key(env, LoadBalancerSecurityGroupId), loadbalancerSecurityGroupId);
      store.Put(Key(env, EcsClusterName), ecsClusterName);
      var zoneOne := ListGet(vpc.availabilityZones, 0);
      if zoneOne.Failure? { return Fail(zoneOne.error); }
      store.Put(Key(env, AvailabilityZoneOne), zoneOne.value);
      var zoneTwo := ListGet(vpc.availabilityZones, 1);
      if zoneTwo.Failure? { return Fail(zoneTwo.error); }
      store.Put(Key(env, AvailabilityZoneTwo), zoneTwo.value);
      var isolatedOne := ListGet(vpc.isolatedSubnetIds, 0);
      if isolatedOne.Failure? { return Fail(isolatedOne.error); }
      store.Put(Key(env, IsolatedSubnetOne), isolatedOne.value);
      var isolatedTwo := ListGet(vpc.isolatedSubnetIds, 1);
      if isolatedTwo.Failure? { return Fail(isolatedTwo.error); }
      store.Put(Key(env, IsolatedSubnetTwo), isolatedTwo.value);
      var publicOne := ListGet(vpc.publicSubnetIds, 0);
      if publicOne.Failure? { return Fail(publicOne.error); }
      store.Put(Key(env, PublicSubnetOne), publicOne.value);
      var publicTwo := ListGet(vpc.publicSubnetIds, 1);
      if publicTwo.Failure? { return Fail(publicTwo.error); }
      store.Put(Key(env, PublicSubnetTwo), publicTwo.value);
      store.Put(Key(env, LoadBalancerArn), loadBalancer.arn);
      store.Put(Key(env, LoadBalancerDnsName), loadBalancer.dnsName);
      store.Put(Key(env, LoadBalancerHostedZoneId), loadBalancer.canonicalHostedZoneId);
      r := Pass;
    }
  }

  /**
   * `new Network(...)`: builds the VPC and the cluster, then the load
   * balancer, and publishes the outputs. On success a stack reading the
   * store for this environment sees the network's own outputs.
   */
  method CreateNetwork(environmentName: string, input: NetworkInputParameters, ids: CloudIds, store: Ssm.ParameterStore)
    returns (r: Result<Network>)
    modifies store
    ensures r.Success? <==> |ids.vpc.isolatedSubnetIds| >= 2 && |ids.vpc.publicSubnetIds| >= 2 && |ids.vpc.availabilityZones| >= 2
    ensures r.Success? ==> fresh(r.value) && r.value.environmentName == environmentName
    ensures r.Success? ==> (r.value.httpsListener.Some? <==> input.sslCertificateArn.Some?)
    ensures r.Success? ==> r.value.ecsClusterName == environmentName + "-ecsCluster"
    ensures r.Success? ==> HasTwoOfEach(r.value.GetOutputParameters())
    ensures r.Success? ==> store.entries == WriteOutputParameters(old(store.entries), KeysOf(environmentName), r.value.GetOutputParameters())
    ensures r.Success? ==> GetOutputParametersFromParameterStore(store.entries, environmentName) == Success(StoredView(r.value.GetOutputParameters()))
    ensures r.Failure? ==> r.error.IndexOutOfBoundsException?
    ensures r.Failure? ==> forall k :: !IsNetworkKey(environmentName, k) ==> Ssm.Get(store.entries, k) == Ssm.Get(old(store.entries), k)
  {
    var network := new Network.Init(environmentName, ids.vpc);
    var outcome := network.CreateLoadBalancer(input.sslCertificateArn, ids, store);
    if outcome.Fail? {
      return Failure(outcome.error);
    }
    var o := network.GetOutputParameters();
    StoreRoundTrip(old(store.entries), environmentName, o);
    return Success(network);
  }
}
