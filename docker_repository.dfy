/**
 * A container-image repository in the registry, which every user of one
 * account may push to and pull from, and which keeps only the newest images.
 */
module DockerRepository {
  import opened Lang

  /** The repository's settings; the name and the account may be `null` when the two-argument constructor is used. */
  datatype DockerRepositoryInputParameters = DockerRepositoryInputParameters(
    dockerRepositoryName: Nullable<string>,
    accountId: Nullable<string>,
    maxImageCount: int,
    retainRegistryOnDelete: bool)

  /** The two-argument constructor: no `null` checks, ten images, the registry is kept on deletion. */
  function NewInputParameters(dockerRepositoryName: Nullable<string>, accountId: Nullable<string>): (p: DockerRepositoryInputParameters)
    ensures p.dockerRepositoryName == dockerRepositoryName && p.accountId == accountId
    ensures p.maxImageCount == 10 && p.retainRegistryOnDelete
  {
    DockerRepositoryInputParameters(dockerRepositoryName, accountId, 10, true)
  }

  /**
   * The four-argument constructor: the account and then the name are
   * checked for `null`, each with its own message; all four arguments are
   * stored as given.
   */
  function NewInputParametersWithRetention(dockerRepositoryName: Nullable<string>, accountId: Nullable<string>,
                                           maxImageCount: int, retainRegistryOnDelete: bool): (r: Result<DockerRepositoryInputParameters>)
    ensures r.Success? <==> accountId.NonNull? && dockerRepositoryName.NonNull?
    ensures accountId.Null? ==> r == Failure(NullPointerException(Some("accountId must not be null")))
    ensures accountId.NonNull? && dockerRepositoryName.Null? ==>
              r == Failure(NullPointerException(Some("dockerRepositoryName must not be null")))
    ensures r.Success? ==> r.value.dockerRepositoryName == dockerRepositoryName && r.value.accountId == accountId
    ensures r.Success? ==> r.value.maxImageCount == maxImageCount && r.value.retainRegistryOnDelete == retainRegistryOnDelete
  {
    var _ :- RequireNonNull(accountId, Some("accountId must not be null"));
    var _ :- RequireNonNull(dockerRepositoryName, Some("dockerRepositoryName must not be null"));
    Success(DockerRepositoryInputParameters(dockerRepositoryName, accountId, maxImageCount, retainRegistryOnDelete))
  }

  /** The three-argument constructor: the same checks as the four-argument one, and the registry is kept on deletion. */
  function NewInputParametersWithImageCount(dockerRepositoryName: Nullable<string>, accountId: Nullable<string>,
                                            maxImageCount: int): (r: Result<DockerRepositoryInputParameters>)
    ensures r.Success? <==> accountId.NonNull? && dockerRepositoryName.NonNull?
    ensures accountId.Null? ==> r == Failure(NullPointerException(Some("accountId must not be null")))
    ensures accountId.NonNull? && dockerRepositoryName.Null? ==>
              r == Failure(NullPointerException(Some("dockerRepositoryName must not be null")))
    ensures r.Success? ==> r.value == DockerRepositoryInputParameters(dockerRepositoryName, accountId, maxImageCount, true)
  {
    var _ :- RequireNonNull(accountId, Some("accountId must not be null"));
    var _ :- RequireNonNull(dockerRepositoryName, Some("dockerRepositoryName must not be null"));
    Success(DockerRepositoryInputParameters(dockerRepositoryName, accountId, maxImageCount, true))
  }

  /** The three-argument constructor behaves as the four-argument one asked to retain the registry. */
  lemma ImageCountConstructorRetains(dockerRepositoryName: Nullable<string>, accountId: Nullable<string>, maxImageCount: int)
    ensures NewInputParametersWithImageCount(dockerRepositoryName, accountId, maxImageCount)
            == NewInputParametersWithRetention(dockerRepositoryName, accountId, maxImageCount, true)
  {
  }

  /** On non-`null` arguments, the three-argument constructor agrees with the two-argument one when asked for ten images. */
  lemma ConstructorsAgreeOnDefaults(dockerRepositoryName: string, accountId: string)
    ensures NewInputParametersWithImageCount(NonNull(dockerRepositoryName), NonNull(accountId), 10)
            == Success(NewInputParameters(NonNull(dockerRepositoryName), NonNull(accountId)))
  {
  }

  datatype RemovalPolicy = Retain | Destroy

  /** What happens to the registry when the stack is deleted. */
  function RemovalPolicyOf(p: DockerRepositoryInputParameters): (policy: RemovalPolicy)
    ensures policy == Retain <==> p.retainRegistryOnDelete
    ensures policy == Destroy <==> !p.retainRegistryOnDelete
  {
    if p.retainRegistryOnDelete then Retain else Destroy
  }

  /** A lifecycle rule that expires all but the newest `maxImageCount` images. */
  datatype LifecycleRule = LifecycleRule(rulePriority: int, description: string, maxImageCount: int)

  function LifecycleDescription(maxImageCount: int): string
  {
    "limit to " + IntToString(maxImageCount) + " images"
  }

  /** Reads the image count back from a description of the form `limit to <n> images`. */
  function DescribedImageCount(description: string): (n: Option<int>)
  {
    if |description| >= 16 && description[..9] == "limit to " && description[|description| - 7..] == " images"
    then ParseInt(description[9..|description| - 7])
    else None
  }

  /** The description states the rule's image count, and nothing else. */
  lemma DescriptionStatesImageCount(maxImageCount: int)
    ensures DescribedImageCount(LifecycleDescription(maxImageCount)) == Some(maxImageCount)
  {
    var digits := IntToString(maxImageCount);
    var d := LifecycleDescription(maxImageCount);
    assert d[..9] == "limit to ";
    assert d[|d| - 7..] == " images";
    assert d[9..|d| - 7] == digits;
    IntToStringRoundTrip(maxImageCount);
  }

  function LifecycleRuleOf(p: DockerRepositoryInputParameters): (rule: LifecycleRule)
    ensures rule.rulePriority == 1 && rule.maxImageCount == p.maxImageCount
    ensures DescribedImageCount(rule.description) == Some(p.maxImageCount)
  {
    DescriptionStatesImageCount(p.maxImageCount);
    LifecycleRule(1, LifecycleDescription(p.maxImageCount), p.maxImageCount)
  }

  /** The repository the construct asks the registry for, and the account granted push and pull. */
  datatype EcrRepository = EcrRepository(
    repositoryName: Nullable<string>,
    removalPolicy: RemovalPolicy,
    lifecycleRules: seq<LifecycleRule>,
    pullPushAccount: Nullable<string>)

  /** `new DockerRepository(...)`: one lifecycle rule, and the account of the parameters gets push and pull. */
  function CreateDockerRepository(p: DockerRepositoryInputParameters): (repository: EcrRepository)
    ensures repository.repositoryName == p.dockerRepositoryName && repository.pullPushAccount == p.accountId
    ensures repository.removalPolicy == Retain <==> p.retainRegistryOnDelete
    ensures |repository.lifecycleRules| == 1
    ensures repository.lifecycleRules[0].rulePriority == 1
    ensures repository.lifecycleRules[0].maxImageCount == p.maxImageCount
    ensures DescribedImageCount(repository.lifecycleRules[0].description) == Some(p.maxImageCount)
  {
    EcrRepository(p.dockerRepositoryName, RemovalPolicyOf(p), [LifecycleRuleOf(p)], p.accountId)
  }
}
