/**
 * The descriptor of the environment an application is deployed into
 * (staging, production, ...). The constructs derive the names of the cloud
 * resources they create from it, so that several environments of the same
 * application can be deployed side by side without name clashes.
 */
module AppEnvironment {
  import opened Lang

  datatype ApplicationEnvironment = ApplicationEnvironment(applicationName: string, environmentName: string)

  /** The class `[a-zA-Z0-9-]` of characters that survive in resource names. */
  predicate IsNameChar(c: char) { IsAlphanumeric(c) || c == '-' }

  predicate IsSanitized(s: string) { forall i :: 0 <= i < |s| ==> IsNameChar(s[i]) }

  /**
   * `sanitize`: removes every character outside `[a-zA-Z0-9-]`, keeping the
   * others in their order.
   */
  function Sanitize(s: string): (r: string)
    ensures IsSanitized(r)
    ensures IsSanitized(s) ==> r == s
    decreases |s|
  {
    if |s| == 0 then ""
    else
      var rest := Sanitize(s[1..]);
      if IsNameChar(s[0]) then [s[0]] + rest else rest
  }

  /** Sanitizing works character by character: it distributes over concatenation. */
  lemma {:induction false} SanitizeAppend(a: string, b: string)
    ensures Sanitize(a + b) == Sanitize(a) + Sanitize(b)
    decreases |a|
  {
    if |a| == 0 {
      assert a + b == b;
    } else {
      assert (a + b)[0] == a[0];
      assert (a + b)[1..] == a[1..] + b;
      SanitizeAppend(a[1..], b);
    }
  }

  /** Sanitizing keeps exactly the characters of `[a-zA-Z0-9-]`, so it never lengthens a string. */
  lemma {:induction false} SanitizeLength(s: string)
    ensures |Sanitize(s)| == Count(s, IsNameChar) <= |s|
    decreases |s|
  {
    if |s| > 0 {
      SanitizeLength(s[1..]);
    }
  }

  /** A character is kept exactly when it occurs in the input and is allowed. */
  lemma {:induction false} SanitizeMembers(s: string)
    ensures forall c :: c in Sanitize(s) <==> c in s && IsNameChar(c)
    decreases |s|
  {
    if |s| > 0 {
      SanitizeMembers(s[1..]);
      assert forall c :: c in s <==> c == s[0] || c in s[1..];
    }
  }

  /** Sanitizing twice is sanitizing once. */
  lemma SanitizeIdempotent(s: string)
    ensures Sanitize(Sanitize(s)) == Sanitize(s)
  {
  }

  /** `toString`: the sanitized `environmentName-applicationName`. */
  function ToString(e: ApplicationEnvironment): (r: string)
    ensures IsSanitized(r)
  {
    Sanitize(e.environmentName + "-" + e.applicationName)
  }

  /**
   * The hyphen that joins the two names always survives sanitizing, and each
   * name is sanitized on its own side of it.
   */
  lemma ToStringJoinsSanitizedNames(e: ApplicationEnvironment)
    ensures ToString(e) == Sanitize(e.environmentName) + "-" + Sanitize(e.applicationName)
    ensures IsSanitized(ToString(e))
  {
    SanitizeAppend(e.environmentName + "-", e.applicationName);
    SanitizeAppend(e.environmentName, "-");
    assert Sanitize("-") == "-" by {
      assert IsSanitized("-");
    }
  }

  /** Names that are already sanitized are joined unchanged. */
  lemma ToStringOfSanitizedNames(applicationName: string, environmentName: string)
    requires IsSanitized(applicationName) && IsSanitized(environmentName)
    ensures ToString(ApplicationEnvironment(applicationName, environmentName)) == environmentName + "-" + applicationName
  {
    ToStringJoinsSanitizedNames(ApplicationEnvironment(applicationName, environmentName));
  }

  /** `prefix(string)`: `toString() + "-" + string`; the suffix itself is not sanitized. */
  function Prefix(e: ApplicationEnvironment, s: string): (r: string)
    ensures |r| > |s| && r[|r| - |s|..] == s
  {
    ToString(e) + "-" + s
  }

  /**
   * A prefixed name consists of the sanitized environment name, the sanitized
   * application name and the suffix exactly as given, joined by hyphens.
   */
  lemma PrefixStructure(e: ApplicationEnvironment, s: string)
    ensures Prefix(e, s) == Sanitize(e.environmentName) + "-" + Sanitize(e.applicationName) + "-" + s
    ensures IsSuffix(s, Prefix(e, s))
    ensures |Prefix(e, s)| == |Sanitize(e.environmentName)| + |Sanitize(e.applicationName)| + 2 + |s|
  {
    ToStringJoinsSanitizedNames(e);
    var p := Prefix(e, s);
    assert p[|p| - |s|..] == s;
  }

  /** The example of the test suite: environment "prod", application "myapp". */
  lemma PrefixExample(e: ApplicationEnvironment, s: string)
    requires e == ApplicationEnvironment("myapp", "prod") && s == "foo"
    ensures Prefix(e, s) == "prod-myapp-foo"
  {
    assert IsSanitized("prod") && IsSanitized("myapp");
    ToStringOfSanitizedNames("myapp", "prod");
  }

  /**
   * `prefix(string, characterLimit)` as written: a name that fits the limit is
   * returned whole; a longer one is cut down to its last 21 characters,
   * whatever the limit, and a longer one of fewer than 21 characters makes
   * `substring` throw.
   */
  function PrefixBounded(e: ApplicationEnvironment, s: string, characterLimit: int): (r: Result<string>)
    ensures var name := Prefix(e, s);
      && (r.Success? <==> |name| <= characterLimit || |name| >= 21)
      && (|name| <= characterLimit ==> r == Success(name))
      && (r.Success? ==> IsSuffix(r.value, name))
      && (r.Success? && |name| > characterLimit ==> |r.value| == 21)
      && (r.Failure? ==> r.error == IndexOutOfBoundsException(|name| - 21, |name|))
  {
    var name := Prefix(e, s);
    if |name| <= characterLimit then Success(name)
    else if |name| - 21 < 0 then Failure(IndexOutOfBoundsException(|name| - 21, |name|))
    else Success(name[|name| - 21..])
  }

  /**
   * `prefix(string, characterLimit)` as its documentation describes it: the
   * last `characterLimit` characters of the name.
   */
  function PrefixBoundedAsDocumented(e: ApplicationEnvironment, s: string, characterLimit: nat): (r: string)
    ensures var name := Prefix(e, s);
      && IsSuffix(r, name)
      && |r| == if |name| <= characterLimit then |name| else characterLimit
  {
    var name := Prefix(e, s);
    if |name| <= characterLimit then name else name[|name| - characterLimit..]
  }

  /**
   * The code and its documentation agree exactly when the name fits the
   * limit or the limit is 21.
   */
  lemma PrefixBoundedMatchesDocumentationOnlyAt21(e: ApplicationEnvironment, s: string, characterLimit: nat)
    ensures PrefixBounded(e, s, characterLimit) == Success(PrefixBoundedAsDocumented(e, s, characterLimit))
            <==> |Prefix(e, s)| <= characterLimit || characterLimit == 21
  {
    var name := Prefix(e, s);
    if |name| > characterLimit && characterLimit == 21 {
      assert PrefixBoundedAsDocumented(e, s, characterLimit) == name[|name| - 21..];
    }
  }

  /**
   * The long-name test case: with limit 20 the code returns 21 characters,
   * where the test expects the last 20.
   */
  lemma LongPrefixCounterexample(e: ApplicationEnvironment, s: string)
    requires e == ApplicationEnvironment("my-long-application-name", "my-long-env-name")
    requires s == "my-long-prefix"
    ensures PrefixBounded(e, s, 20) == Success("n-name-my-long-prefix")
    ensures PrefixBoundedAsDocumented(e, s, 20) == "-name-my-long-prefix"
  {
    LongNamesAreKept(e, "my-long-", "applicat", "ion-name", "env-name");
    LongNameTails(Prefix(e, s));
  }

  lemma LongNamesAreKept(e: ApplicationEnvironment, a: string, b: string, c: string, d: string)
    requires a == "my-long-" && b == "applicat" && c == "ion-name" && d == "env-name"
    requires e == ApplicationEnvironment(a + b + c, a + d)
    ensures ToString(e) == a + d + "-" + a + b + c
  {
    assert IsSanitized(a + b + c);
    assert IsSanitized(a + d);
    ToStringOfSanitizedNames(a + b + c, a + d);
  }

  lemma LongNameTails(name: string)
    requires name == "my-long-" + "env-name" + "-" + "my-long-" + "applicat" + "ion-name" + "-" + "my-long-prefix"
    ensures |name| == 56
    ensures name[|name| - 21..] == "n-name-my-long-prefix"
    ensures name[|name| - 20..] == "-name-my-long-prefix"
  {
  }
}
