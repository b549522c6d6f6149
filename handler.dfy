/**
  The pre-release step of the cdflow2 "simple AWS" config plugin
  (handler/configure_release.go): resolve the team, validate the input
  configuration, check that the release bucket, the Terraform state bucket
  and the Terraform locks table exist, plus the two helpers that fill a
  build's environment map.

  The collaborators the handler calls (team lookup, input validation, the
  AWS queries) are given as values; the error stream is a sequence of
  abstract messages, and a ghost trace records which collaborator calls
  were made.
*/
module ReleaseHandler {
  import opened Wrappers

  // ---------------------------------------------------------------------
  // Messages, calls and collaborator answers
  // ---------------------------------------------------------------------

  /** What the handler writes to its error stream, without terminal styling. */
  datatype Msg =
    | TeamError(err: string)  // the team lookup's error
    | Header                  // "Checking AWS resources..."
    | ListError(err: string)  // the bucket-listing error
    | Blank                   // the empty line after the three checks
    | SetupHint               // "To set up AWS resources, please run: cdflow2 setup"

  /** The collaborator calls the handler makes, in the order it makes them. */
  datatype Call =
    | GetTeam
    | CheckInputConfiguration
    | ListBuckets
    | HandleReleaseBucket
    | HandleTfstateBucket
    | HandleTflocksTable

  /** What the AWS side answers during one invocation: the bucket listing,
      and the three existence checks (the two bucket checks look at the
      listed bucket names). */
  datatype Infra = Infra(
    listing: Result<set<string>, string>,
    releaseBucket: set<string> -> bool,
    tfstateBucket: set<string> -> bool,
    tflocksTable: bool)

  /** Number of occurrences of `x` in `s`. */
  function Occurrences<T(==)>(s: seq<T>, x: T): (n: nat)
    ensures n <= |s|
    ensures n == 0 <==> x !in s
    ensures n == |s| <==> forall i :: 0 <= i < |s| ==> s[i] == x
  {
    if s == [] then 0
    else (if s[0] == x then 1 else 0) + Occurrences(s[1..], x)
  }

  /** Counting in a three-element sequence, as the handler's three `if`s do. */
  lemma OccurrencesOfThree<T>(a: T, b: T, c: T, x: T)
    ensures Occurrences([a, b, c], x) ==
      (if a == x then 1 else 0) + (if b == x then 1 else 0) + (if c == x then 1 else 0)
  {
  }

  // ---------------------------------------------------------------------
  // CheckAWSResources: list once, run all three checks, count failures
  // ---------------------------------------------------------------------

  /** The three check outcomes, in the order the handler runs them. */
  function CheckOutcomes(infra: Infra, buckets: set<string>): (outcomes: seq<bool>)
  {
    [infra.releaseBucket(buckets), infra.tfstateBucket(buckets), infra.tflocksTable]
  }

  /** The value of the handler's `problems` counter: the number of failed checks. */
  function Problems(infra: Infra, buckets: set<string>): (n: nat)
    ensures n <= 3
    ensures n == 0 <==>
      infra.releaseBucket(buckets) && infra.tfstateBucket(buckets) && infra.tflocksTable
    ensures n == 3 <==>
      !infra.releaseBucket(buckets) && !infra.tfstateBucket(buckets) && !infra.tflocksTable
  {
    var outcomes := CheckOutcomes(infra, buckets);
    assert outcomes[0] == infra.releaseBucket(buckets);
    assert outcomes[1] == infra.tfstateBucket(buckets);
    assert outcomes[2] == infra.tflocksTable;
    Occurrences(outcomes, false)
  }

  /** What one resource check returns, writes and calls. */
  datatype CheckReport = CheckReport(ok: bool, messages: seq<Msg>, calls: seq<Call>)

  const AllResourceCalls: seq<Call> :=
    [ListBuckets, HandleReleaseBucket, HandleTfstateBucket, HandleTflocksTable]

  /** The specification of CheckAWSResources. */
  function ResourceCheck(infra: Infra): (c: CheckReport)
    // a listing failure fails the check at once: no existence check, no hint
    ensures infra.listing.Failure? ==>
      && !c.ok
      && c.calls == [ListBuckets]
      && SetupHint !in c.messages
    // a successful listing runs all three checks and decides on the count
    ensures infra.listing.Success? ==>
      && c.calls == AllResourceCalls
      && (c.ok <==> Problems(infra, infra.listing.value) == 0)
      && (SetupHint in c.messages <==> Problems(infra, infra.listing.value) > 0)
    ensures c.ok <==>
      && infra.listing.Success?
      && infra.releaseBucket(infra.listing.value)
      && infra.tfstateBucket(infra.listing.value)
      && infra.tflocksTable
    ensures |c.messages| > 0 && c.messages[0] == Header
  {
    match infra.listing
    case Failure(e) =>
      CheckReport(false, [Header, ListError(e)], [ListBuckets])
    case Success(buckets) =>
      var problems := Problems(infra, buckets);
      var hint := if problems > 0 then [SetupHint] else [];
      CheckReport(problems == 0, [Header, Blank] + hint, AllResourceCalls)
  }

  /** The setup hint is written exactly once when some check failed, and
      otherwise not at all. */
  lemma SetupHintOnce(infra: Infra)
    ensures Occurrences(ResourceCheck(infra).messages, SetupHint) ==
      if infra.listing.Success? && Problems(infra, infra.listing.value) > 0 then 1 else 0
  {
  }

  // ---------------------------------------------------------------------
  // ConfigureRelease: team, then input, then resources
  // ---------------------------------------------------------------------

  /** The response fields ConfigureRelease leaves behind, with what it wrote and called. */
  datatype Outcome = Outcome(
    success: bool,
    metadata: map<string, string>,
    messages: seq<Msg>,
    calls: seq<Call>)

  /** The value the handler passes to the team lookup: `Config["team"]`,
      which is nil when the key is missing. */
  function TeamValue(config: map<string, string>): Option<string>
  {
    if "team" in config then Some(config["team"]) else None
  }

  /** The specification of ConfigureRelease, from the incoming `Success` and
      `AdditionalMetadata`, the team lookup's answer, the input validation's
      answer and the AWS side. */
  function Configure(success: bool, metadata: map<string, string>,
                     team: Result<string, string>, inputOk: bool, infra: Infra): (o: Outcome)
    // an unresolved team: failure, metadata untouched, nothing else runs
    ensures team.Failure? ==>
      o == Outcome(false, metadata, [TeamError(team.error)], [GetTeam])
    // a resolved team is recorded whatever happens afterwards
    ensures team.Success? ==> o.metadata == metadata["team" := team.value]
    // invalid input: failure, and the AWS resources are never checked
    ensures team.Success? && !inputOk ==>
      && !o.success
      && o.calls == [GetTeam, CheckInputConfiguration]
      && o.messages == []
    // both pass: team, then input, then exactly the resource check's calls and messages
    ensures team.Success? && inputOk ==>
      && o.calls == [GetTeam, CheckInputConfiguration] + ResourceCheck(infra).calls
      && o.messages == ResourceCheck(infra).messages
    ensures ListBuckets in o.calls <==> team.Success? && inputOk
    // Success is only ever cleared, never set
    ensures o.success ==> success
    ensures o.success <==> success && team.Success? && inputOk && ResourceCheck(infra).ok
  {
    match team
    case Failure(e) =>
      Outcome(false, metadata, [TeamError(e)], [GetTeam])
    case Success(name) =>
      var metadata' := metadata["team" := name];
      if !inputOk then
        Outcome(false, metadata', [], [GetTeam, CheckInputConfiguration])
      else
        var report := ResourceCheck(infra);
        Outcome(success && report.ok, metadata', report.messages,
                [GetTeam, CheckInputConfiguration] + report.calls)
  }

  /** Over a whole ConfigureRelease, the setup hint appears at most once, and
      exactly when the team and input passed, the listing worked and some
      resource is missing. */
  lemma ConfigureSetupHintOnce(success: bool, metadata: map<string, string>,
                               team: Result<string, string>, inputOk: bool, infra: Infra)
    ensures Occurrences(Configure(success, metadata, team, inputOk, infra).messages, SetupHint) ==
      if && team.Success? && inputOk && infra.listing.Success?
         && Problems(infra, infra.listing.value) > 0
      then 1 else 0
  {
  }

  /** The incoming request, as far as ConfigureRelease reads it. */
  datatype ConfigureReleaseRequest = ConfigureReleaseRequest(
    config: map<string, string>,
    env: map<string, string>)

  /** The caller-owned response that ConfigureRelease fills in. */
  class ConfigureReleaseResponse {
    var success: bool
    var additionalMetadata: map<string, string>

    constructor (success: bool, additionalMetadata: map<string, string>)
      ensures this.success == success
      ensures this.additionalMetadata == additionalMetadata
    {
      this.success := success;
      this.additionalMetadata := additionalMetadata;
    }
  }

  /** The plugin's handler: its collaborators and its error stream. */
  class Handler {
    const getTeam: Option<string> -> Result<string, string>
    const checkInputConfiguration: (map<string, string>, map<string, string>) -> bool
    const infra: Infra
    var errorStream: seq<Msg>
    ghost var trace: seq<Call>

    constructor (getTeam: Option<string> -> Result<string, string>,
                 checkInputConfiguration: (map<string, string>, map<string, string>) -> bool,
                 infra: Infra)
      ensures this.getTeam == getTeam
      ensures this.checkInputConfiguration == checkInputConfiguration
      ensures this.infra == infra
      ensures errorStream == [] && trace == []
    {
      this.getTeam := getTeam;
      this.checkInputConfiguration := checkInputConfiguration;
      this.infra := infra;
      errorStream := [];
      trace := [];
    }

    /** Checks that the release bucket, the state bucket and the locks table exist. */
    method CheckAWSResources() returns (ok: bool)
      modifies this`errorStream, this`trace
      ensures ok == ResourceCheck(infra).ok
      ensures errorStream == old(errorStream) + ResourceCheck(infra).messages
      ensures trace == old(trace) + ResourceCheck(infra).calls
    {
      var problems := 0;
      errorStream := errorStream + [Header];

      trace := trace + [ListBuckets];
      if infra.listing.Failure? {
        errorStream := errorStream + [ListError(infra.listing.error)];
        return false;
      }
      var buckets := infra.listing.value;

      trace := trace + [HandleReleaseBucket];
      var releaseOk := infra.releaseBucket(buckets);
      if !releaseOk {
        problems := problems + 1;
      }

      trace := trace + [HandleTfstateBucket];
      var tfstateOk := infra.tfstateBucket(buckets);
      if !tfstateOk {
        problems := problems + 1;
      }

      trace := trace + [HandleTflocksTable];
      var tflocksOk := infra.tflocksTable;
      if !tflocksOk {
        problems := problems + 1;
      }
      OccurrencesOfThree(releaseOk, tfstateOk, tflocksOk, false);

      errorStream := errorStream + [Blank];
      if problems > 0 {
        errorStream := errorStream + [SetupHint];
      }

      ok := problems == 0;
    }

    /** Runs before the release to check the configuration and the AWS resources. */
    method ConfigureRelease(request: ConfigureReleaseRequest, response: ConfigureReleaseResponse)
      returns (err: Option<string>)
      modifies this`errorStream, this`trace, response
      ensures
        var o := Configure(old(response.success), old(response.additionalMetadata),
                           getTeam(TeamValue(request.config)),
                           checkInputConfiguration(request.config, request.env), infra);
        && response.success == o.success
        && response.additionalMetadata == o.metadata
        && errorStream == old(errorStream) + o.messages
        && trace == old(trace) + o.calls
      ensures err == None
    {
      trace := trace + [GetTeam];
      var team := getTeam(TeamValue(request.config));
      if team.Failure? {
        response.success := false;
        errorStream := errorStream + [TeamError(team.error)];
        return None;
      }

      response.additionalMetadata := response.additionalMetadata["team" := team.value];

      trace := trace + [CheckInputConfiguration];
      if !checkInputConfiguration(request.config, request.env) {
        response.success := false;
        return None;
      }

      var resourcesOk := CheckAWSResources();
      if !resourcesOk {
        response.success := false;
        return None;
      }

      return None;
    }
  }

  // ---------------------------------------------------------------------
  // Environment helpers
  // ---------------------------------------------------------------------

  /** The AWS credentials handed to a build (the SDK's credentials.Value). */
  datatype Credentials = Credentials(
    accessKeyID: string,
    secretAccessKey: string,
    sessionToken: string)

  const AccessKeyIdVar := "AWS_ACCESS_KEY_ID"
  const SecretAccessKeyVar := "AWS_SECRET_ACCESS_KEY"
  const SessionTokenVar := "AWS_SESSION_TOKEN"
  const RegionVar := "AWS_REGION"                // read by the Java and Go SDKs
  const DefaultRegionVar := "AWS_DEFAULT_REGION" // read by the Python and Node SDKs

  const AWSVariables: set<string> :=
    {AccessKeyIdVar, SecretAccessKeyVar, SessionTokenVar, RegionVar, DefaultRegionVar}

  /** Prefix of the caller's environment entries passed through for docker auth. */
  const DockerAuthPrefix := "CDFLOW2_DOCKER_AUTH_"

  /** The specification of setAWSEnvironmentVariables: `env` with the five AWS keys set. */
  function WithAWSVariables(env: map<string, string>, creds: Credentials, region: string)
    : (r: map<string, string>)
    ensures r.Keys == env.Keys + AWSVariables
    ensures r[AccessKeyIdVar] == creds.accessKeyID
    ensures r[SecretAccessKeyVar] == creds.secretAccessKey
    ensures r[SessionTokenVar] == creds.sessionToken
    ensures r[RegionVar] == region && r[DefaultRegionVar] == region
    ensures forall k :: k in env && k !in AWSVariables ==> r[k] == env[k]
  {
    env[AccessKeyIdVar := creds.accessKeyID]
       [SecretAccessKeyVar := creds.secretAccessKey]
       [SessionTokenVar := creds.sessionToken]
       [RegionVar := region]
       [DefaultRegionVar := region]
  }

  /** Setting the AWS variables twice with the same values changes nothing more. */
  lemma WithAWSVariablesIdempotent(env: map<string, string>, creds: Credentials, region: string)
    ensures WithAWSVariables(WithAWSVariables(env, creds, region), creds, region)
         == WithAWSVariables(env, creds, region)
  {
  }

  /** The request entries that are passed through: those whose key starts with DockerAuthPrefix. */
  function DockerAuthEntries(reqEnv: map<string, string>): (entries: map<string, string>)
  {
    map k | k in reqEnv && DockerAuthPrefix <= k :: reqEnv[k]
  }

  /** The specification of setCdflowDockerAuthVariables: `respEnv` with every
      docker-auth entry of `reqEnv` copied in. */
  function WithDockerAuth(respEnv: map<string, string>, reqEnv: map<string, string>)
    : (r: map<string, string>)
    ensures r.Keys == respEnv.Keys + set k | k in reqEnv && DockerAuthPrefix <= k
    ensures forall k :: k in reqEnv && DockerAuthPrefix <= k ==> r[k] == reqEnv[k]
    ensures forall k :: k in respEnv && !(k in reqEnv && DockerAuthPrefix <= k) ==> r[k] == respEnv[k]
  {
    respEnv + DockerAuthEntries(reqEnv)
  }

  /** Copying the docker-auth entries a second time changes nothing. */
  lemma WithDockerAuthIdempotent(respEnv: map<string, string>, reqEnv: map<string, string>)
    ensures WithDockerAuth(WithDockerAuth(respEnv, reqEnv), reqEnv) == WithDockerAuth(respEnv, reqEnv)
  {
  }

  /** A Go `map[string]string` that the helpers update in place. */
  class EnvMap {
    var vars: map<string, string>

    constructor (vars: map<string, string>)
      ensures this.vars == vars
    {
      this.vars := vars;
    }

    /** Writes the credentials and the region (under both region names). */
    method SetAWSEnvironmentVariables(creds: Credentials, region: string)
      modifies this
      ensures vars == WithAWSVariables(old(vars), creds, region)
    {
      vars := vars[AccessKeyIdVar := creds.accessKeyID];
      vars := vars[SecretAccessKeyVar := creds.secretAccessKey];
      vars := vars[SessionTokenVar := creds.sessionToken];
      vars := vars[RegionVar := region];
      vars := vars[DefaultRegionVar := region];
    }

    /** Copies every docker-auth entry of `reqEnv`; keys are visited in an
        arbitrary order, as Go's map iteration does. */
    method SetCdflowDockerAuthVariables(reqEnv: map<string, string>)
      modifies this
      ensures vars == WithDockerAuth(old(vars), reqEnv)
    {
      var pending := reqEnv.Keys;
      while pending != {}
        invariant pending <= reqEnv.Keys
        invariant vars == old(vars) + DockerAuthEntries(reqEnv - pending)
        decreases pending
      {
        var key :| key in pending;
        var element := reqEnv[key];
        ghost var before := DockerAuthEntries(reqEnv - pending);
        if DockerAuthPrefix <= key {
          vars := vars[key := element];
        }
        pending := pending - {key};
        assert DockerAuthEntries(reqEnv - pending) ==
          if DockerAuthPrefix <= key then before[key := element] else before;
      }
      assert reqEnv - pending == reqEnv;
    }
  }
}
