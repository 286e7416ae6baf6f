/**
 * Environment management for the web front end (`utils/environment.ts`):
 * which deployment environment the page runs in, the configuration that
 * follows from it, and the validation of the build-time variables.
 *
 * The build-time variables (`import.meta.env`) are a record of strings in
 * which "" stands for both an unset and an empty variable (the source tests
 * them for truthiness only). The browser location is an `Option`: `None`
 * when there is no `window`. URL parsing (`new URL(url)`) is a parameter.
 */
module Environment {
  import opened Calls
  import opened Text

  datatype Env = Sandbox | Staging | Production | Development

  /** The `PUBLIC_*` variables the module reads. */
  datatype EnvVars = EnvVars(
    amplifyEnv: string,
    awsRegion: string,
    appsyncUrl: string,
    s3Bucket: string,
    userPoolId: string,
    userPoolClientId: string,
    demoMode: string)

  /** `window.location`: its hostname and its full href. */
  datatype Location = Location(hostname: string, href: string)

  datatype Features = Features(imageProcessing: bool, realTimeUpdates: bool, analytics: bool, errorReporting: bool)

  datatype EnvironmentConfig = EnvironmentConfig(
    environment: Env,
    region: string,
    isProduction: bool,
    isStaging: bool,
    isDevelopment: bool,
    isSandbox: bool,
    apiUrl: string,
    s3Bucket: string,
    cognitoUserPoolId: string,
    cognitoClientId: string,
    demoMode: bool,
    debugMode: bool,
    features: Features)

  // ---------------------------------------------------------------------
  // detectEnvironment

  /** One of the four environment names, spelled as the source spells them. */
  function EnvName(e: Env): string {
    match e
    case Sandbox => "sandbox"
    case Staging => "staging"
    case Production => "production"
    case Development => "development"
  }

  /** The environment an explicit `PUBLIC_AMPLIFY_ENV` names, if it names one. */
  function ExplicitEnv(s: string): (r: Option<Env>)
    ensures forall e :: EnvName(e) == s ==> r == Some(e)
    ensures r.Some? ==> EnvName(r.value) == s
  {
    if s == "sandbox" then Some(Sandbox)
    else if s == "staging" then Some(Staging)
    else if s == "production" then Some(Production)
    else if s == "development" then Some(Development)
    else None
  }

  predicate ProductionHint(l: Location) {
    Contains(l.hostname, "prod") || Contains(l.hostname, "production") || Contains(l.hostname, "app.")
    || Contains(l.href, "amazonaws.com") || Contains(l.href, "cloudfront.net")
  }

  predicate StagingHint(l: Location) {
    Contains(l.hostname, "staging") || Contains(l.hostname, "stg") || Contains(l.hostname, "preview")
    || Contains(l.href, "amplifyapp.com")
  }

  predicate DevelopmentHint(l: Location) {
    Contains(l.hostname, "localhost") || Contains(l.hostname, "127.0.0.1") || Contains(l.hostname, "dev")
    || Contains(l.href, "localhost:4321")
  }

  /**
   * `detectEnvironment`: an explicit environment name wins; otherwise the
   * location's hints are tried in the order production, staging, development,
   * and "sandbox" is the default, also when there is no window.
   */
  function DetectEnvironment(vars: EnvVars, window: Option<Location>): (r: Env)
    ensures ExplicitEnv(vars.amplifyEnv).Some? ==> r == ExplicitEnv(vars.amplifyEnv).value
    ensures ExplicitEnv(vars.amplifyEnv).None? && window.None? ==> r == Sandbox
    ensures ExplicitEnv(vars.amplifyEnv).None? && window.Some? ==>
      var l := window.value;
      && (r == Production <==> ProductionHint(l))
      && (r == Staging <==> !ProductionHint(l) && StagingHint(l))
      && (r == Development <==> !ProductionHint(l) && !StagingHint(l) && DevelopmentHint(l))
      && (r == Sandbox <==> !ProductionHint(l) && !StagingHint(l) && !DevelopmentHint(l))
  {
    match ExplicitEnv(vars.amplifyEnv)
    case Some(e) => e
    case None =>
      match window
      case None => Sandbox
      case Some(l) =>
        if ProductionHint(l) then Production
        else if StagingHint(l) then Staging
        else if DevelopmentHint(l) then Development
        else Sandbox
  }

  /** The variables of a test run that sets nothing. */
  function Unset(): EnvVars {
    EnvVars("", "", "", "", "", "", "")
  }

  function LocalDevServer(): Location {
    Location("localhost", "http://localhost:4321")
  }

  function AppHost(): Location {
    Location("app.example.com", "https://app.example.com")
  }

  function StagingHost(): Location {
    Location("staging.example.com", "https://staging.example.com")
  }

  lemma LocalHostnameHints()
    ensures !Contains("localhost", "prod") && !Contains("localhost", "production") && !Contains("localhost", "app.")
    ensures !Contains("localhost", "staging") && !Contains("localhost", "stg") && !Contains("localhost", "preview")
    ensures Contains("localhost", "localhost")
  {
    MissingCharNotContained("localhost", "prod", 'p');
    MissingCharNotContained("localhost", "production", 'p');
    MissingCharNotContained("localhost", "app.", 'p');
    MissingCharNotContained("localhost", "staging", 'g');
    MissingCharNotContained("localhost", "stg", 'g');
    MissingCharNotContained("localhost", "preview", 'v');
    ContainsOccurs("localhost", "localhost", 0);
  }

  /**
   * An href without 'z', 'f' or 'y' names none of the hosted-deployment
   * domains ("amazonaws.com", "cloudfront.net", "amplifyapp.com").
   */
  lemma NoHostedDomain(href: string)
    requires 'z' !in href && 'f' !in href && 'y' !in href
    ensures !Contains(href, "amazonaws.com")
    ensures !Contains(href, "cloudfront.net")
    ensures !Contains(href, "amplifyapp.com")
  {
    MissingCharNotContained(href, "amazonaws.com", 'z');
    MissingCharNotContained(href, "cloudfront.net", 'f');
    MissingCharNotContained(href, "amplifyapp.com", 'y');
  }

  /** The local dev server's href names none of the hosted-deployment domains. */
  lemma LocalHrefHints()
    ensures !Contains("http://localhost:4321", "amazonaws.com")
    ensures !Contains("http://localhost:4321", "cloudfront.net")
    ensures !Contains("http://localhost:4321", "amplifyapp.com")
  {
    NoHostedDomain("http://localhost:4321");
  }

  /** The local dev server, the default location of the environment tests, is development. */
  lemma DetectsLocalhostAsDevelopment()
    ensures DetectEnvironment(Unset(), Some(LocalDevServer())) == Development
  {
    LocalHostnameHints();
    LocalHrefHints();
  }

  /** The tests' host app.example.com, whose name contains "app.", is production. */
  lemma DetectsAppHostAsProduction()
    ensures DetectEnvironment(Unset(), Some(AppHost())) == Production
  {
    ContainsOccurs(AppHost().hostname, "app.", 0);
  }

  lemma StagingHostnameHints()
    ensures !Contains("staging.example.com", "prod") && !Contains("staging.example.com", "production")
    ensures Contains("staging.example.com", "staging")
  {
    MissingCharNotContained("staging.example.com", "prod", 'r');
    MissingCharNotContained("staging.example.com", "production", 'r');
    ContainsOccurs("staging.example.com", "staging", 0);
  }

  lemma StagingHostnameHasNoAppLabel()
    ensures !Contains("staging.example.com", "app.")
  {
    // "app." needs two consecutive 'p's; the host's only 'p' starts "ple.com".
    assert "staging.example.com" == "staging.exam" + "ple.com";
    DoubledCharNotContained("staging.exam", "ple.com", "app.", 1, 'p');
  }

  lemma StagingHrefHints()
    ensures !Contains("https://staging.example.com", "amazonaws.com")
    ensures !Contains("https://staging.example.com", "cloudfront.net")
  {
    MissingCharNotContained("https://staging.example.com", "amazonaws.com", 'z');
    MissingCharNotContained("https://staging.example.com", "cloudfront.net", 'f');
  }

  /** A host containing "staging" and no production hint is staging. */
  lemma DetectsStagingHost()
    ensures DetectEnvironment(Unset(), Some(StagingHost())) == Staging
  {
    StagingHostnameHints();
    StagingHostnameHasNoAppLabel();
    StagingHrefHints();
  }

  /** An explicit "production" wins over a localhost location. */
  lemma ExplicitEnvWins()
    ensures DetectEnvironment(Unset().(amplifyEnv := "production"), Some(LocalDevServer())) == Production
  {
  }

  // ---------------------------------------------------------------------
  // getEnvironmentConfig

  /** The per-environment part of the configuration: `debugMode` and the features. */
  datatype Overrides = Overrides(debugMode: bool, features: Features)

  function EnvironmentOverrides(e: Env): Overrides {
    match e
    case Development => Overrides(true, Features(false, true, false, false))
    case Sandbox => Overrides(true, Features(true, true, false, true))
    case Staging => Overrides(false, Features(true, true, true, true))
    case Production => Overrides(false, Features(true, true, true, true))
  }

  /** `a || b` on strings: the first operand unless it is empty. */
  function OrElse(a: string, b: string): string {
    if a != "" then a else b
  }

  predicate ExactlyOneFlag(c: EnvironmentConfig) {
    (if c.isProduction then 1 else 0) + (if c.isStaging then 1 else 0)
    + (if c.isDevelopment then 1 else 0) + (if c.isSandbox then 1 else 0) == 1
  }

  /**
   * `getEnvironmentConfig`: exactly one environment flag is set and it names
   * the detected environment; debug mode is on exactly in development and
   * sandbox, analytics exactly in staging and production, and the region
   * defaults to eu-west-2.
   */
  function GetEnvironmentConfig(vars: EnvVars, window: Option<Location>): (c: EnvironmentConfig)
    ensures c.environment == DetectEnvironment(vars, window)
    ensures ExactlyOneFlag(c)
    ensures c.isProduction <==> c.environment == Production
    ensures c.isStaging <==> c.environment == Staging
    ensures c.isDevelopment <==> c.environment == Development
    ensures c.isSandbox <==> c.environment == Sandbox
    ensures c.debugMode <==> c.environment == Development || c.environment == Sandbox
    ensures c.features.analytics <==> c.environment == Staging || c.environment == Production
    ensures c.features.imageProcessing <==> c.environment != Development
    ensures c.features.errorReporting <==> c.environment != Development
    ensures c.features.realTimeUpdates
    ensures c.region != "" && (vars.awsRegion != "" ==> c.region == vars.awsRegion)
    ensures vars.awsRegion == "" ==> c.region == "eu-west-2"
    ensures c.apiUrl == vars.appsyncUrl && c.s3Bucket == vars.s3Bucket
    ensures c.cognitoUserPoolId == vars.userPoolId && c.cognitoClientId == vars.userPoolClientId
    ensures c.demoMode <==> vars.demoMode == "true"
  {
    var e := DetectEnvironment(vars, window);
    var o := EnvironmentOverrides(e);
    EnvironmentConfig(
      e, OrElse(vars.awsRegion, "eu-west-2"),
      e == Production, e == Staging, e == Development, e == Sandbox,
      vars.appsyncUrl, vars.s3Bucket, vars.userPoolId, vars.userPoolClientId,
      vars.demoMode == "true", o.debugMode, o.features)
  }

  // ---------------------------------------------------------------------
  // validateEnvironment

  datatype RequiredVar = RequiredVar(value: string, name: string)

  /** The required variables, in the order they are checked. */
  function RequiredVars(c: EnvironmentConfig): seq<RequiredVar> {
    [RequiredVar(c.apiUrl, "PUBLIC_APPSYNC_URL"),
     RequiredVar(c.s3Bucket, "PUBLIC_S3_BUCKET"),
     RequiredVar(c.cognitoUserPoolId, "PUBLIC_COGNITO_USER_POOL_ID"),
     RequiredVar(c.cognitoClientId, "PUBLIC_COGNITO_USER_POOL_CLIENT_ID")]
  }

  function MissingMessage(name: string): string {
    "Missing required environment variable: " + name
  }

  /** One "missing" message per empty variable, in the variables' order. */
  function MissingErrors(reqs: seq<RequiredVar>): (r: seq<string>)
    ensures |r| <= |reqs|
  {
    if reqs == [] then []
    else
      var last := reqs[|reqs| - 1];
      MissingErrors(reqs[..|reqs| - 1]) + (if last.value == "" then [MissingMessage(last.name)] else [])
  }

  function ValidRegions(): seq<string> {
    ["us-east-1", "us-west-2", "eu-west-1", "eu-west-2", "ap-southeast-1"]
  }

  function UrlError(url: string): string {
    "Invalid API URL: " + url
  }

  function RegionError(region: string): string {
    "Invalid AWS region: " + region
  }

  /** The errors `validateEnvironment` reports for a configuration, in order. */
  function ValidationErrors(c: EnvironmentConfig, isValidUrl: string -> bool): seq<string> {
    MissingErrors(RequiredVars(c))
    + (if c.apiUrl != "" && !isValidUrl(c.apiUrl) then [UrlError(c.apiUrl)] else [])
    + (if c.region != "" && c.region !in ValidRegions() then [RegionError(c.region)] else [])
  }

  datatype Validation = Validation(isValid: bool, errors: seq<string>)

  /**
   * `validateEnvironment`: a loop over the required variables, then the URL
   * and region checks; the result is valid exactly when no error was found.
   */
  method ValidateEnvironment(vars: EnvVars, window: Option<Location>, isValidUrl: string -> bool)
    returns (v: Validation)
    ensures v.errors == ValidationErrors(GetEnvironmentConfig(vars, window), isValidUrl)
    ensures v.isValid <==> v.errors == []
  {
    var config := GetEnvironmentConfig(vars, window);
    var errors: seq<string> := [];
    var requiredVars := RequiredVars(config);
    for i := 0 to |requiredVars|
      invariant errors == MissingErrors(requiredVars[..i])
    {
      assert requiredVars[..i + 1][..i] == requiredVars[..i];
      if requiredVars[i].value == "" {
        errors := errors + [MissingMessage(requiredVars[i].name)];
      }
    }
    assert requiredVars[..|requiredVars|] == requiredVars;
    if config.apiUrl != "" && !isValidUrl(config.apiUrl) {
      errors := errors + [UrlError(config.apiUrl)];
    }
    if config.region != "" && config.region !in ValidRegions() {
      errors := errors + [RegionError(config.region)];
    }
    v := Validation(|errors| == 0, errors);
  }

  /** Every missing-variable message names a required variable whose value is empty, and each such variable has one. */
  lemma {:induction false} MissingErrorsExact(reqs: seq<RequiredVar>)
    ensures forall m :: m in MissingErrors(reqs) <==>
      exists k :: 0 <= k < |reqs| && reqs[k].value == "" && m == MissingMessage(reqs[k].name)
  {
    if reqs != [] {
      var init := reqs[..|reqs| - 1];
      MissingErrorsExact(init);
      forall m ensures m in MissingErrors(reqs) <==>
        exists k :: 0 <= k < |reqs| && reqs[k].value == "" && m == MissingMessage(reqs[k].name)
      {
        if exists k :: 0 <= k < |reqs| && reqs[k].value == "" && m == MissingMessage(reqs[k].name) {
          var k :| 0 <= k < |reqs| && reqs[k].value == "" && m == MissingMessage(reqs[k].name);
          if k < |reqs| - 1 {
            assert init[k] == reqs[k];
          }
        }
      }
    }
  }

  /** No missing-variable message is a URL or region message. */
  lemma MissingIsNotOther(reqs: seq<RequiredVar>, url: string, region: string)
    ensures UrlError(url) !in MissingErrors(reqs)
    ensures RegionError(region) !in MissingErrors(reqs)
  {
    MissingErrorsExact(reqs);
    forall k | 0 <= k < |reqs|
      ensures MissingMessage(reqs[k].name) != UrlError(url)
      ensures MissingMessage(reqs[k].name) != RegionError(region)
    {
      assert MissingMessage(reqs[k].name)[0] == 'M';
      assert UrlError(url)[0] == 'I';
      assert RegionError(region)[0] == 'I';
    }
  }

  /** The region error appears exactly when a region is set and is not one of the five supported ones. */
  lemma RegionErrorIff(c: EnvironmentConfig, isValidUrl: string -> bool)
    ensures RegionError(c.region) in ValidationErrors(c, isValidUrl) <==> c.region != "" && c.region !in ValidRegions()
  {
    MissingIsNotOther(RequiredVars(c), c.apiUrl, c.region);
    assert UrlError(c.apiUrl) != RegionError(c.region) by {
      assert UrlError(c.apiUrl)[9] == 'P';
      assert RegionError(c.region)[9] == 'W';
    }
  }

  /** A configuration with every required variable set, a parseable URL and the default region is valid. */
  lemma CompleteConfigIsValid(vars: EnvVars, window: Option<Location>, isValidUrl: string -> bool)
    requires vars.appsyncUrl != "" && vars.s3Bucket != "" && vars.userPoolId != "" && vars.userPoolClientId != ""
    requires isValidUrl(vars.appsyncUrl)
    requires vars.awsRegion == "" || vars.awsRegion in ValidRegions()
    ensures ValidationErrors(GetEnvironmentConfig(vars, window), isValidUrl) == []
  {
    var reqs := RequiredVars(GetEnvironmentConfig(vars, window));
    MissingErrorsPrefixes(reqs);
  }

  /** With nothing set, validation fails with the four missing-variable messages. */
  lemma NothingSetIsInvalid(window: Option<Location>, isValidUrl: string -> bool)
    ensures ValidationErrors(GetEnvironmentConfig(Unset(), window), isValidUrl)
            == [MissingMessage("PUBLIC_APPSYNC_URL"), MissingMessage("PUBLIC_S3_BUCKET"),
                MissingMessage("PUBLIC_COGNITO_USER_POOL_ID"), MissingMessage("PUBLIC_COGNITO_USER_POOL_CLIENT_ID")]
  {
    var reqs := RequiredVars(GetEnvironmentConfig(Unset(), window));
    MissingErrorsPrefixes(reqs);
  }

  /** The four steps of `MissingErrors` on a list of four variables. */
  lemma MissingErrorsPrefixes(reqs: seq<RequiredVar>)
    requires |reqs| == 4
    ensures MissingErrors(reqs) ==
      (if reqs[0].value == "" then [MissingMessage(reqs[0].name)] else [])
      + (if reqs[1].value == "" then [MissingMessage(reqs[1].name)] else [])
      + (if reqs[2].value == "" then [MissingMessage(reqs[2].name)] else [])
      + (if reqs[3].value == "" then [MissingMessage(reqs[3].name)] else [])
  {
    var e0 := if reqs[0].value == "" then [MissingMessage(reqs[0].name)] else [];
    var e1 := if reqs[1].value == "" then [MissingMessage(reqs[1].name)] else [];
    var e2 := if reqs[2].value == "" then [MissingMessage(reqs[2].name)] else [];
    var e3 := if reqs[3].value == "" then [MissingMessage(reqs[3].name)] else [];
    assert MissingErrors(reqs[..1]) == e0 by {
      assert reqs[..1][..0] == [];
    }
    assert MissingErrors(reqs[..2]) == e0 + e1 by {
      assert reqs[..2][..1] == reqs[..1];
    }
    assert MissingErrors(reqs[..3]) == e0 + e1 + e2 by {
      assert reqs[..3][..2] == reqs[..2];
    }
    assert reqs[..|reqs| - 1] == reqs[..3];
  }

  /** An unparseable API URL is reported as such. */
  lemma BadUrlIsReported(vars: EnvVars, window: Option<Location>, isValidUrl: string -> bool)
    requires vars.appsyncUrl != "" && !isValidUrl(vars.appsyncUrl)
    ensures UrlError(vars.appsyncUrl) in ValidationErrors(GetEnvironmentConfig(vars, window), isValidUrl)
  {
  }

  // ---------------------------------------------------------------------
  // initializeEnvironment

  /**
   * `initializeEnvironment`: validates, and throws only when validation fails
   * in production; otherwise it returns the configuration.
   */
  method InitializeEnvironment(vars: EnvVars, window: Option<Location>, isValidUrl: string -> bool)
    returns (r: Call<EnvironmentConfig>)
    ensures var c := GetEnvironmentConfig(vars, window);
      var errors := ValidationErrors(c, isValidUrl);
      && (r.Rejected? <==> errors != [] && c.isProduction)
      && (r.Resolved? ==> r.value == c)
      && (r.Rejected? ==> r.thrown == ErrorObject("Environment validation failed: " + Join(errors, ", ")))
  {
    var config := GetEnvironmentConfig(vars, window);
    var validation := ValidateEnvironment(vars, window, isValidUrl);
    if !validation.isValid && config.isProduction {
      return Call.Rejected(ErrorObject("Environment validation failed: " + Join(validation.errors, ", ")));
    }
    return Resolved(config);
  }

  // ---------------------------------------------------------------------
  // Derived configurations

  datatype FeatureFlags = FeatureFlags(
    features: Features,
    enableImageProcessing: bool,
    enableRealTimeUpdates: bool,
    enableAnalytics: bool,
    enableErrorReporting: bool,
    enableDebugLogging: bool,
    enablePerformanceMonitoring: bool)

  /**
   * `getFeatureFlags`: analytics only in production, image processing and
   * real-time updates never in demo mode, error reporting never in development.
   */
  function GetFeatureFlags(vars: EnvVars, window: Option<Location>): (f: FeatureFlags)
    ensures var c := GetEnvironmentConfig(vars, window);
      && f.features == c.features
      && (f.enableAnalytics <==> c.environment == Production)
      && (f.enableImageProcessing <==> c.environment != Development && !c.demoMode)
      && (f.enableRealTimeUpdates <==> !c.demoMode)
      && (f.enableErrorReporting <==> c.environment != Development)
      && (f.enableDebugLogging <==> c.environment == Development || c.environment == Sandbox)
      && (f.enablePerformanceMonitoring <==> c.environment == Production || c.environment == Staging)
  {
    var c := GetEnvironmentConfig(vars, window);
    FeatureFlags(
      c.features,
      c.features.imageProcessing && !c.demoMode,
      c.features.realTimeUpdates && !c.demoMode,
      c.features.analytics && c.isProduction,
      c.features.errorReporting && !c.isDevelopment,
      c.debugMode,
      c.isProduction || c.isStaging)
  }

  datatype ApiEndpoints = ApiEndpoints(graphql: string, rest: string, websocket: string)

  /**
   * `getApiEndpoints`: the GraphQL URL as configured, its first "/graphql"
   * replaced by "/rest" for REST, and its first "https://" replaced by "wss://"
   * for the websocket (the second replacement there swaps "/graphql" for
   * itself and so changes nothing).
   */
  function GetApiEndpoints(vars: EnvVars, window: Option<Location>): (r: ApiEndpoints)
    ensures r.graphql == vars.appsyncUrl
    ensures r.rest == ReplaceFirst(vars.appsyncUrl, "/graphql", "/rest")
    ensures !Contains(vars.appsyncUrl, "/graphql") ==> r.rest == vars.appsyncUrl
    ensures r.websocket == ReplaceFirst(vars.appsyncUrl, "https://", "wss://")
  {
    var url := GetEnvironmentConfig(vars, window).apiUrl;
    ReplaceByItself(ReplaceFirst(url, "https://", "wss://"), "/graphql");
    ApiEndpoints(url, ReplaceFirst(url, "/graphql", "/rest"),
                 ReplaceFirst(ReplaceFirst(url, "https://", "wss://"), "/graphql", "/graphql"))
  }

  /** For an https URL, the websocket endpoint is the same URL over wss. */
  lemma HttpsBecomesWss(vars: EnvVars, window: Option<Location>)
    requires |vars.appsyncUrl| >= 8 && vars.appsyncUrl[..8] == "https://"
    ensures GetApiEndpoints(vars, window).websocket == "wss://" + vars.appsyncUrl[8..]
  {
    ReplaceLeading(vars.appsyncUrl, "https://", "wss://");
  }

  datatype LoggingConfig = LoggingConfig(
    level: string,
    enableConsole: bool,
    enableRemote: bool,
    enablePerformance: bool,
    maxLogEntries: nat)

  /** `getLoggingConfig`: production logs errors only, to a short buffer and not to the console. */
  function GetLoggingConfig(vars: EnvVars, window: Option<Location>): (r: LoggingConfig)
    ensures var e := DetectEnvironment(vars, window);
      && (r.level == "error" <==> e == Production)
      && (r.level == "debug" <==> e != Production)
      && (r.enableConsole <==> e != Production)
      && (r.enableRemote <==> e != Development)
      && (r.enablePerformance <==> e == Production || e == Staging)
      && r.maxLogEntries == (if e == Production then 100 else 1000)
  {
    var c := GetEnvironmentConfig(vars, window);
    LoggingConfig(
      if c.isProduction then "error" else "debug",
      !c.isProduction,
      c.features.errorReporting,
      c.isProduction || c.isStaging,
      if c.isProduction then 100 else 1000)
  }

  datatype ImageProcessingConfig = ImageProcessingConfig(
    enabled: bool,
    maxFileSize: nat,
    allowedTypes: seq<string>,
    quality: nat,
    maxWidth: nat,
    maxHeight: nat,
    thumbnailSize: nat,
    enableWebP: bool,
    enableProgressive: bool)

  /** `getImageProcessingConfig`: production allows larger files and images at higher quality. */
  function GetImageProcessingConfig(vars: EnvVars, window: Option<Location>): (r: ImageProcessingConfig)
    ensures var e := DetectEnvironment(vars, window);
      && (r.enabled <==> e != Development)
      && r.maxFileSize == (if e == Production then 10 * 1024 * 1024 else 5 * 1024 * 1024)
      && r.allowedTypes == ["image/jpeg", "image/png", "image/webp"]
      && r.quality == (if e == Production then 90 else 85)
      && r.maxWidth == (if e == Production then 2560 else 1920)
      && r.maxHeight == (if e == Production then 1440 else 1080)
      && r.thumbnailSize == 400
      && (r.enableWebP <==> e == Production || e == Staging)
      && (r.enableProgressive <==> e == Production)
  {
    var c := GetEnvironmentConfig(vars, window);
    ImageProcessingConfig(
      c.features.imageProcessing,
      if c.isProduction then 10 * 1024 * 1024 else 5 * 1024 * 1024,
      ["image/jpeg", "image/png", "image/webp"],
      if c.isProduction then 90 else 85,
      if c.isProduction then 2560 else 1920,
      if c.isProduction then 1440 else 1080,
      400,
      c.isProduction || c.isStaging,
      c.isProduction)
  }
}
