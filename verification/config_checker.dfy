/** The environment configuration checker: it derives the deployment context
    (environment, platform, base URL) from environment variables, runs four
    validators that append paired issue and recommendation messages to
    caller-owned lists, and renders a configuration guide with numbered lists
    and environment-variable templates.

    The process environment is an explicit `Env` parameter, and the outcome of
    `new URL(s)` (whether it parses) is the parameter `urlParses`. */
module ConfigChecker {
  import opened Common

  datatype Environment = Development | Production | Preview | Unknown
  datatype Platform = Vercel | Local | Other
  datatype DeploymentContext = DeploymentContext(environment: Environment, platform: Platform, baseUrl: string)
  datatype ConfigValidation = ConfigValidation(isValid: bool, issues: seq<Message>, recommendations: seq<Message>)

  /** What one validator appends: its issues and its recommendations, in order. */
  datatype Report = Report(issues: seq<Message>, recommendations: seq<Message>)

  const LocalOrigin := "http://localhost:3000"

  // ---------------------------------------------------------------------------
  // Deployment context

  /** `getDeploymentContext`: the platform is decided by the Vercel variables,
      the environment by VERCEL_ENV and then NODE_ENV. */
  function GetDeploymentContext(env: Env): (ctx: DeploymentContext)
    ensures ctx.platform == Vercel <==> Truthy(Get(env, "VERCEL_URL")) || Truthy(Get(env, "VERCEL_ENV"))
    ensures ctx.platform == Local <==>
      !Truthy(Get(env, "VERCEL_URL")) && !Truthy(Get(env, "VERCEL_ENV")) && Get(env, "NODE_ENV") == Some("development")
    ensures ctx.environment == Production <==> Get(env, "VERCEL_ENV") == Some("production")
    ensures ctx.environment == Preview <==> Get(env, "VERCEL_ENV") == Some("preview")
    ensures ctx.environment == Development <==>
      Get(env, "VERCEL_ENV") != Some("production") && Get(env, "VERCEL_ENV") != Some("preview")
      && Get(env, "NODE_ENV") == Some("development")
    ensures ctx.environment == Production || ctx.environment == Preview ==>
      ctx.baseUrl == "https://" + Interpolate(Get(env, "VERCEL_URL"))
    ensures ctx.environment == Development ==>
      ctx.baseUrl == (if Truthy(Get(env, "NEXTAUTH_URL")) then env["NEXTAUTH_URL"] else LocalOrigin)
    ensures ctx.environment == Unknown ==> ctx.baseUrl == LocalOrigin
  {
    var nodeEnv := Get(env, "NODE_ENV");
    var vercelEnv := Get(env, "VERCEL_ENV");
    var vercelUrl := Get(env, "VERCEL_URL");
    var platform :=
      if Truthy(vercelUrl) || Truthy(vercelEnv) then Vercel
      else if nodeEnv == Some("development") then Local
      else Other;
    if vercelEnv == Some("production") then
      DeploymentContext(Production, platform, "https://" + Interpolate(vercelUrl))
    else if vercelEnv == Some("preview") then
      DeploymentContext(Preview, platform, "https://" + Interpolate(vercelUrl))
    else if nodeEnv == Some("development") then
      DeploymentContext(Development, platform, Or(Get(env, "NEXTAUTH_URL"), LocalOrigin))
    else
      DeploymentContext(Unknown, platform, LocalOrigin)
  }

  /** The two decisions agree: a production or preview deployment is always on
      Vercel, and a local platform always means the development environment. */
  lemma ContextIsConsistent(env: Env)
    ensures var ctx := GetDeploymentContext(env);
      (ctx.environment == Production || ctx.environment == Preview ==> ctx.platform == Vercel)
      && (ctx.platform == Local ==> ctx.environment == Development)
  {
  }

  // ---------------------------------------------------------------------------
  // The messages

  /** The messages the validators push; `Text` gives each one's exact wording. */
  datatype Message =
    | NextAuthUrlMissing | SetNextAuthUrl
    | NextAuthUrlLocalhost | NextAuthUrlUseDomain
    | NextAuthUrlHttp | NextAuthUrlUseHttps
    | NextAuthUrlInvalid | NextAuthUrlFormat
    | ApiUrlMissing | SetApiUrl
    | ApiUrlLocalhost | ApiUrlUseDomain
    | RelativeApiHint
    | ClientIdIssue | ClientIdFix
    | ClientSecretIssue | ClientSecretFix
    | OAuthProductionIssue | OAuthProductionFix
    | EnvironmentMismatch(nodeEnv: Option<string>, publicEnv: Option<string>) | ConsistencyFix
    | SecretProductionIssue | SecretProductionFix
    | SecretHint

  function Text(m: Message): string {
    match m
    case NextAuthUrlMissing => "NEXTAUTH_URL is not set"
    case SetNextAuthUrl => "Set NEXTAUTH_URL environment variable"
    case NextAuthUrlLocalhost => "NEXTAUTH_URL contains localhost in production environment"
    case NextAuthUrlUseDomain => "Update NEXTAUTH_URL to use production domain"
    case NextAuthUrlHttp => "NEXTAUTH_URL uses HTTP in production (should use HTTPS)"
    case NextAuthUrlUseHttps => "Update NEXTAUTH_URL to use HTTPS for production"
    case NextAuthUrlInvalid => "NEXTAUTH_URL is not a valid URL"
    case NextAuthUrlFormat => "Ensure NEXTAUTH_URL is a properly formatted URL"
    case ApiUrlMissing => "NEXT_PUBLIC_API_URL is not set"
    case SetApiUrl => "Set NEXT_PUBLIC_API_URL environment variable"
    case ApiUrlLocalhost => "NEXT_PUBLIC_API_URL contains localhost in production"
    case ApiUrlUseDomain => "Update NEXT_PUBLIC_API_URL to use production domain or relative paths"
    case RelativeApiHint =>
      "Consider using relative paths for API calls (e.g., \"/api\") instead of absolute URLs for better portability"
    case ClientIdIssue => "Google OAuth Client ID is not properly configured"
    case ClientIdFix => "Configure GOOGLE_CLIENT_ID with actual Google OAuth credentials"
    case ClientSecretIssue => "Google OAuth Client Secret is not properly configured"
    case ClientSecretFix => "Configure GOOGLE_CLIENT_SECRET with actual Google OAuth credentials"
    case OAuthProductionIssue => "OAuth credentials missing in production environment"
    case OAuthProductionFix => "Ensure OAuth credentials are set in production environment variables"
    case EnvironmentMismatch(nodeEnv, publicEnv) =>
      "Environment mismatch: NODE_ENV=" + Interpolate(nodeEnv) + ", NEXT_PUBLIC_ENVIRONMENT=" + Interpolate(publicEnv)
    case ConsistencyFix => "Ensure NODE_ENV and NEXT_PUBLIC_ENVIRONMENT are consistent"
    case SecretProductionIssue => "NEXTAUTH_SECRET is not set or using default value in production"
    case SecretProductionFix => "Set a secure NEXTAUTH_SECRET in production environment"
    case SecretHint => "Set a unique NEXTAUTH_SECRET for better security"
  }

  /** The wording of a list of messages, in order. */
  function Texts(ms: seq<Message>): (r: seq<string>)
    ensures |r| == |ms| && forall i :: 0 <= i < |ms| ==> r[i] == Text(ms[i])
  {
    seq(|ms|, i requires 0 <= i < |ms| => Text(ms[i]))
  }

  /** The one-element list `[m]` when `c` holds, else the empty list. */
  function When(c: bool, m: Message): seq<Message> {
    if c then [m] else []
  }

  // ---------------------------------------------------------------------------
  // What each validator appends

  function NextAuthUrlReport(ctx: DeploymentContext, env: Env, urlParses: string -> bool): Report {
    var url := Get(env, "NEXTAUTH_URL");
    if !Truthy(url) then Report([NextAuthUrlMissing], [SetNextAuthUrl])
    else
      var local := ctx.environment == Production && Contains(url.value, "localhost");
      var http := ctx.environment == Production && StartsWith(url.value, "http:");
      var invalid := !urlParses(url.value);
      Report(When(local, NextAuthUrlLocalhost) + When(http, NextAuthUrlHttp) + When(invalid, NextAuthUrlInvalid),
             When(local, NextAuthUrlUseDomain) + When(http, NextAuthUrlUseHttps) + When(invalid, NextAuthUrlFormat))
  }

  function ApiUrlReport(ctx: DeploymentContext, env: Env): Report {
    var api := Get(env, "NEXT_PUBLIC_API_URL");
    if !Truthy(api) then Report([ApiUrlMissing], [SetApiUrl])
    else
      var local := ctx.environment == Production && Contains(api.value, "localhost");
      Report(When(local, ApiUrlLocalhost),
             When(local, ApiUrlUseDomain) + When(StartsWith(api.value, "http"), RelativeApiHint))
  }

  function OAuthReport(ctx: DeploymentContext, env: Env): Report {
    var id := Get(env, "GOOGLE_CLIENT_ID");
    var secret := Get(env, "GOOGLE_CLIENT_SECRET");
    var badId := !Truthy(id) || id == Some("your-google-client-id");
    var badSecret := !Truthy(secret) || secret == Some("your-google-client-secret");
    var missing := ctx.environment == Production && (!Truthy(id) || !Truthy(secret));
    Report(When(badId, ClientIdIssue) + When(badSecret, ClientSecretIssue) + When(missing, OAuthProductionIssue),
           When(badId, ClientIdFix) + When(badSecret, ClientSecretFix) + When(missing, OAuthProductionFix))
  }

  /** Whether NEXTAUTH_SECRET is unset, empty or still the placeholder. */
  predicate SecretIsDefault(env: Env) {
    var secret := Get(env, "NEXTAUTH_SECRET");
    !Truthy(secret) || secret == Some("your-secret-here-replace-in-production")
  }

  function ConsistencyReport(ctx: DeploymentContext, env: Env): Report {
    var nodeEnv := Get(env, "NODE_ENV");
    var publicEnv := Get(env, "NEXT_PUBLIC_ENVIRONMENT");
    var mismatch := nodeEnv != publicEnv;
    var prod := ctx.environment == Production;
    Report(When(mismatch, EnvironmentMismatch(nodeEnv, publicEnv)) + When(SecretIsDefault(env) && prod, SecretProductionIssue),
           When(mismatch, ConsistencyFix)
           + (if SecretIsDefault(env) then (if prod then [SecretProductionFix] else [SecretHint]) else []))
  }

  /** The result of `validateConfiguration`, as a specification. */
  function Validation(env: Env, urlParses: string -> bool): ConfigValidation {
    var ctx := GetDeploymentContext(env);
    var a := NextAuthUrlReport(ctx, env, urlParses);
    var b := ApiUrlReport(ctx, env);
    var c := OAuthReport(ctx, env);
    var d := ConsistencyReport(ctx, env);
    var issues := a.issues + b.issues + c.issues + d.issues;
    ConfigValidation(|issues| == 0, issues, a.recommendations + b.recommendations + c.recommendations + d.recommendations)
  }

  // ---------------------------------------------------------------------------
  // The validators, which push onto caller-owned lists

  /** The `issues` and `recommendations` arrays owned by `validateConfiguration`. */
  class Collector {
    var issues: seq<Message>
    var recommendations: seq<Message>

    constructor ()
      ensures issues == [] && recommendations == []
    {
      issues := [];
      recommendations := [];
    }

    method PushIssue(s: Message)
      modifies this
      ensures issues == old(issues) + [s] && recommendations == old(recommendations)
    {
      issues := issues + [s];
    }

    method PushRecommendation(s: Message)
      modifies this
      ensures recommendations == old(recommendations) + [s] && issues == old(issues)
    {
      recommendations := recommendations + [s];
    }
  }

  method ValidateNextAuthUrl(ctx: DeploymentContext, env: Env, urlParses: string -> bool, out: Collector)
    modifies out
    ensures out.issues == old(out.issues) + NextAuthUrlReport(ctx, env, urlParses).issues
    ensures out.recommendations == old(out.recommendations) + NextAuthUrlReport(ctx, env, urlParses).recommendations
  {
    var url := Get(env, "NEXTAUTH_URL");
    if !Truthy(url) {
      out.PushIssue(NextAuthUrlMissing);
      out.PushRecommendation(SetNextAuthUrl);
      return;
    }
    if ctx.environment == Production && Contains(url.value, "localhost") {
      out.PushIssue(NextAuthUrlLocalhost);
      out.PushRecommendation(NextAuthUrlUseDomain);
    }
    if ctx.environment == Production && StartsWith(url.value, "http:") {
      out.PushIssue(NextAuthUrlHttp);
      out.PushRecommendation(NextAuthUrlUseHttps);
    }
    if !urlParses(url.value) {
      out.PushIssue(NextAuthUrlInvalid);
      out.PushRecommendation(NextAuthUrlFormat);
    }
  }

  method ValidateApiUrl(ctx: DeploymentContext, env: Env, out: Collector)
    modifies out
    ensures out.issues == old(out.issues) + ApiUrlReport(ctx, env).issues
    ensures out.recommendations == old(out.recommendations) + ApiUrlReport(ctx, env).recommendations
  {
    var api := Get(env, "NEXT_PUBLIC_API_URL");
    if !Truthy(api) {
      out.PushIssue(ApiUrlMissing);
      out.PushRecommendation(SetApiUrl);
      return;
    }
    if ctx.environment == Production && Contains(api.value, "localhost") {
      out.PushIssue(ApiUrlLocalhost);
      out.PushRecommendation(ApiUrlUseDomain);
    }
    if StartsWith(api.value, "http") {
      out.PushRecommendation(RelativeApiHint);
    }
  }

  method ValidateOAuthConfig(ctx: DeploymentContext, env: Env, out: Collector)
    modifies out
    ensures out.issues == old(out.issues) + OAuthReport(ctx, env).issues
    ensures out.recommendations == old(out.recommendations) + OAuthReport(ctx, env).recommendations
  {
    var id := Get(env, "GOOGLE_CLIENT_ID");
    var secret := Get(env, "GOOGLE_CLIENT_SECRET");
    if !Truthy(id) || id == Some("your-google-client-id") {
      out.PushIssue(ClientIdIssue);
      out.PushRecommendation(ClientIdFix);
    }
    if !Truthy(secret) || secret == Some("your-google-client-secret") {
      out.PushIssue(ClientSecretIssue);
      out.PushRecommendation(ClientSecretFix);
    }
    if ctx.environment == Production && (!Truthy(id) || !Truthy(secret)) {
      out.PushIssue(OAuthProductionIssue);
      out.PushRecommendation(OAuthProductionFix);
    }
  }

  method ValidateEnvironmentConsistency(ctx: DeploymentContext, env: Env, out: Collector)
    modifies out
    ensures out.issues == old(out.issues) + ConsistencyReport(ctx, env).issues
    ensures out.recommendations == old(out.recommendations) + ConsistencyReport(ctx, env).recommendations
  {
    var nodeEnv := Get(env, "NODE_ENV");
    var publicEnv := Get(env, "NEXT_PUBLIC_ENVIRONMENT");
    if nodeEnv != publicEnv {
      out.PushIssue(EnvironmentMismatch(nodeEnv, publicEnv));
      out.PushRecommendation(ConsistencyFix);
    }
    if SecretIsDefault(env) {
      if ctx.environment == Production {
        out.PushIssue(SecretProductionIssue);
        out.PushRecommendation(SecretProductionFix);
      } else {
        out.PushRecommendation(SecretHint);
      }
    }
  }

  /** `validateConfiguration`: runs the four validators in order over fresh
      lists; the configuration is valid exactly when no issue was found. */
  method ValidateConfiguration(env: Env, urlParses: string -> bool) returns (v: ConfigValidation)
    ensures v == Validation(env, urlParses)
    ensures v.isValid <==> v.issues == []
    ensures |v.recommendations| >= |v.issues|
  {
    var out := new Collector();
    var ctx := GetDeploymentContext(env);
    ghost var a, b, c, d := NextAuthUrlReport(ctx, env, urlParses), ApiUrlReport(ctx, env),
      OAuthReport(ctx, env), ConsistencyReport(ctx, env);
    ValidateNextAuthUrl(ctx, env, urlParses, out);
    assert out.issues == a.issues && out.recommendations == a.recommendations;
    ValidateApiUrl(ctx, env, out);
    ValidateOAuthConfig(ctx, env, out);
    ValidateEnvironmentConsistency(ctx, env, out);
    v := ConfigValidation(|out.issues| == 0, out.issues, out.recommendations);
    assert v == Validation(env, urlParses);
    RecommendationsCoverIssues(env, urlParses);
  }

  // ---------------------------------------------------------------------------
  // Properties of the validation

  /** Every issue is pushed together with a recommendation, so each validator,
      and hence the whole validation, recommends at least as much as it reports. */
  lemma RecommendationsCoverIssues(env: Env, urlParses: string -> bool)
    ensures |Validation(env, urlParses).recommendations| >= |Validation(env, urlParses).issues|
  {
    var ctx := GetDeploymentContext(env);
    assert |NextAuthUrlReport(ctx, env, urlParses).recommendations| == |NextAuthUrlReport(ctx, env, urlParses).issues|;
    assert |ApiUrlReport(ctx, env).recommendations| >= |ApiUrlReport(ctx, env).issues|;
    assert |OAuthReport(ctx, env).recommendations| == |OAuthReport(ctx, env).issues|;
    assert |ConsistencyReport(ctx, env).recommendations| >= |ConsistencyReport(ctx, env).issues|;
  }

  /** A missing NEXTAUTH_URL yields exactly one issue and one recommendation:
      the localhost, HTTP and URL-format checks are skipped. */
  lemma MissingNextAuthUrlShortCircuits(ctx: DeploymentContext, env: Env, urlParses: string -> bool)
    requires !Truthy(Get(env, "NEXTAUTH_URL"))
    ensures NextAuthUrlReport(ctx, env, urlParses) == Report([NextAuthUrlMissing], [SetNextAuthUrl])
    ensures Validation(env, urlParses).issues[0] == NextAuthUrlMissing
    ensures NextAuthUrlLocalhost !in NextAuthUrlReport(ctx, env, urlParses).issues
    ensures NextAuthUrlInvalid !in NextAuthUrlReport(ctx, env, urlParses).issues
  {
  }

  /** Outside production a set NEXTAUTH_URL can only be reported for its
      format: localhost and plain HTTP are reported in production only. */
  lemma NextAuthUrlProductionChecks(ctx: DeploymentContext, env: Env, urlParses: string -> bool)
    requires Truthy(Get(env, "NEXTAUTH_URL"))
    ensures var r := NextAuthUrlReport(ctx, env, urlParses);
      (NextAuthUrlLocalhost in r.issues <==> ctx.environment == Production && Contains(env["NEXTAUTH_URL"], "localhost"))
      && (NextAuthUrlHttp in r.issues <==> ctx.environment == Production && StartsWith(env["NEXTAUTH_URL"], "http:"))
      && (NextAuthUrlInvalid in r.issues <==> !urlParses(env["NEXTAUTH_URL"]))
      && (ctx.environment != Production ==> r.issues == When(!urlParses(env["NEXTAUTH_URL"]), NextAuthUrlInvalid))
  {
  }

  /** An absolute `http…` API URL earns the relative-path recommendation but is
      never itself an issue: a set API URL is an issue only for localhost in
      production. */
  lemma AbsoluteApiUrlOnlyRecommended(ctx: DeploymentContext, env: Env)
    requires Truthy(Get(env, "NEXT_PUBLIC_API_URL"))
    ensures var r := ApiUrlReport(ctx, env);
      (StartsWith(env["NEXT_PUBLIC_API_URL"], "http") <==> RelativeApiHint in r.recommendations)
      && RelativeApiHint !in r.issues
      && (r.issues != [] <==> ctx.environment == Production && Contains(env["NEXT_PUBLIC_API_URL"], "localhost"))
  {
  }

  /** A missing or placeholder NEXTAUTH_SECRET is an issue only in production;
      elsewhere it only adds a recommendation. */
  lemma SecretIssueOnlyInProduction(ctx: DeploymentContext, env: Env)
    requires SecretIsDefault(env)
    ensures var r := ConsistencyReport(ctx, env);
      (SecretProductionIssue in r.issues <==> ctx.environment == Production)
      && (ctx.environment != Production ==> SecretHint in r.recommendations && |r.issues| <= 1)
  {
  }

  /** The validation is valid exactly when every validator stayed silent about issues. */
  lemma ValidIffEveryValidatorSilent(env: Env, urlParses: string -> bool)
    ensures var ctx := GetDeploymentContext(env);
      Validation(env, urlParses).isValid <==>
        NextAuthUrlReport(ctx, env, urlParses).issues == [] && ApiUrlReport(ctx, env).issues == []
        && OAuthReport(ctx, env).issues == [] && ConsistencyReport(ctx, env).issues == []
  {
  }

  // ---------------------------------------------------------------------------
  // The configuration guide

  function EnvironmentName(e: Environment): string {
    match e
    case Development => "development"
    case Production => "production"
    case Preview => "preview"
    case Unknown => "unknown"
  }

  function PlatformName(p: Platform): string {
    match p
    case Vercel => "vercel"
    case Local => "local"
    case Other => "other"
  }

  function GuideHeader(ctx: DeploymentContext): string {
    "# Configuration Guide for " + EnvironmentName(ctx.environment) + " on " + PlatformName(ctx.platform) + "\n\n"
    + "## Current Context\n"
    + "- Environment: " + EnvironmentName(ctx.environment) + "\n"
    + "- Platform: " + PlatformName(ctx.platform) + "\n"
    + "- Base URL: " + ctx.baseUrl + "\n\n"
  }

  const IssuesHeading := "## ⚠️ Issues Found\n"
  const RecommendationsHeading := "## 💡 Recommendations\n"
  const TemplatesHeading := "## Environment Variable Templates\n\n"

  const DevelopmentTitle := "### Development (.env.local)"
  const ProductionTitle := "### Production (Vercel Environment Variables)"

  const DevelopmentTemplate :=
    DevelopmentTitle + "\n```\n"
    + "NEXTAUTH_URL=\"http://localhost:3000\"\n"
    + "NEXTAUTH_SECRET=\"your-development-secret-here\"\n"
    + "NEXT_PUBLIC_API_URL=\"/api\"\n"
    + "NEXT_PUBLIC_ENVIRONMENT=\"development\"\n"
    + "GOOGLE_CLIENT_ID=\"your-google-client-id\"\n"
    + "GOOGLE_CLIENT_SECRET=\"your-google-client-secret\"\n"
    + "```\n\n"

  const ProductionTemplate :=
    ProductionTitle + "\n```\n"
    + "NEXTAUTH_URL=\"https://your-domain.vercel.app\"\n"
    + "NEXTAUTH_SECRET=\"your-secure-production-secret\"\n"
    + "NEXT_PUBLIC_API_URL=\"/api\"\n"
    + "NEXT_PUBLIC_ENVIRONMENT=\"production\"\n"
    + "GOOGLE_CLIENT_ID=\"your-production-google-client-id\"\n"
    + "GOOGLE_CLIENT_SECRET=\"your-production-google-client-secret\"\n"
    + "```\n\n"

  /** `getEnvironmentTemplates`: the development block exactly for the
      development environment, the production block exactly for production or
      any Vercel deployment. */
  function EnvironmentTemplates(ctx: DeploymentContext): (t: string)
    ensures StartsWith(t, TemplatesHeading)
    ensures StartsWith(t, TemplatesHeading + DevelopmentTemplate) <==> ctx.environment == Development
    ensures EndsWith(t, ProductionTemplate) <==> ctx.environment == Production || ctx.platform == Vercel
  {
    var dev := if ctx.environment == Development then DevelopmentTemplate else "";
    var prod := if ctx.environment == Production || ctx.platform == Vercel then ProductionTemplate else "";
    var t := TemplatesHeading + dev + prod;
    TemplatesFacts(ctx.environment == Development, ctx.environment == Production || ctx.platform == Vercel);
    t
  }

  /** The two template blocks part ways at the first letter of their titles. */
  lemma TemplateHeadingsDiffer()
    ensures 4 < |DevelopmentTemplate| && 4 < |ProductionTemplate|
    ensures DevelopmentTemplate[4] == 'D' && ProductionTemplate[4] == 'P'
  {
    assert DevelopmentTitle[4] == 'D' && ProductionTitle[4] == 'P';
  }

  lemma TemplatesFacts(dev: bool, prod: bool)
    ensures var t := TemplatesHeading + (if dev then DevelopmentTemplate else "") + (if prod then ProductionTemplate else "");
      StartsWith(t, TemplatesHeading)
      && (StartsWith(t, TemplatesHeading + DevelopmentTemplate) <==> dev)
      && (EndsWith(t, ProductionTemplate) <==> prod)
  {
    var h, d, p := TemplatesHeading, DevelopmentTemplate, ProductionTemplate;
    var t := h + (if dev then d else "") + (if prod then p else "");
    assert t[..|h|] == h;
    if dev {
      assert t[..|h + d|] == h + d;
    } else if prod {
      assert t == h + p;
      TemplateHeadingsDiffer();
      assert |h + d| <= |t| ==> t[|h| + 4] != (h + d)[|h| + 4];
    }
    if prod {
      assert t[|t| - |p|..] == p;
    } else {
      assert |t| < |p|;
    }
  }

  /** `index + 1` and the item, as one numbered line. */
  function NumberedLine(n: nat, item: string): string {
    NatToString(n) + ". " + item + "\n"
  }

  /** The numbered list `1. a`, `2. b`, … of the items. */
  function NumberedList(items: seq<string>): string
    decreases |items|
  {
    if items == [] then ""
    else NumberedList(items[..|items| - 1]) + NumberedLine(|items|, items[|items| - 1])
  }

  /** A headed numbered section, left out entirely when there is nothing to list. */
  function Section(heading: string, items: seq<string>): string {
    if items == [] then "" else heading + NumberedList(items) + "\n"
  }

  /** The text of `generateConfigurationGuide` for a context and its validation. */
  function GuideText(ctx: DeploymentContext, v: ConfigValidation): string {
    GuideHeader(ctx) + GuideBody(ctx, v)
  }

  /** Everything after the context header. */
  function GuideBody(ctx: DeploymentContext, v: ConfigValidation): string {
    Section(IssuesHeading, Texts(v.issues)) + Section(RecommendationsHeading, Texts(v.recommendations))
    + EnvironmentTemplates(ctx)
  }

  /** Appends the numbered lines of `items` to `text`, one `forEach` step at a time. */
  method AppendNumbered(text: string, items: seq<string>) returns (r: string)
    ensures r == text + NumberedList(items)
  {
    r := text;
    var i := 0;
    while i < |items|
      invariant 0 <= i <= |items|
      invariant r == text + NumberedList(items[..i])
    {
      assert items[..i + 1][..i] == items[..i];
      r := r + NumberedLine(i + 1, items[i]);
      i := i + 1;
    }
    assert items[..i] == items;
  }

  /** `generateConfigurationGuide`: the context, the numbered issues and
      recommendations of the validation, then the templates. */
  method GenerateConfigurationGuide(env: Env, urlParses: string -> bool) returns (guide: string)
    ensures guide == GuideText(GetDeploymentContext(env), Validation(env, urlParses))
  {
    var ctx := GetDeploymentContext(env);
    var validation := ValidateConfiguration(env, urlParses);
    var issues, recommendations := Texts(validation.issues), Texts(validation.recommendations);
    var header := GuideHeader(ctx);
    guide := header;
    if |validation.issues| > 0 {
      guide := guide + IssuesHeading;
      guide := AppendNumbered(guide, issues);
      guide := guide + "\n";
      ConcatAssoc(header, IssuesHeading, NumberedList(issues));
      ConcatAssoc(header, IssuesHeading + NumberedList(issues), "\n");
    }
    ghost var afterIssues := guide;
    assert guide == header + Section(IssuesHeading, issues);
    if |validation.recommendations| > 0 {
      guide := guide + RecommendationsHeading;
      guide := AppendNumbered(guide, recommendations);
      guide := guide + "\n";
      ConcatAssoc(afterIssues, RecommendationsHeading, NumberedList(recommendations));
      ConcatAssoc(afterIssues, RecommendationsHeading + NumberedList(recommendations), "\n");
    }
    assert guide == header + Section(IssuesHeading, issues) + Section(RecommendationsHeading, recommendations);
    guide := guide + EnvironmentTemplates(ctx);
    ConcatAssoc(header, Section(IssuesHeading, issues), Section(RecommendationsHeading, recommendations));
    ConcatAssoc(header, Section(IssuesHeading, issues) + Section(RecommendationsHeading, recommendations),
      EnvironmentTemplates(ctx));
  }

  /** The guide's body opens with the issues heading exactly when there are issues. */
  lemma BodyOpensWithIssues(ctx: DeploymentContext, v: ConfigValidation)
    ensures v.issues != [] ==> StartsWith(GuideBody(ctx, v), IssuesHeading)
    ensures v.issues == [] ==> 3 < |GuideBody(ctx, v)| && GuideBody(ctx, v)[3] != IssuesHeading[3]
  {
    var issues := Section(IssuesHeading, Texts(v.issues));
    var recommendations := Section(RecommendationsHeading, Texts(v.recommendations));
    var templates := EnvironmentTemplates(ctx);
    if v.issues != [] {
      SectionOpensWithHeading(IssuesHeading, Texts(v.issues));
      PrefixOfExtension(issues, recommendations, IssuesHeading);
      PrefixOfExtension(issues + recommendations, templates, IssuesHeading);
    } else {
      BodyWithoutIssues(ctx, v);
    }
  }

  /** Without issues, what follows the header starts "## 💡" or "## E", never "## ⚠". */
  lemma BodyWithoutIssues(ctx: DeploymentContext, v: ConfigValidation)
    requires v.issues == []
    ensures 3 < |GuideBody(ctx, v)| && GuideBody(ctx, v)[3] != IssuesHeading[3]
  {
    var issues := Section(IssuesHeading, Texts(v.issues));
    var recommendations := Section(RecommendationsHeading, Texts(v.recommendations));
    assert issues == "";
    if v.recommendations != [] {
      SectionOpensWithHeading(RecommendationsHeading, Texts(v.recommendations));
    }
    OpensAwayFromIssues(issues, recommendations, EnvironmentTemplates(ctx));
  }

  /** Recommendations or, failing those, templates never open like the issues section. */
  lemma OpensAwayFromIssues(issues: string, recommendations: string, templates: string)
    requires issues == ""
    requires recommendations == "" || StartsWith(recommendations, RecommendationsHeading)
    requires StartsWith(templates, TemplatesHeading)
    ensures 3 < |issues + recommendations + templates| && (issues + recommendations + templates)[3] != IssuesHeading[3]
  {
    assert issues + recommendations + templates == recommendations + templates;
    if recommendations == "" {
      assert recommendations + templates == templates;
      CharOfPrefix(templates, TemplatesHeading, 3);
    } else {
      PrefixOfExtension(recommendations, templates, RecommendationsHeading);
      CharOfPrefix(recommendations + templates, RecommendationsHeading, 3);
    }
  }

  /** A non-empty section opens with its heading. */
  lemma SectionOpensWithHeading(heading: string, items: seq<string>)
    requires items != []
    ensures StartsWith(Section(heading, items), heading)
  {
    PrefixOfConcat(heading, NumberedList(items));
    PrefixOfExtension(heading + NumberedList(items), "\n", heading);
  }

  /** The guide always opens with the context header, and the issues section
      comes right after it exactly when the configuration is invalid. */
  lemma GuideFlagsIssuesIffInvalid(ctx: DeploymentContext, v: ConfigValidation)
    ensures StartsWith(GuideText(ctx, v), GuideHeader(ctx))
    ensures StartsWith(GuideText(ctx, v), GuideHeader(ctx) + IssuesHeading) <==> v.issues != []
  {
    var h := GuideHeader(ctx);
    var rest := GuideBody(ctx, v);
    PrefixOfConcat(h, rest);
    BodyOpensWithIssues(ctx, v);
    if v.issues != [] {
      PrefixUnderConcat(h, rest, IssuesHeading);
    } else {
      DifferAtUnderConcat(h, rest, IssuesHeading, 3);
    }
  }
}
