/**
 * The decision rules in Relay's Django settings module
 * (privaterelay/settings.py): which deployment channel the site origin
 * names, what release and environment are reported to Sentry, the CORS and
 * CSRF origin lists, the phone rate limit, the CSP style allow-list, the
 * host allow-list, the installed apps and middleware, and the cache header
 * set on the home page.
 *
 * The values `decouple.config` reads from the environment are parameters;
 * lists the module grows statement by statement are built by methods.
 */
module Settings {
  import opened Options

  // ---------------------------------------------------------------------
  // Channel (lines 54-62)
  // ---------------------------------------------------------------------

  /** The four deployment channels (`RELAY_CHANNEL_NAME`). */
  datatype Channel = Local | Dev | Stage | Prod

  /** The name a channel has in settings and in telemetry. */
  function ChannelName(c: Channel): (name: string) {
    match c
    case Local => "local"
    case Dev => "dev"
    case Stage => "stage"
    case Prod => "prod"
  }

  const LocalOrigin := "http://127.0.0.1:8000"
  const DevOrigin := "https://dev.fxprivaterelay.nonprod.cloudops.mozgcp.net"
  const StageOrigin := "https://stage.fxprivaterelay.nonprod.cloudops.mozgcp.net"
  const ProdOrigin := "https://relay.firefox.com"

  /** `ORIGIN_CHANNEL_MAP`. */
  const OriginChannelMap: map<string, Channel> :=
    map[LocalOrigin := Local, DevOrigin := Dev, StageOrigin := Stage, ProdOrigin := Prod]

  /** `RELAY_CHANNEL`: the channel of a known `SITE_ORIGIN`, otherwise (an
      unknown origin or none at all) "prod". */
  function RelayChannel(siteOrigin: Option<string>): (c: Channel)
    ensures c == Local <==> siteOrigin == Some(LocalOrigin)
    ensures c == Dev <==> siteOrigin == Some(DevOrigin)
    ensures c == Stage <==> siteOrigin == Some(StageOrigin)
    ensures c == Prod <==> siteOrigin !in {Some(LocalOrigin), Some(DevOrigin), Some(StageOrigin)}
  {
    if siteOrigin.Some? && siteOrigin.value in OriginChannelMap then OriginChannelMap[siteOrigin.value] else Prod
  }

  /** `USE_SILK` (line 67): profiling only in debug, with silk importable, outside pytest. */
  predicate UseSilk(debug: bool, hasSilk: bool, inPytest: bool) {
    debug && hasSilk && !inPytest
  }

  // ---------------------------------------------------------------------
  // Sentry (lines 975-998)
  // ---------------------------------------------------------------------

  /** A CI variable is used only when it is set and not "unknown". */
  predicate UsableCiValue(v: string) {
    v != "" && v != "unknown"
  }

  /** `sentry_release`: `SENTRY_RELEASE` if set, else a usable `CIRCLE_TAG`,
      else "branch:sha" when both are usable, else none. */
  function SentryRelease(sentryRelease: string, circleTag: string, circleSha1: string, circleBranch: string): (r: Option<string>)
    ensures sentryRelease != "" ==> r == Some(sentryRelease)
    ensures sentryRelease == "" && UsableCiValue(circleTag) ==> r == Some(circleTag)
    ensures sentryRelease == "" && !UsableCiValue(circleTag) && UsableCiValue(circleSha1) && UsableCiValue(circleBranch) ==>
              r == Some(circleBranch + ":" + circleSha1)
    ensures r.None? <==>
              sentryRelease == "" && !UsableCiValue(circleTag) && !(UsableCiValue(circleSha1) && UsableCiValue(circleBranch))
  {
    if sentryRelease != "" then Some(sentryRelease)
    else if UsableCiValue(circleTag) then Some(circleTag)
    else if UsableCiValue(circleSha1) && UsableCiValue(circleBranch) then Some(circleBranch + ":" + circleSha1)
    else None
  }

  /** A reported release is never empty, and it is "unknown" only when
      `SENTRY_RELEASE` itself says so: the CI branches never report it. */
  lemma SentryReleaseIsMeaningful(sentryRelease: string, circleTag: string, circleSha1: string, circleBranch: string)
    ensures var r := SentryRelease(sentryRelease, circleTag, circleSha1, circleBranch);
      r.Some? ==> r.value != "" && (r.value == "unknown" ==> sentryRelease == "unknown")
  {
    var joined := circleBranch + ":" + circleSha1;
    assert joined[|circleBranch|] == ':';
    assert ':' in joined;
    assert ':' !in "unknown";
  }

  /** `SENTRY_ENVIRONMENT`: the channel, except that a "prod" channel reached
      from any origin other than the production one reports "local". */
  function SentryEnvironment(siteOrigin: Option<string>): (env: Channel)
    ensures env == Prod <==> siteOrigin == Some(ProdOrigin)
    ensures env == Dev <==> siteOrigin == Some(DevOrigin)
    ensures env == Stage <==> siteOrigin == Some(StageOrigin)
    ensures env == Local <==> siteOrigin !in {Some(DevOrigin), Some(StageOrigin), Some(ProdOrigin)}
    ensures env != RelayChannel(siteOrigin) ==> RelayChannel(siteOrigin) == Prod && env == Local
  {
    var channel := RelayChannel(siteOrigin);
    if channel == Prod && siteOrigin != Some(ProdOrigin) then Local else channel
  }

  // ---------------------------------------------------------------------
  // Phone rate limit (lines 936-938)
  // ---------------------------------------------------------------------

  const RelaxedPhoneRateLimit := "1000/minute"
  const StrictPhoneRateLimit := "5/minute"

  /** `PHONE_RATE_LIMIT`: relaxed under pytest and on the local and dev channels. */
  function PhoneRateLimit(inPytest: bool, channel: Channel): (limit: string)
    ensures limit == RelaxedPhoneRateLimit <==> inPytest || channel == Local || channel == Dev
    ensures limit == StrictPhoneRateLimit <==> !inPytest && (channel.Stage? || channel.Prod?)
  {
    if inPytest || channel == Local || channel == Dev then RelaxedPhoneRateLimit else StrictPhoneRateLimit
  }

  // ---------------------------------------------------------------------
  // CORS and CSRF (lines 947-973)
  // ---------------------------------------------------------------------

  const BitwardenVault := "https://vault.bitwarden.com"
  const BitwardenQaVault := "https://vault.qa.bitwarden.pw"
  const LocalFrontend := "http://localhost:3000"
  const AnyHostFrontend := "http://0.0.0.0:3000"
  const ApiUrlsRegex := "^/api/"
  const ApiAndAccountsUrlsRegex := "^/(api|accounts)/"

  /** The cross-origin settings. `allowCredentials` is `CORS_ALLOW_CREDENTIALS`
      (the library default, false, when not set) and `sessionCookieSameSite`
      is `SESSION_COOKIE_SAMESITE` (Django's default "Lax" when not set). */
  datatype CorsConfig = CorsConfig(
    urlsRegex: string,
    allowedOrigins: seq<string>,
    csrfTrustedOrigins: seq<string>,
    allowCredentials: bool,
    sessionCookieSameSite: Option<string>)

  /** The CORS and CSRF settings of a channel, built as the module builds them. */
  method CorsSettings(channel: Channel) returns (cors: CorsConfig)
    ensures |cors.allowedOrigins| > 0 && cors.allowedOrigins[0] == BitwardenVault
    ensures BitwardenQaVault in cors.allowedOrigins <==> channel == Dev || channel == Stage
    ensures LocalFrontend in cors.allowedOrigins <==> channel == Local
    ensures AnyHostFrontend in cors.allowedOrigins <==> channel == Local
    ensures cors.allowedOrigins == match channel
      case Local => [BitwardenVault, LocalFrontend, LocalFrontend, AnyHostFrontend]
      case Dev => [BitwardenVault, BitwardenQaVault]
      case Stage => [BitwardenVault, BitwardenQaVault]
      case Prod => [BitwardenVault]
    ensures cors.urlsRegex == (if channel == Local then ApiAndAccountsUrlsRegex else ApiUrlsRegex)
    ensures cors.csrfTrustedOrigins == [] <==> channel != Local
    ensures channel == Local ==> cors.csrfTrustedOrigins == [LocalFrontend, AnyHostFrontend]
    ensures forall o :: o in cors.csrfTrustedOrigins ==> o in cors.allowedOrigins
    ensures cors.allowCredentials <==> channel == Local
    ensures cors.sessionCookieSameSite.None? <==> channel == Local
  {
    var urlsRegex := ApiUrlsRegex;
    var allowedOrigins := [BitwardenVault];
    var allowCredentials := false;
    var sameSite := Some("Lax");
    if channel == Dev || channel == Stage {
      allowedOrigins := allowedOrigins + [BitwardenQaVault];
    }
    if channel == Local {
      allowedOrigins := allowedOrigins + [LocalFrontend];
      urlsRegex := ApiAndAccountsUrlsRegex;
    }
    var csrfTrustedOrigins := [];
    if channel == Local {
      allowCredentials := true;
      sameSite := None;
      allowedOrigins := allowedOrigins + [LocalFrontend, AnyHostFrontend];
      csrfTrustedOrigins := csrfTrustedOrigins + [LocalFrontend, AnyHostFrontend];
    }
    cors := CorsConfig(urlsRegex, allowedOrigins, csrfTrustedOrigins, allowCredentials, sameSite);
  }

  // ---------------------------------------------------------------------
  // CSP style allow-list (lines 111-137)
  // ---------------------------------------------------------------------

  const SelfSource := "'self'"
  const UnsafeInline := "'unsafe-inline'"

  /** The CSP source that allows one stylesheet by its base64 SHA-512 digest. */
  function Sha512Source(digest: string): (source: string) {
    "'sha512-" + digest + "'"
  }

  /** One hash source per digest, in order. */
  function Sha512Sources(digests: seq<string>): (sources: seq<string>)
    ensures |sources| == |digests|
    ensures forall i :: 0 <= i < |digests| ==> sources[i] == Sha512Source(digests[i])
  {
    seq(|digests|, i requires 0 <= i < |digests| => Sha512Source(digests[i]))
  }

  /** The files of every directory of a walk, in walk order. */
  function Flatten(dirs: seq<seq<string>>): (files: seq<string>) {
    if dirs == [] then [] else Flatten(dirs[..|dirs| - 1]) + dirs[|dirs| - 1]
  }

  /** A hash source never allows every inline style. */
  lemma Sha512SourceIsNotUnsafeInline(digest: string)
    ensures Sha512Source(digest) != UnsafeInline
  {
    assert Sha512Source(digest)[1] == 's';
    assert UnsafeInline[1] == 'u';
  }

  /** `csp_style_values`. On the local channel every inline style is allowed;
      elsewhere the list allows exactly the stylesheets the front-end build
      produced. `cssDigests` holds, for each directory the walk of
      frontend/out/_next/static/css/ visits, the digest of each of its files. */
  method CspStyleSrc(channel: Channel, cssDigests: seq<seq<string>>) returns (values: seq<string>)
    ensures |values| > 0 && values[0] == SelfSource
    ensures channel == Local ==> values == [SelfSource, UnsafeInline]
    ensures channel != Local ==> values == [SelfSource] + Sha512Sources(Flatten(cssDigests))
    ensures channel != Local ==> |values| == 1 + |Flatten(cssDigests)|
    ensures channel != Local ==> UnsafeInline !in values
  {
    values := [SelfSource];
    if channel == Local {
      values := values + [UnsafeInline];
    } else {
      var d := 0;
      while d < |cssDigests|
        invariant 0 <= d <= |cssDigests|
        invariant values == [SelfSource] + Sha512Sources(Flatten(cssDigests[..d]))
      {
        var files := cssDigests[d];
        var f := 0;
        while f < |files|
          invariant 0 <= f <= |files|
          invariant values == [SelfSource] + Sha512Sources(Flatten(cssDigests[..d]) + files[..f])
        {
          assert (Flatten(cssDigests[..d]) + files[..f]) + [files[f]] == Flatten(cssDigests[..d]) + files[..f + 1];
          values := values + [Sha512Source(files[f])];
          f := f + 1;
        }
        assert files[..f] == files;
        assert cssDigests[..d + 1][..d] == cssDigests[..d];
        d := d + 1;
      }
      assert cssDigests[..d] == cssDigests;
      forall i | 0 <= i < |values| ensures values[i] != UnsafeInline {
        if i > 0 {
          Sha512SourceIsNotUnsafeInline(Flatten(cssDigests)[i - 1]);
        }
      }
    }
  }

  // ---------------------------------------------------------------------
  // Host allow-list (lines 142-148)
  // ---------------------------------------------------------------------

  /** A configured string counts only when it is present and not empty. */
  predicate IsSet(v: Option<string>) {
    v.Some? && v.value != ""
  }

  /** Python's `s.split(sep)` for a one-character separator. */
  function Split(s: string, sep: char): (parts: seq<string>)
    ensures |parts| >= 1
    ensures forall i :: 0 <= i < |parts| ==> sep !in parts[i]
  {
    if s == [] then [""]
    else
      var rest := Split(s[1..], sep);
      if s[0] == sep then [""] + rest
      else [[s[0]] + rest[0]] + rest[1..]
  }

  /** Python's `sep.join(parts)`. */
  function Join(parts: seq<string>, sep: char): (s: string)
    requires |parts| >= 1
  {
    if |parts| == 1 then parts[0] else parts[0] + [sep] + Join(parts[1..], sep)
  }

  /** Splitting loses nothing: joining the parts gives the string back. */
  lemma {:induction false} JoinSplit(s: string, sep: char)
    ensures Join(Split(s, sep), sep) == s
  {
    if s != [] {
      var rest := Split(s[1..], sep);
      JoinSplit(s[1..], sep);
      if s[0] != sep {
        if |rest| == 1 {
          assert Split(s, sep) == [[s[0]] + rest[0]];
        } else {
          assert Split(s, sep)[1..] == rest[1..];
        }
      }
    }
  }

  /** Parts without the separator are recovered exactly by splitting their join. */
  lemma {:induction false} SplitJoin(parts: seq<string>, sep: char)
    requires |parts| >= 1
    requires forall i :: 0 <= i < |parts| ==> sep !in parts[i]
    ensures Split(Join(parts, sep), sep) == parts
  {
    if |parts| == 1 {
      SplitOfSeparatorFree(parts[0], sep);
    } else {
      SplitJoin(parts[1..], sep);
      SplitPrefix(parts[0], Join(parts[1..], sep), sep);
      assert [parts[0]] + parts[1..] == parts;
    }
  }

  /** A string without the separator splits into itself alone. */
  lemma {:induction false} SplitOfSeparatorFree(s: string, sep: char)
    requires sep !in s
    ensures Split(s, sep) == [s]
  {
    if s != [] {
      SplitOfSeparatorFree(s[1..], sep);
      assert [s[0]] + s[1..] == s;
    }
  }

  /** Splitting `p + sep + t`, where `p` has no separator, gives `p` first and
      then the parts of `t`. */
  lemma {:induction false} SplitPrefix(p: string, t: string, sep: char)
    requires sep !in p
    ensures Split(p + [sep] + t, sep) == [p] + Split(t, sep)
  {
    if p == [] {
      assert p + [sep] + t == [sep] + t;
      assert ([sep] + t)[1..] == t;
    } else {
      assert (p + [sep] + t)[1..] == p[1..] + [sep] + t;
      SplitPrefix(p[1..], t, sep);
      assert [p[0]] + p[1..] == p;
    }
  }

  /** `ALLOWED_HOSTS`: the comma-separated `DJANGO_ALLOWED_HOST` entries, then
      the hosts of `DJANGO_ALLOWED_SUBNET`. Enumerating a subnet's hosts is
      done by a library; `subnetHosts` is what it yields. */
  method AllowedHosts(allowedHost: Option<string>, allowedSubnet: Option<string>, subnetHosts: seq<string>)
    returns (hosts: seq<string>)
    ensures !IsSet(allowedHost) && !IsSet(allowedSubnet) ==> hosts == []
    ensures !IsSet(allowedHost) && IsSet(allowedSubnet) ==> hosts == subnetHosts
    ensures IsSet(allowedHost) ==>
              hosts == Split(allowedHost.value, ',') + (if IsSet(allowedSubnet) then subnetHosts else [])
  {
    hosts := [];
    if IsSet(allowedHost) {
      hosts := hosts + Split(allowedHost.value, ',');
    }
    if IsSet(allowedSubnet) {
      hosts := hosts + subnetHosts;
    }
  }

  /** The entries taken from `DJANGO_ALLOWED_HOST` are its comma-separated
      pieces: none holds a comma and, joined with commas, they give the
      setting back. */
  lemma AllowedHostEntries(allowedHost: string)
    requires allowedHost != ""
    ensures var entries := Split(allowedHost, ',');
      && (forall i :: 0 <= i < |entries| ==> ',' !in entries[i])
      && Join(entries, ',') == allowedHost
  {
  }

  // ---------------------------------------------------------------------
  // Installed apps and middleware (lines 199-283)
  // ---------------------------------------------------------------------

  /** The Django apps the settings module can install. */
  datatype App =
    | WhitenoiseRunserverNostatic | Staticfiles | Auth | Contenttypes | Sessions | Messages | Sites
    | DjangoFilters | DjangoFtl | Dockerflow | Allauth | AllauthAccount | AllauthSocialaccount
    | AllauthFxa | RestFramework | RestFrameworkAuthtoken | Corsheaders | Waffle | PrivateRelay | Api
    | DebugToolbar | DrfYasg | Silk | Admin | Emails | Phones

  /** The dotted name each app is listed under. */
  function AppName(a: App): (name: string) {
    match a
    case WhitenoiseRunserverNostatic => "whitenoise.runserver_nostatic"
    case Staticfiles => "django.contrib.staticfiles"
    case Auth => "django.contrib.auth"
    case Contenttypes => "django.contrib.contenttypes"
    case Sessions => "django.contrib.sessions"
    case Messages => "django.contrib.messages"
    case Sites => "django.contrib.sites"
    case DjangoFilters => "django_filters"
    case DjangoFtl => "django_ftl.apps.DjangoFtlConfig"
    case Dockerflow => "dockerflow.django"
    case Allauth => "allauth"
    case AllauthAccount => "allauth.account"
    case AllauthSocialaccount => "allauth.socialaccount"
    case AllauthFxa => "allauth.socialaccount.providers.fxa"
    case RestFramework => "rest_framework"
    case RestFrameworkAuthtoken => "rest_framework.authtoken"
    case Corsheaders => "corsheaders"
    case Waffle => "waffle"
    case PrivateRelay => "privaterelay.apps.PrivateRelayConfig"
    case Api => "api.apps.ApiConfig"
    case DebugToolbar => "debug_toolbar"
    case DrfYasg => "drf_yasg"
    case Silk => "silk"
    case Admin => "django.contrib.admin"
    case Emails => "emails.apps.EmailsConfig"
    case Phones => "phones.apps.PhonesConfig"
  }

  /** The apps that are always installed, in order. */
  const BaseApps: seq<App> := [
    WhitenoiseRunserverNostatic, Staticfiles, Auth, Contenttypes, Sessions, Messages, Sites,
    DjangoFilters, DjangoFtl, Dockerflow, Allauth, AllauthAccount, AllauthSocialaccount,
    AllauthFxa, RestFramework, RestFrameworkAuthtoken, Corsheaders, Waffle, PrivateRelay, Api
  ]

  /** None of the optional apps is among the fixed ones. */
  lemma OptionalAppsNotInBase()
    ensures DebugToolbar !in BaseApps && DrfYasg !in BaseApps && Silk !in BaseApps
    ensures Admin !in BaseApps && Emails !in BaseApps && Phones !in BaseApps
  {
  }

  /** The emails app needs both an SES configuration set and an SNS topic. */
  predicate EmailsEnabled(sesConfigset: Option<string>, snsTopics: set<string>) {
    IsSet(sesConfigset) && snsTopics != {}
  }

  /** The apps the flags add after the fixed ones, in the order the module appends them. */
  function OptionalApps(debug: bool, useSilk: bool, adminEnabled: bool, emailsEnabled: bool, phonesEnabled: bool)
    : (apps: seq<App>)
  {
    (if debug then [DebugToolbar, DrfYasg] else [])
    + (if useSilk then [Silk] else [])
    + (if adminEnabled then [Admin] else [])
    + (if emailsEnabled then [Emails] else [])
    + (if phonesEnabled then [Phones] else [])
  }

  /** The apps the flags select: the fixed ones, then the optional ones. */
  function SelectedApps(debug: bool, useSilk: bool, adminEnabled: bool, emailsEnabled: bool, phonesEnabled: bool)
    : (apps: seq<App>)
  {
    BaseApps + OptionalApps(debug, useSilk, adminEnabled, emailsEnabled, phonesEnabled)
  }

  /** Each optional app is added exactly when its flag is on. */
  lemma OptionalAppsFollowFlags(debug: bool, useSilk: bool, adminEnabled: bool, emailsEnabled: bool, phonesEnabled: bool)
    ensures var opt := OptionalApps(debug, useSilk, adminEnabled, emailsEnabled, phonesEnabled);
      && (Emails in opt <==> emailsEnabled)
      && (Phones in opt <==> phonesEnabled)
      && (Admin in opt <==> adminEnabled)
      && (Silk in opt <==> useSilk)
      && (DebugToolbar in opt <==> debug)
      && (DrfYasg in opt <==> debug)
  {
  }

  /** The fixed apps always come first, and each optional app is present
      exactly when its flag is on. */
  lemma SelectedAppsFollowFlags(debug: bool, useSilk: bool, adminEnabled: bool, emailsEnabled: bool, phonesEnabled: bool)
    ensures var apps := SelectedApps(debug, useSilk, adminEnabled, emailsEnabled, phonesEnabled);
      && |apps| >= |BaseApps| && apps[..|BaseApps|] == BaseApps
      && (Emails in apps <==> emailsEnabled)
      && (Phones in apps <==> phonesEnabled)
      && (Admin in apps <==> adminEnabled)
      && (Silk in apps <==> useSilk)
      && (DebugToolbar in apps <==> debug)
      && (DrfYasg in apps <==> debug)
  {
    OptionalAppsNotInBase();
    OptionalAppsFollowFlags(debug, useSilk, adminEnabled, emailsEnabled, phonesEnabled);
    var optional := OptionalApps(debug, useSilk, adminEnabled, emailsEnabled, phonesEnabled);
    var apps := SelectedApps(debug, useSilk, adminEnabled, emailsEnabled, phonesEnabled);
    assert apps[..|BaseApps|] == BaseApps;
    forall a | a in {DebugToolbar, DrfYasg, Silk, Admin, Emails, Phones}
      ensures a in apps <==> a in optional
    {
    }
  }

  /** `INSTALLED_APPS`: the fixed apps, then each optional app its flag turns
      on; silk is installed when `USE_SILK` holds. */
  method InstalledApps(debug: bool, hasSilk: bool, inPytest: bool, adminEnabled: bool,
                       sesConfigset: Option<string>, snsTopics: set<string>, phonesEnabled: bool)
    returns (apps: seq<App>)
    ensures apps == SelectedApps(debug, UseSilk(debug, hasSilk, inPytest), adminEnabled,
                                 EmailsEnabled(sesConfigset, snsTopics), phonesEnabled)
  {
    var useSilk := UseSilk(debug, hasSilk, inPytest);
    var emailsEnabled := EmailsEnabled(sesConfigset, snsTopics);
    apps := BaseApps;
    if debug {
      apps := apps + [DebugToolbar, DrfYasg];
    }
    if useSilk {
      apps := apps + [Silk];
    }
    if adminEnabled {
      apps := apps + [Admin];
    }
    if emailsEnabled {
      apps := apps + [Emails];
    }
    if phonesEnabled {
      apps := apps + [Phones];
    }
  }

  /** The middleware the settings module can list. */
  datatype Middleware =
    | ResponseMetrics | SilkyMiddleware | DebugToolbarMiddleware
    | SecurityMiddleware | CspMiddleware | RedirectRootIfLoggedIn | WhiteNoiseMiddleware
    | SessionMiddleware | CorsMiddleware | CommonMiddleware | CsrfViewMiddleware
    | AuthenticationMiddleware | MessageMiddleware | XFrameOptionsMiddleware | LocaleMiddleware
    | ActivateFromRequestLanguageCode | ReferrerPolicyMiddleware | DockerflowMiddleware
    | WaffleMiddleware | FxAToRequest | AddDetectedCountryToRequestAndResponseHeaders | StoreFirstVisit

  /** The dotted path each middleware is listed under. */
  function MiddlewarePath(m: Middleware): (path: string) {
    match m
    case ResponseMetrics => "privaterelay.middleware.ResponseMetrics"
    case SilkyMiddleware => "silk.middleware.SilkyMiddleware"
    case DebugToolbarMiddleware => "debug_toolbar.middleware.DebugToolbarMiddleware"
    case SecurityMiddleware => "django.middleware.security.SecurityMiddleware"
    case CspMiddleware => "csp.middleware.CSPMiddleware"
    case RedirectRootIfLoggedIn => "privaterelay.middleware.RedirectRootIfLoggedIn"
    case WhiteNoiseMiddleware => "whitenoise.middleware.WhiteNoiseMiddleware"
    case SessionMiddleware => "django.contrib.sessions.middleware.SessionMiddleware"
    case CorsMiddleware => "corsheaders.middleware.CorsMiddleware"
    case CommonMiddleware => "django.middleware.common.CommonMiddleware"
    case CsrfViewMiddleware => "django.middleware.csrf.CsrfViewMiddleware"
    case AuthenticationMiddleware => "django.contrib.auth.middleware.AuthenticationMiddleware"
    case MessageMiddleware => "django.contrib.messages.middleware.MessageMiddleware"
    case XFrameOptionsMiddleware => "django.middleware.clickjacking.XFrameOptionsMiddleware"
    case LocaleMiddleware => "django.middleware.locale.LocaleMiddleware"
    case ActivateFromRequestLanguageCode => "django_ftl.middleware.activate_from_request_language_code"
    case ReferrerPolicyMiddleware => "django_referrer_policy.middleware.ReferrerPolicyMiddleware"
    case DockerflowMiddleware => "dockerflow.django.middleware.DockerflowMiddleware"
    case WaffleMiddleware => "waffle.middleware.WaffleMiddleware"
    case FxAToRequest => "privaterelay.middleware.FxAToRequest"
    case AddDetectedCountryToRequestAndResponseHeaders =>
      "privaterelay.middleware.AddDetectedCountryToRequestAndResponseHeaders"
    case StoreFirstVisit => "privaterelay.middleware.StoreFirstVisit"
  }

  /** The middleware that is always listed, in order, after the optional ones. */
  const BaseMiddleware: seq<Middleware> := [
    SecurityMiddleware, CspMiddleware, RedirectRootIfLoggedIn, WhiteNoiseMiddleware,
    SessionMiddleware, CorsMiddleware, CommonMiddleware, CsrfViewMiddleware,
    AuthenticationMiddleware, MessageMiddleware, XFrameOptionsMiddleware, LocaleMiddleware,
    ActivateFromRequestLanguageCode, ReferrerPolicyMiddleware, DockerflowMiddleware,
    WaffleMiddleware, FxAToRequest, AddDetectedCountryToRequestAndResponseHeaders, StoreFirstVisit
  ]

  /** `_get_initial_middleware`: the statsd metrics middleware alone when statsd is enabled. */
  function InitialMiddleware(statsdEnabled: bool): (mw: seq<Middleware>)
    ensures statsdEnabled ==> mw == [ResponseMetrics]
    ensures !statsdEnabled ==> mw == []
  {
    if statsdEnabled then [ResponseMetrics] else []
  }

  /** The middleware the flags select, in the order the module lists it. */
  function SelectedMiddleware(statsdEnabled: bool, useSilk: bool, debug: bool): (mw: seq<Middleware>) {
    InitialMiddleware(statsdEnabled)
    + (if useSilk then [SilkyMiddleware] else [])
    + (if debug then [DebugToolbarMiddleware] else [])
    + BaseMiddleware
  }

  /** The metrics middleware is first exactly when statsd is enabled (and
      never anywhere else), the optional middleware follows its flags, and
      the fixed stack always closes the list. */
  lemma SelectedMiddlewareFollowsFlags(statsdEnabled: bool, useSilk: bool, debug: bool)
    ensures var mw := SelectedMiddleware(statsdEnabled, useSilk, debug);
      && |mw| >= |BaseMiddleware|
      && (mw[0] == ResponseMetrics <==> statsdEnabled)
      && (ResponseMetrics in mw <==> statsdEnabled)
      && (SilkyMiddleware in mw <==> useSilk)
      && (DebugToolbarMiddleware in mw <==> debug)
      && mw[|mw| - |BaseMiddleware|..] == BaseMiddleware
  {
  }

  /** `MIDDLEWARE`: the metrics middleware first (so it sees every error),
      then the profiling and debug middleware, then the fixed stack. */
  method MiddlewareList(statsdEnabled: bool, debug: bool, hasSilk: bool, inPytest: bool) returns (mw: seq<Middleware>)
    ensures mw == SelectedMiddleware(statsdEnabled, UseSilk(debug, hasSilk, inPytest), debug)
  {
    var useSilk := UseSilk(debug, hasSilk, inPytest);
    mw := InitialMiddleware(statsdEnabled);
    if useSilk {
      mw := mw + [SilkyMiddleware];
    }
    if debug {
      mw := mw + [DebugToolbarMiddleware];
    }
    mw := mw + BaseMiddleware;
  }

  /** Silk's app and middleware are present exactly when `USE_SILK` holds:
      never outside debug, never under pytest, never when silk cannot be
      imported. */
  lemma SilkOnlyWhenUseSilk(debug: bool, hasSilk: bool, inPytest: bool, adminEnabled: bool,
                            emailsEnabled: bool, phonesEnabled: bool, statsdEnabled: bool)
    ensures var useSilk := UseSilk(debug, hasSilk, inPytest);
      && (Silk in SelectedApps(debug, useSilk, adminEnabled, emailsEnabled, phonesEnabled) <==> debug && hasSilk && !inPytest)
      && (SilkyMiddleware in SelectedMiddleware(statsdEnabled, useSilk, debug) <==> debug && hasSilk && !inPytest)
  {
    SelectedAppsFollowFlags(debug, UseSilk(debug, hasSilk, inPytest), adminEnabled, emailsEnabled, phonesEnabled);
    SelectedMiddlewareFollowsFlags(statsdEnabled, UseSilk(debug, hasSilk, inPytest), debug);
  }

  // ---------------------------------------------------------------------
  // Home page cache header (lines 805, 830-838)
  // ---------------------------------------------------------------------

  /** `posixpath.join(a, b)`. */
  function PathJoin(a: string, b: string): (path: string) {
    if |b| > 0 && b[0] == '/' then b
    else if a == "" || a[|a| - 1] == '/' then a + b
    else a + "/" + b
  }

  /** `STATIC_ROOT`. */
  function StaticRoot(baseDir: string): (path: string) {
    PathJoin(baseDir, "staticfiles")
  }

  /** The path of the home page's index.html: the front-end build in debug,
      the collected static files otherwise. */
  function HomePath(debug: bool, baseDir: string): (path: string) {
    if debug then PathJoin(PathJoin(baseDir, "frontend/out"), "index.html")
    else PathJoin(StaticRoot(baseDir), "index.html")
  }

  /** The debug and production home paths never coincide. */
  lemma HomePathDependsOnDebug(baseDir: string)
    ensures HomePath(true, baseDir) != HomePath(false, baseDir)
  {
  }

  const CacheControl := "Cache-Control"
  const NoCachePublic := "no-cache, public"

  /** `set_index_cache_control_headers`: the home page is never cached by the
      CDN; every other response keeps its headers. Headers are keyed by name. */
  function SetIndexCacheControlHeaders(headers: map<string, string>, path: string, debug: bool, baseDir: string)
    : (result: map<string, string>)
    ensures path == HomePath(debug, baseDir) ==>
              result.Keys == headers.Keys + {CacheControl} && result[CacheControl] == NoCachePublic
    ensures path != HomePath(debug, baseDir) ==> result == headers
    ensures forall name :: name in headers && name != CacheControl ==> name in result && result[name] == headers[name]
  {
    if path == HomePath(debug, baseDir) then headers[CacheControl := NoCachePublic] else headers
  }
}
