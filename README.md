# Firefox Relay: telemetry payloads and settings rules, in Dafny

This project models two parts of Firefox Relay, the service that hands out email masks (aliases that forward to a user's real address).

1. **The mask telemetry logger** (`RelayGleanLogger` in `privaterelay/glean_interface.py`). It builds the flat records of the `email_mask.created` and `email_mask.deleted` events from three things:
   - an optional HTTP request;
   - the user, with their profile, random masks and domain masks;
   - the mask, for the created event, or its id and kind, for the deleted event.

   Module `GleanInterface` (`glean_interface.dfy`) gives each derived field its own function. The two logger functions return a `MaskEvent`, and lemmas state every field in terms of the inputs.

2. **The decision rules of the Django settings module** (`privaterelay/settings.py`), in module `Settings` (`settings.dfy`):
   - the deployment channel chosen from `SITE_ORIGIN`;
   - the release and the environment reported to Sentry;
   - the phone rate limit;
   - the CORS and CSRF origin lists;
   - the CSP `style-src` list;
   - `ALLOWED_HOSTS`;
   - `INSTALLED_APPS` and `MIDDLEWARE`;
   - the header hook that keeps the CDN (the caching layer in front of the site) from caching the home page.

   The settings module builds its lists step by step: it appends to them, and it walks the CSS output directory in nested loops. Those lists are therefore built by methods with loops or in-order appends. Each method is proved equal to a specification function, and lemmas state what the function guarantees.

   The subscription price tables (module `PlanTables`, `plan_tables.dfy`) are modelled as lookup functions over enumerated keys. Every country and language mapping entry is shown to be a cell of its matrix. The lemmas also show which billing terms each product's cells carry.

`Options` (`options.dfy`) holds the `Option` type used throughout.

Inputs the code takes from outside become parameters. These are the `decouple.config` environment values, `"pytest" in sys.modules`, whether silk can be imported, what ipware's `get_client_ip` returns, the hosts of an IPv4 subnet, and the SHA-512 digests of the CSS files. Times are integer seconds.

## Model

| member | source | states |
|---|---|---|
| GleanInterface.UserAgent | privaterelay/glean_interface.py:45-49 | The user agent is "" without a request. With a request it is the "user-agent" header's value when that header is present, and "" when it is missing. |
| GleanInterface.IpAddress | privaterelay/glean_interface.py:45-51 | The IP field is non-empty only when there is a request, the client address is routable, and the field equals that address. With a routable client address, the field is that address. |
| GleanInterface.DateJoinedPremium | privaterelay/glean_interface.py:61-70 | The value is -1 without premium. A premium phone user gets the phone subscription date, any other premium user gets the subscription date, and a missing date gives -1. |
| GleanInterface.EarliestExtensionMaskDate | privaterelay/glean_interface.py:74-83 | The result is None exactly when no random mask has a non-empty `generated_for`. Otherwise the value is the `created_at` of one such mask and is no later than that of any other such mask, so it is the minimum. |
| GleanInterface.HasWebsite | privaterelay/glean_interface.py:85-90 | Only a random mask can have a website. For a random mask, the flag is set exactly when `generated_for` is non-empty. |
| GleanInterface.LogEmailMaskCreated | privaterelay/glean_interface.py:36-112 | Builds an `email_mask.created` record. Its fields are stated by the lemmas below. |
| GleanInterface.LogEmailMaskDeleted | privaterelay/glean_interface.py:114-180 | Builds an `email_mask.deleted` record. Its fields are stated by the lemmas below. |
| GleanInterface.NoRequestNoClientFields | privaterelay/glean_interface.py:45-47 | Without a request, both events have an empty user agent and an empty IP address. |
| GleanInterface.RequestClientFields | privaterelay/glean_interface.py:48-51 | With a request, both events carry the user-agent header or "". They also carry the client IP exactly when it is non-empty and routable, and "" otherwise. |
| GleanInterface.IdentityFields | privaterelay/glean_interface.py:54-72 | In both events, `fxa_id` is the linked account's uid, or "" when no account is linked. `client_id` and `platform` are always "". `premium_status` is the profile's metrics premium status. |
| GleanInterface.CounterFields | privaterelay/glean_interface.py:55-59 | In both events, the mask counters are the numbers of the user's random and domain masks. The deleted-mask counters and the join time come from the profile and user. |
| GleanInterface.PremiumJoinDate | privaterelay/glean_interface.py:61-70 | Both events follow the premium join date precedence (phone date, then subscription date), with -1 as the sentinel. |
| GleanInterface.ExtensionFields | privaterelay/glean_interface.py:74-83 | In both events, `has_extension` holds iff some random mask was made by the add-on. `date_got_extension` is then the least `created_at` among those masks, and -1 otherwise. |
| GleanInterface.CreatedMaskFlags | privaterelay/glean_interface.py:85-91 | In the created event, `is_random_mask` holds iff the mask is a random mask. `has_website` is false for a domain mask and follows `generated_for` for a random mask. `mask_id` is the mask's metrics id, and `created_by_api` is passed through. |
| GleanInterface.CreatedAndDeletedAgree | privaterelay/glean_interface.py:114-180 | For the same request and user, the two events agree on all fourteen shared fields. The deleted event passes `mask_id` and `is_random_mask` through. Given a mask's own id and kind, it matches the created event's mask fields. |
| Settings.RelayChannel | privaterelay/settings.py:56-62 | Each known origin gives its channel. Any other origin, or no origin at all, gives "prod". |
| Settings.SentryRelease | privaterelay/settings.py:980-991 | Precedence: `SENTRY_RELEASE` if set, then a usable `CIRCLE_TAG`, then "branch:sha" when both CI values are usable. The result is none exactly when none of these applies. |
| Settings.SentryReleaseIsMeaningful | privaterelay/settings.py:980-991 | A reported release is never empty. It is "unknown" only when `SENTRY_RELEASE` itself is "unknown". |
| Settings.SentryEnvironment | privaterelay/settings.py:995-998 | The environment is "prod" only for the production origin. "dev" and "stage" follow their origins, and every other origin reports "local". It differs from the channel only by turning a "prod" channel into "local". |
| Settings.PhoneRateLimit | privaterelay/settings.py:936-938 | The limit is "1000/minute" exactly under pytest or on the local or dev channel. It is "5/minute" exactly otherwise. |
| Settings.CorsSettings | privaterelay/settings.py:947-973 | Gives the exact CORS origin list per channel, with the Bitwarden vault first, the QA vault only on dev and stage, and the localhost front-ends only on local. Also gives the URL regex. CSRF trusted origins are non-empty only on local and always a subset of the CORS origins. Credentials are on and the SameSite cookie setting is cleared only on local. |
| Settings.Sha512Sources | privaterelay/settings.py:135 | There is one `'sha512-…'` source per digest, in the same order. |
| Settings.CspStyleSrc | privaterelay/settings.py:111-137 | The list starts with `'self'`. On local it is `'self'` plus `'unsafe-inline'`. Elsewhere it is `'self'` followed by one hash source per CSS file, in walk order, and never includes `'unsafe-inline'`. |
| Settings.Split | privaterelay/settings.py:145 | `str.split` on a one-character separator. It yields at least one piece, and no piece contains the separator. |
| Settings.JoinSplit | privaterelay/settings.py:145 | Joining the pieces of a split with the separator gives the original string back. |
| Settings.SplitJoin | privaterelay/settings.py:145 | Pieces that do not contain the separator are recovered exactly by splitting their join. |
| Settings.AllowedHosts | privaterelay/settings.py:142-148 | The list holds the comma-separated `DJANGO_ALLOWED_HOST` entries when that is set, followed by the subnet's hosts when `DJANGO_ALLOWED_SUBNET` is set. It is empty when neither is set. |
| Settings.AllowedHostEntries | privaterelay/settings.py:144-145 | The host entries contain no comma and, joined with commas, give the setting back. |
| Settings.OptionalAppsNotInBase | privaterelay/settings.py:200-244 | No optional app is among the fixed apps. |
| Settings.OptionalAppsFollowFlags | privaterelay/settings.py:223-244 | Each optional app (debug toolbar, drf-yasg, silk, admin, emails, phones) is appended exactly when its flag is on. |
| Settings.SelectedAppsFollowFlags | privaterelay/settings.py:200-244 | The fixed apps come first and in order. Each optional app is installed exactly when its flag is on. |
| Settings.InstalledApps | privaterelay/settings.py:200-244 | The appended list equals the apps the flags select. Silk is installed per `USE_SILK` (debug, silk importable, not under pytest). Emails are enabled only with both an SES configuration set and an SNS topic. |
| Settings.InitialMiddleware | privaterelay/settings.py:248-253 | The result is the metrics middleware on its own when statsd is enabled, and empty otherwise. |
| Settings.SelectedMiddlewareFollowsFlags | privaterelay/settings.py:256-283 | The metrics middleware is first exactly when statsd is enabled. The silk and debug-toolbar middleware follow their flags. The fixed stack always closes the list. |
| Settings.MiddlewareList | privaterelay/settings.py:256-283 | The appended list equals the middleware the flags select, with silk's middleware chosen by `USE_SILK`. |
| Settings.SilkOnlyWhenUseSilk | privaterelay/settings.py:67 | Silk's app and middleware are present exactly when debug is on, silk is importable and pytest is not running. |
| Settings.HomePathDependsOnDebug | privaterelay/settings.py:833-836 | The debug home path (the front-end build) and the production home path (the static root) never coincide. |
| Settings.SetIndexCacheControlHeaders | privaterelay/settings.py:830-838 | For the home path, Cache-Control becomes "no-cache, public" and no other key is added. Any other path leaves the headers unchanged. No other header is ever altered. |
| PlanTables.PremiumPlanFor | privaterelay/settings.py:375-440 | A country and language pair has a premium price exactly when the mapping lists it, so every mapping entry is a matrix cell. |
| PlanTables.PeriodicalPremiumPlanFor | privaterelay/settings.py:592-659 | A periodical price exists exactly for the mapped pairs, and always has both a monthly and a yearly price. |
| PlanTables.PhonePlanFor | privaterelay/settings.py:686-694 | A phone price exists exactly for the mapped pairs, and always has both terms. |
| PlanTables.BundlePlanFor | privaterelay/settings.py:713-721 | A bundle price exists exactly for the mapped pairs, and is yearly and never monthly. |
| PlanTables.MappingsReferToMatrixCells | privaterelay/settings.py:316-721 | For all four products, every mapping entry names an existing cell of that product's matrix. |
| PlanTables.MatrixCellTerms | privaterelay/settings.py:442-711 | Periodical and phone cells have both terms. Bundle cells have only the yearly term. |
| PlanTables.AvailabilityIsNested | privaterelay/settings.py:375-721 | Bundles are offered only where phones are, phones only where periodical premium is, and periodical premium only where the original premium plan is. |

## Left out

- Reading configuration (`decouple.config`, casts, `Csv`): the values it yields are parameters.
- Hashing the CSS files and walking the directory: `CspStyleSrc` receives, per visited directory, the base64 SHA-512 digest of each file. The walk order is whatever `os.walk` yields.
- Enumerating `ipaddress.IPv4Network` hosts: `AllowedHosts` receives them as `subnetHosts`. An invalid subnet, which raises in the source, is not modelled.
- ipware's `get_client_ip`: its result is part of `Request`.
- ORM queries: `relayaddress_set` and `domainaddress_set` are sequences, `.count()` is their length, and `.earliest("created_at")` is `EarliestExtensionMaskDate`.
- Datetime to timestamp conversion: dates are integer seconds. A datetime is always truthy, so only a missing date gives -1.
- `metrics_premium_status` and `metrics_id`: computed elsewhere and passed through as strings.
- `record_email_mask_*`, `emit_record`, the Glean base class and the logger set-up: they only serialise the record that is modelled here.
- Sentry, markus and other library initialisation, and the settings dictionaries outside these rules (logging, templates, databases, caches, REST framework): they are wiring, not decisions.
- `SetIndexCacheControlHeaders`: the headers are a map keyed by exact name. `wsgiref.headers.Headers` matches names case-insensitively and is updated in place; the model returns the new map instead.
- `CorsSettings`: `CORS_ALLOW_CREDENTIALS` and `SESSION_COOKIE_SAMESITE` are set only on the local channel. Elsewhere the model uses the library defaults, false and "Lax".
- `CorsSettings`: on local, "http://localhost:3000" is appended twice (lines 955 and 967), and the model keeps the duplicate.
- Apps and middleware are enumerations. Their dotted names come from `AppName` and `MiddlewarePath`.
- Price-table keys are enumerations. Their dictionary keys come from `CurrencyCode`, `MatrixKeyCode` and `CountryCode`.
- Other settings not covered above (secrets, database URLs, feature flags with no branching) are not part of this model.
