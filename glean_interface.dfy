/**
 * The payloads of the two telemetry events Relay emits about email masks,
 * `email_mask.created` and `email_mask.deleted` (RelayGleanLogger in
 * privaterelay/glean_interface.py).
 *
 * The logger reads a request, a user with their profile and masks, and the
 * mask itself, and hands a flat record to the generated `record_*` method.
 * Here the record is a value of `MaskEvent`; the database queries become
 * sequences of mask records and times are whole seconds since the epoch.
 */
module GleanInterface {
  import opened Options

  /** What the logger reads from an HTTP request: the "user-agent" header if
      one was sent, and the pair that ipware's `get_client_ip` reports
      (an address or none, and whether it is publicly routable). */
  datatype Request = Request(userAgent: Option<string>, clientIp: Option<string>, isRoutable: bool)

  /** A random mask (`RelayAddress`): when it was made, the website it was
      generated for ("" when none was recorded) and its metrics id. */
  datatype RelayAddress = RelayAddress(createdAt: int, generatedFor: string, metricsId: string)

  /** A mask on the user's own subdomain (`DomainAddress`). */
  datatype DomainAddress = DomainAddress(createdAt: int, metricsId: string)

  /** A mask is exactly one of the two kinds. */
  datatype Mask = Random(relay: RelayAddress) | Domain(domain: DomainAddress)

  /** The profile fields the logger reads. `fxaUid` is the uid of the linked
      Firefox Accounts social account, None when no account is linked;
      `metricsPremiumStatus` is computed elsewhere and passed through. */
  datatype Profile = Profile(
    hasPremium: bool,
    hasPhone: bool,
    dateSubscribed: Option<int>,
    dateSubscribedPhone: Option<int>,
    numDeletedRelayAddresses: nat,
    numDeletedDomainAddresses: nat,
    fxaUid: Option<string>,
    metricsPremiumStatus: string)

  /** A user, with the rows of `relayaddress_set` and `domainaddress_set`. */
  datatype User = User(
    dateJoined: int,
    profile: Profile,
    relayAddresses: seq<RelayAddress>,
    domainAddresses: seq<DomainAddress>)

  /** The keyword arguments of `record_email_mask_created` and
      `record_email_mask_deleted`; the first fourteen fields are shared. */
  datatype MaskEvent =
    | EmailMaskCreated(
        userAgent: string, ipAddress: string, clientId: string, fxaId: string, platform: string,
        nRandomMasks: nat, nDomainMasks: nat, nDeletedRandomMasks: nat, nDeletedDomainMasks: nat,
        dateJoinedRelay: int, premiumStatus: string, dateJoinedPremium: int,
        hasExtension: bool, dateGotExtension: int,
        maskId: string, isRandomMask: bool, createdByApi: bool, hasWebsite: bool)
    | EmailMaskDeleted(
        userAgent: string, ipAddress: string, clientId: string, fxaId: string, platform: string,
        nRandomMasks: nat, nDomainMasks: nat, nDeletedRandomMasks: nat, nDeletedDomainMasks: nat,
        dateJoinedRelay: int, premiumStatus: string, dateJoinedPremium: int,
        hasExtension: bool, dateGotExtension: int,
        maskId: string, isRandomMask: bool)

  /** The client IP is reported only when there is one and it is publicly routable. */
  predicate KeepsClientIp(r: Request) {
    r.clientIp.Some? && r.clientIp.value != "" && r.isRoutable
  }

  /** A random mask made by the browser add-on records the site it was generated for. */
  predicate FromExtension(m: RelayAddress) {
    m.generatedFor != ""
  }

  /** The user agent: empty without a request or without the header. */
  function UserAgent(request: Option<Request>): (ua: string)
    ensures ua == "" || (request.Some? && request.value.userAgent == Some(ua))
    ensures request.Some? && request.value.userAgent.Some? ==> ua == request.value.userAgent.value
  {
    match request
    case None => ""
    case Some(r) => r.userAgent.GetOr("")
  }

  /** The IP address field: the client IP when it is present and routable, else "". */
  function IpAddress(request: Option<Request>): (ip: string)
    ensures ip != "" ==> request.Some? && request.value.isRoutable && request.value.clientIp == Some(ip)
    ensures request.Some? && request.value.isRoutable && request.value.clientIp.Some? ==>
              ip == request.value.clientIp.value
  {
    match request
    case None => ""
    case Some(r) => if KeepsClientIp(r) then r.clientIp.value else ""
  }

  /** The date the premium join time comes from: a premium phone user's phone
      subscription date, any other premium user's subscription date, and
      nothing for a user without premium. */
  function PremiumSubscriptionDate(p: Profile): (date: Option<int>) {
    if !p.hasPremium then None
    else if p.hasPhone then p.dateSubscribedPhone
    else p.dateSubscribed
  }

  /** `date_joined_premium`, with -1 meaning "never subscribed or no date known". */
  function DateJoinedPremium(p: Profile): (d: int)
    ensures !p.hasPremium ==> d == -1
    ensures p.hasPremium && p.hasPhone ==> d == p.dateSubscribedPhone.GetOr(-1)
    ensures p.hasPremium && !p.hasPhone ==> d == p.dateSubscribed.GetOr(-1)
  {
    match PremiumSubscriptionDate(p)
    case Some(date) => date
    case None => -1
  }

  /** The `created_at` of the earliest random mask made by the add-on, or None
      when there is no such mask (the query that raises `DoesNotExist`). */
  function EarliestExtensionMaskDate(masks: seq<RelayAddress>): (d: Option<int>)
    ensures d.None? <==> forall i :: 0 <= i < |masks| ==> !FromExtension(masks[i])
    ensures d.Some? ==> exists i :: 0 <= i < |masks| && FromExtension(masks[i]) && masks[i].createdAt == d.value
    ensures d.Some? ==> forall i :: 0 <= i < |masks| && FromExtension(masks[i]) ==> d.value <= masks[i].createdAt
  {
    if masks == [] then None
    else
      var rest := EarliestExtensionMaskDate(masks[1..]);
      if !FromExtension(masks[0]) then rest
      else match rest
        case None => Some(masks[0].createdAt)
        case Some(later) => Some(if masks[0].createdAt <= later then masks[0].createdAt else later)
  }

  /** The metrics id of either kind of mask. */
  function MaskId(mask: Mask): (id: string) {
    match mask
    case Random(m) => m.metricsId
    case Domain(m) => m.metricsId
  }

  /** `has_website`: only a random mask can have been generated for a website. */
  function HasWebsite(mask: Mask): (b: bool)
    ensures b ==> mask.Random?
    ensures mask.Random? ==> (b <==> mask.relay.generatedFor != "")
  {
    match mask
    case Random(m) => FromExtension(m)
    case Domain(_) => false
  }

  /** `log_email_mask_created`; `owner` is `mask.user`. */
  function LogEmailMaskCreated(request: Option<Request>, mask: Mask, owner: User, createdByApi: bool): (e: MaskEvent)
    ensures e.EmailMaskCreated?
  {
    var extension := EarliestExtensionMaskDate(owner.relayAddresses);
    EmailMaskCreated(
      userAgent := UserAgent(request),
      ipAddress := IpAddress(request),
      clientId := "",
      fxaId := owner.profile.fxaUid.GetOr(""),
      platform := "",
      nRandomMasks := |owner.relayAddresses|,
      nDomainMasks := |owner.domainAddresses|,
      nDeletedRandomMasks := owner.profile.numDeletedRelayAddresses,
      nDeletedDomainMasks := owner.profile.numDeletedDomainAddresses,
      dateJoinedRelay := owner.dateJoined,
      premiumStatus := owner.profile.metricsPremiumStatus,
      dateJoinedPremium := DateJoinedPremium(owner.profile),
      hasExtension := extension.Some?,
      dateGotExtension := extension.GetOr(-1),
      maskId := MaskId(mask),
      isRandomMask := mask.Random?,
      createdByApi := createdByApi,
      hasWebsite := HasWebsite(mask))
  }

  /** `log_email_mask_deleted`: the mask is gone, so its id and kind are passed in. */
  function LogEmailMaskDeleted(request: Option<Request>, user: User, maskId: string, isRandomMask: bool): (e: MaskEvent)
    ensures e.EmailMaskDeleted?
  {
    var extension := EarliestExtensionMaskDate(user.relayAddresses);
    EmailMaskDeleted(
      userAgent := UserAgent(request),
      ipAddress := IpAddress(request),
      clientId := "",
      fxaId := user.profile.fxaUid.GetOr(""),
      platform := "",
      nRandomMasks := |user.relayAddresses|,
      nDomainMasks := |user.domainAddresses|,
      nDeletedRandomMasks := user.profile.numDeletedRelayAddresses,
      nDeletedDomainMasks := user.profile.numDeletedDomainAddresses,
      dateJoinedRelay := user.dateJoined,
      premiumStatus := user.profile.metricsPremiumStatus,
      dateJoinedPremium := DateJoinedPremium(user.profile),
      hasExtension := extension.Some?,
      dateGotExtension := extension.GetOr(-1),
      maskId := maskId,
      isRandomMask := isRandomMask)
  }

  /** The fields both events share, read from one user and one request. */
  predicate SameSharedFields(a: MaskEvent, b: MaskEvent) {
    && a.userAgent == b.userAgent && a.ipAddress == b.ipAddress
    && a.clientId == b.clientId && a.fxaId == b.fxaId && a.platform == b.platform
    && a.nRandomMasks == b.nRandomMasks && a.nDomainMasks == b.nDomainMasks
    && a.nDeletedRandomMasks == b.nDeletedRandomMasks && a.nDeletedDomainMasks == b.nDeletedDomainMasks
    && a.dateJoinedRelay == b.dateJoinedRelay && a.premiumStatus == b.premiumStatus
    && a.dateJoinedPremium == b.dateJoinedPremium
    && a.hasExtension == b.hasExtension && a.dateGotExtension == b.dateGotExtension
  }

  // ---------------------------------------------------------------------
  // Field-level properties, stated for both events in terms of the inputs.
  // ---------------------------------------------------------------------

  /** Without a request, user agent and IP address are both empty. */
  lemma NoRequestNoClientFields(mask: Mask, user: User, createdByApi: bool, maskId: string, isRandomMask: bool)
    ensures var e := LogEmailMaskCreated(None, mask, user, createdByApi); e.userAgent == "" && e.ipAddress == ""
    ensures var e := LogEmailMaskDeleted(None, user, maskId, isRandomMask); e.userAgent == "" && e.ipAddress == ""
  {
  }

  /** With a request, the IP is the client's exactly when it is non-empty and
      routable, and a missing user-agent header gives "". */
  lemma RequestClientFields(r: Request, mask: Mask, user: User, createdByApi: bool, maskId: string, isRandomMask: bool)
    ensures var e := LogEmailMaskCreated(Some(r), mask, user, createdByApi);
      && e.ipAddress == (if KeepsClientIp(r) then r.clientIp.value else "")
      && e.userAgent == r.userAgent.GetOr("")
    ensures var e := LogEmailMaskDeleted(Some(r), user, maskId, isRandomMask);
      && e.ipAddress == (if KeepsClientIp(r) then r.clientIp.value else "")
      && e.userAgent == r.userAgent.GetOr("")
  {
  }

  /** `fxa_id` is the linked account's uid or ""; `client_id` and `platform` are
      always ""; `premium_status` is the profile's metrics status. */
  lemma IdentityFields(request: Option<Request>, mask: Mask, user: User, createdByApi: bool, maskId: string, isRandomMask: bool)
    ensures var e := LogEmailMaskCreated(request, mask, user, createdByApi);
      && e.fxaId == (if user.profile.fxaUid.Some? then user.profile.fxaUid.value else "")
      && e.clientId == "" && e.platform == ""
      && e.premiumStatus == user.profile.metricsPremiumStatus
    ensures var e := LogEmailMaskDeleted(request, user, maskId, isRandomMask);
      && e.fxaId == (if user.profile.fxaUid.Some? then user.profile.fxaUid.value else "")
      && e.clientId == "" && e.platform == ""
      && e.premiumStatus == user.profile.metricsPremiumStatus
  {
  }

  /** The mask counters count the user's masks of each kind; the deleted
      counters and the join time come from the profile. */
  lemma CounterFields(request: Option<Request>, mask: Mask, user: User, createdByApi: bool, maskId: string, isRandomMask: bool)
    ensures var e := LogEmailMaskCreated(request, mask, user, createdByApi);
      && e.nRandomMasks == |user.relayAddresses| && e.nDomainMasks == |user.domainAddresses|
      && e.nDeletedRandomMasks == user.profile.numDeletedRelayAddresses
      && e.nDeletedDomainMasks == user.profile.numDeletedDomainAddresses
      && e.dateJoinedRelay == user.dateJoined
    ensures var e := LogEmailMaskDeleted(request, user, maskId, isRandomMask);
      && e.nRandomMasks == |user.relayAddresses| && e.nDomainMasks == |user.domainAddresses|
      && e.nDeletedRandomMasks == user.profile.numDeletedRelayAddresses
      && e.nDeletedDomainMasks == user.profile.numDeletedDomainAddresses
      && e.dateJoinedRelay == user.dateJoined
  {
  }

  /** The premium join date: -1 without premium; otherwise the phone date for
      a phone user and the subscription date for anyone else, -1 if missing. */
  lemma PremiumJoinDate(request: Option<Request>, mask: Mask, user: User, createdByApi: bool, maskId: string, isRandomMask: bool)
    ensures var p := user.profile;
      var e := LogEmailMaskCreated(request, mask, user, createdByApi);
      && (!p.hasPremium ==> e.dateJoinedPremium == -1)
      && (p.hasPremium && p.hasPhone ==> e.dateJoinedPremium == p.dateSubscribedPhone.GetOr(-1))
      && (p.hasPremium && !p.hasPhone ==> e.dateJoinedPremium == p.dateSubscribed.GetOr(-1))
    ensures var p := user.profile;
      var e := LogEmailMaskDeleted(request, user, maskId, isRandomMask);
      && (!p.hasPremium ==> e.dateJoinedPremium == -1)
      && (p.hasPremium && p.hasPhone ==> e.dateJoinedPremium == p.dateSubscribedPhone.GetOr(-1))
      && (p.hasPremium && !p.hasPhone ==> e.dateJoinedPremium == p.dateSubscribed.GetOr(-1))
  {
  }

  /** `has_extension` holds iff some random mask was made by the add-on; then
      `date_got_extension` is the least `created_at` among exactly those
      masks, and otherwise it is -1. */
  lemma ExtensionFields(request: Option<Request>, mask: Mask, user: User, createdByApi: bool, maskId: string, isRandomMask: bool)
    ensures var e := LogEmailMaskCreated(request, mask, user, createdByApi);
      var masks := user.relayAddresses;
      && (e.hasExtension <==> exists i :: 0 <= i < |masks| && FromExtension(masks[i]))
      && (!e.hasExtension ==> e.dateGotExtension == -1)
      && (e.hasExtension ==> exists i :: 0 <= i < |masks| && FromExtension(masks[i]) && masks[i].createdAt == e.dateGotExtension)
      && (e.hasExtension ==> forall i :: 0 <= i < |masks| && FromExtension(masks[i]) ==> e.dateGotExtension <= masks[i].createdAt)
    ensures var e := LogEmailMaskDeleted(request, user, maskId, isRandomMask);
      var masks := user.relayAddresses;
      && (e.hasExtension <==> exists i :: 0 <= i < |masks| && FromExtension(masks[i]))
      && (!e.hasExtension ==> e.dateGotExtension == -1)
      && (e.hasExtension ==> exists i :: 0 <= i < |masks| && FromExtension(masks[i]) && masks[i].createdAt == e.dateGotExtension)
      && (e.hasExtension ==> forall i :: 0 <= i < |masks| && FromExtension(masks[i]) ==> e.dateGotExtension <= masks[i].createdAt)
  {
  }

  /** The created event's mask flags: `is_random_mask` iff the mask is a random
      one, and `has_website` only for a random mask with a recorded website. */
  lemma CreatedMaskFlags(request: Option<Request>, mask: Mask, owner: User, createdByApi: bool)
    ensures var e := LogEmailMaskCreated(request, mask, owner, createdByApi);
      && (e.isRandomMask <==> mask.Random?)
      && (mask.Domain? ==> !e.hasWebsite)
      && (mask.Random? ==> (e.hasWebsite <==> mask.relay.generatedFor != ""))
      && e.maskId == MaskId(mask)
      && e.createdByApi == createdByApi
  {
  }

  /** From the same request and user, both events carry the same values in
      every shared field; the deleted event passes its mask id and kind
      through, and with the deleted mask's own id and kind it carries the
      created event's mask fields too. */
  lemma CreatedAndDeletedAgree(request: Option<Request>, mask: Mask, user: User, createdByApi: bool, maskId: string, isRandomMask: bool)
    ensures SameSharedFields(LogEmailMaskCreated(request, mask, user, createdByApi),
                             LogEmailMaskDeleted(request, user, maskId, isRandomMask))
    ensures var d := LogEmailMaskDeleted(request, user, maskId, isRandomMask);
      d.maskId == maskId && d.isRandomMask == isRandomMask
    ensures var c := LogEmailMaskCreated(request, mask, user, createdByApi);
      var d := LogEmailMaskDeleted(request, user, MaskId(mask), mask.Random?);
      c.maskId == d.maskId && c.isRandomMask == d.isRandomMask
  {
  }
}
