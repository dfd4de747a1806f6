/**
 * The database schema (apps/backend/src/db/schema.ts): its enumerations, with
 * the text each one is stored and sent as, and one record type per table with
 * the column defaults the inserts rely on. Timestamps are milliseconds since
 * the epoch; decimal money columns are whole TON amounts.
 */
module Schema {
  import opened Wrappers
  import opened JsValues

  // ---------------------------------------------------------------- enumerations

  datatype DealStatus =
    | AwaitingCreative | CreativeSubmitted | AwaitingPayment | Scheduled | Posted | Completed | Cancelled
  {
    function Name(): string
    {
      match this
      case AwaitingCreative => "awaiting_creative"
      case CreativeSubmitted => "creative_submitted"
      case AwaitingPayment => "awaiting_payment"
      case Scheduled => "scheduled"
      case Posted => "posted"
      case Completed => "completed"
      case Cancelled => "cancelled"
    }
  }

  const AllDealStatuses: seq<DealStatus> :=
    [AwaitingCreative, CreativeSubmitted, AwaitingPayment, Scheduled, Posted, Completed, Cancelled]

  /** The stored text back to the enumeration value; `None` for text outside the enumeration. */
  function ParseDealStatus(s: string): (r: Option<DealStatus>)
    ensures r.Some? ==> r.value.Name() == s
    ensures r.None? ==> forall d: DealStatus :: d.Name() != s
  {
    if s == "awaiting_creative" then Some(AwaitingCreative)
    else if s == "creative_submitted" then Some(CreativeSubmitted)
    else if s == "awaiting_payment" then Some(AwaitingPayment)
    else if s == "scheduled" then Some(Scheduled)
    else if s == "posted" then Some(Posted)
    else if s == "completed" then Some(Completed)
    else if s == "cancelled" then Some(Cancelled)
    else None
  }

  /** The enumeration has exactly seven values, with distinct names, and every name parses back. */
  lemma DealStatusNames()
    ensures |AllDealStatuses| == 7
    ensures forall d: DealStatus :: d in AllDealStatuses
    ensures forall d: DealStatus :: ParseDealStatus(d.Name()) == Some(d)
    ensures forall d: DealStatus, e: DealStatus :: d.Name() == e.Name() ==> d == e
  {
    forall d: DealStatus ensures d in AllDealStatuses && ParseDealStatus(d.Name()) == Some(d) {
      DealStatusListed(d);
    }
    forall d: DealStatus, e: DealStatus | d.Name() == e.Name() ensures d == e {
      DealStatusListed(d);
      DealStatusListed(e);
    }
  }

  lemma DealStatusListed(d: DealStatus)
    ensures d in AllDealStatuses && ParseDealStatus(d.Name()) == Some(d)
  {
    match d
    case AwaitingCreative =>
    case CreativeSubmitted =>
    case AwaitingPayment =>
    case Scheduled =>
    case Posted =>
    case Completed =>
    case Cancelled =>
  }

  datatype CreativeStatus = Draft | Submitted | Approved | RevisionRequested
  {
    function Name(): string
    {
      match this
      case Draft => "draft"
      case Submitted => "submitted"
      case Approved => "approved"
      case RevisionRequested => "revision_requested"
    }
  }

  function ParseCreativeStatus(s: string): (r: Option<CreativeStatus>)
    ensures r.Some? ==> r.value.Name() == s
    ensures r.None? ==> forall c: CreativeStatus :: c.Name() != s
  {
    if s == "draft" then Some(Draft)
    else if s == "submitted" then Some(Submitted)
    else if s == "approved" then Some(Approved)
    else if s == "revision_requested" then Some(RevisionRequested)
    else None
  }

  datatype AdFormat = Post | Story | Forward
  {
    function Name(): string
    {
      match this
      case Post => "post"
      case Story => "story"
      case Forward => "forward"
    }
  }

  function ParseAdFormat(s: string): (r: Option<AdFormat>)
    ensures r.Some? ==> r.value.Name() == s
    ensures r.None? ==> forall f: AdFormat :: f.Name() != s
  {
    if s == "post" then Some(Post)
    else if s == "story" then Some(Story)
    else if s == "forward" then Some(Forward)
    else None
  }

  datatype AdRequestStatus = Open | InProgress | RequestCompleted | RequestCancelled
  {
    function Name(): string
    {
      match this
      case Open => "open"
      case InProgress => "in_progress"
      case RequestCompleted => "completed"
      case RequestCancelled => "cancelled"
    }
  }

  function ParseAdRequestStatus(s: string): (r: Option<AdRequestStatus>)
    ensures r.Some? ==> r.value.Name() == s
    ensures r.None? ==> forall a: AdRequestStatus :: a.Name() != s
  {
    if s == "open" then Some(Open)
    else if s == "in_progress" then Some(InProgress)
    else if s == "completed" then Some(RequestCompleted)
    else if s == "cancelled" then Some(RequestCancelled)
    else None
  }

  datatype ApplicationStatus = Pending | Accepted | Rejected
  {
    function Name(): string
    {
      match this
      case Pending => "pending"
      case Accepted => "accepted"
      case Rejected => "rejected"
    }
  }

  function ParseApplicationStatus(s: string): (r: Option<ApplicationStatus>)
    ensures r.Some? ==> r.value.Name() == s
    ensures r.None? ==> forall a: ApplicationStatus :: a.Name() != s
  {
    if s == "pending" then Some(Pending)
    else if s == "accepted" then Some(Accepted)
    else if s == "rejected" then Some(Rejected)
    else None
  }

  datatype PaymentType = EscrowHold | ReleaseToOwner | Refund
  datatype PaymentStatus = PaymentPending | Confirming | Confirmed | Failed
  datatype AdminRole = Owner | Admin
  datatype AdminSource = Telegram | Invite
  datatype LoginMode = Phone | Qr
  datatype LoginStatus = WaitingCode | WaitingPassword | Done | Expired | Canceled
  datatype SessionType = StatsAgent
  datatype SessionStatus = Active | Disabled

  /** How a settled deal ended; a subset of the deal and ad-request statuses. */
  datatype SettleOutcome = OutcomeCompleted | OutcomeCancelled
  {
    function DealStatusOf(): DealStatus
    {
      if this.OutcomeCompleted? then Completed else Cancelled
    }
    function AdRequestStatusOf(): AdRequestStatus
    {
      if this.OutcomeCompleted? then RequestCompleted else RequestCancelled
    }
  }

  /** The outcome names are valid in both status enumerations it is written to. */
  lemma OutcomeNames(o: SettleOutcome)
    ensures o.DealStatusOf().Name() == o.AdRequestStatusOf().Name()
    ensures ParseDealStatus(o.AdRequestStatusOf().Name()) == Some(o.DealStatusOf())
  {
  }

  // ---------------------------------------------------------------- rows

  datatype User = User(tid: int, firstName: string, lastName: Option<string>, username: Option<string>)

  datatype LoginFlow = LoginFlow(
    id: string, mode: LoginMode, status: LoginStatus, storageKey: string,
    phone: Option<string>, phoneCodeHash: Option<string>,
    expiresAt: int, createdAt: int, updatedAt: int)

  datatype TgSession = TgSession(
    id: string, sessionType: SessionType, status: SessionStatus, sessionLabel: Option<string>,
    storageKey: string, tgUserId: string, tgUsername: Option<string>,
    tgFirstName: string, tgLastName: Option<string>, isPremium: bool, createdAt: int)

  /** One entry of a channel's audience-language statistics. */
  datatype LanguageStat = LanguageStat(name: string, total: int)

  /**
   * A channel. The `languages` and `listingInfo` text columns hold JSON; the
   * model keeps the parsed value.
   */
  datatype Channel = Channel(
    id: int, tgId: int, accessHash: string, title: Option<string>, ownerId: Option<int>,
    tgLink: string, subCount: Option<int>, avgPostReach: Option<int>,
    languages: Option<seq<LanguageStat>>, listingInfo: Option<Fields>,
    walletAddress: Option<string>, isPublic: Option<bool>, createdAt: int, updatedAt: int)

  datatype ChannelAdmin = ChannelAdmin(
    id: int, channelId: int, tgUserId: int, role: AdminRole, addedAt: int, source: AdminSource)

  datatype AdRequest = AdRequest(
    id: int, title: string, description: Option<string>, budget: int,
    minSubscribers: Option<int>, language: Option<string>, deadline: int, adFormat: AdFormat,
    contentGuidelines: Option<string>, advertiserId: int, status: AdRequestStatus,
    createdAt: int, updatedAt: int)

  datatype Application = Application(
    id: int, adRequestId: int, channelId: int, status: ApplicationStatus, appliedAt: int)

  datatype Deal = Deal(
    id: int, applicationId: int, channelId: int, advertiserId: int, adFormat: AdFormat,
    agreedPrice: int, status: DealStatus, scheduledPostAt: int, minPostDurationHours: Option<int>,
    completedAt: Option<int>, cancelledAt: Option<int>, tgPostId: Option<int>,
    createdAt: int, updatedAt: int)

  /**
   * A row of `deal_creatives`. The table has no review-note column, so a row
   * carries none, whatever the handlers try to read or write.
   */
  datatype Creative = Creative(
    id: int, dealId: int, version: int, content: string, mediaUrls: Option<seq<string>>,
    status: CreativeStatus, submittedAt: Option<int>, reviewedAt: Option<int>, createdAt: int)

  datatype Payment = Payment(
    id: int, dealId: int, escrowWallet: int, paymentType: PaymentType, status: PaymentStatus,
    amountInTon: int, fromAddress: Option<string>, toAddress: Option<string>,
    txHash: Option<string>, confirmedAt: Option<int>, createdAt: int)

  datatype EscrowWallet = EscrowWallet(id: int, address: string, publicKey: string, privateKey: string)

  // ---------------------------------------------------------------- inserts with defaults

  /**
   * A deal row as an insert that names only the required columns produces it.
   * The code shown never inserts deals; this is how the model creates one.
   */
  function NewDeal(id: int, applicationId: int, channelId: int, advertiserId: int, adFormat: AdFormat,
                   agreedPrice: int, scheduledPostAt: int, now: int): (d: Deal)
    ensures d.status == AwaitingCreative && d.minPostDurationHours == Some(24)
    ensures d.completedAt.None? && d.cancelledAt.None? && d.tgPostId.None?
    ensures d.id == id && d.applicationId == applicationId && d.agreedPrice == agreedPrice
    ensures d.createdAt == now && d.updatedAt == now
  {
    Deal(id, applicationId, channelId, advertiserId, adFormat, agreedPrice, AwaitingCreative,
         scheduledPostAt, Some(24), None, None, None, now, now)
  }

  /** A creative inserted without `version`, `mediaUrls` or `status`. */
  function NewCreative(id: int, dealId: int, content: string, now: int): (c: Creative)
    ensures c.version == 1 && c.status == Draft && c.mediaUrls == Some([])
    ensures c.submittedAt.None? && c.reviewedAt.None?
  {
    Creative(id, dealId, 1, content, Some([]), Draft, None, None, now)
  }

  /** A payment inserted without `status`. */
  function NewPayment(id: int, dealId: int, escrowWallet: int, paymentType: PaymentType, amount: int,
                      fromAddress: Option<string>, toAddress: Option<string>, now: int): (p: Payment)
    ensures p.status == PaymentPending && p.txHash.None? && p.confirmedAt.None?
    ensures p.dealId == dealId && p.amountInTon == amount && p.paymentType == paymentType
  {
    Payment(id, dealId, escrowWallet, paymentType, PaymentPending, amount, fromAddress, toAddress, None, None, now)
  }

  /** An application inserted without `status`. */
  function NewApplication(id: int, adRequestId: int, channelId: int, now: int): (a: Application)
    ensures a.status == Pending && a.adRequestId == adRequestId && a.channelId == channelId
  {
    Application(id, adRequestId, channelId, Pending, now)
  }

  /** A channel-admin row inserted without `role` or `source`. */
  function NewChannelAdmin(id: int, channelId: int, tgUserId: int, now: int): (a: ChannelAdmin)
    ensures a.role == Owner && a.source == Telegram
  {
    ChannelAdmin(id, channelId, tgUserId, Owner, now, Telegram)
  }
}
