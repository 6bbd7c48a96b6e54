/**
 * The background coordinator's session records and the effect of each request
 * handler on the session map, as values (background.js).
 *
 * Conventions taken from how background.js tests its fields:
 *  - every timestamp that may be `null` (`lastViolationAt`, `expiresAt`) is a
 *    `nat` of epoch milliseconds where 0 stands for `null`: every use in the
 *    source tests it for truthiness, so 0 and `null` behave alike;
 *  - a count supplied by a caller is the value of `Number(x) || 0`, so 0 also
 *    stands for a missing or non-numeric count.
 */
module BackgroundSessions {
  import opened Common

  /** Sliding session lifetime: one hour (background.js:5). */
  const SESSION_TTL_MS: nat := 3_600_000
  /** Number of violation events kept per session (`slice(-50)`). */
  const HISTORY_LIMIT: nat := 50

  // ---------------------------------------------------------------------------
  // Form identity
  // ---------------------------------------------------------------------------

  /** The parts of a URL that `new URL(...)` exposes. */
  datatype UrlParts = UrlParts(origin: string, pathname: string, search: string, hash: string)

  /** A URL string, either as the URL parser splits it or as text the parser rejects. */
  datatype RawUrl = Parsed(parts: UrlParts) | Unparsable(text: string)

  /** The text of a URL, as the caller passed it. */
  function Href(u: RawUrl): string
  {
    match u
    case Parsed(p) => p.origin + p.pathname + p.search + p.hash
    case Unparsable(t) => t
  }

  /** `data.formUrl || fallbackUrl`: the payload's URL unless it is empty. */
  function PickUrl(supplied: RawUrl, fallback: RawUrl): RawUrl
  {
    if Href(supplied) != "" then supplied else fallback
  }

  /**
   * The session key of a form: origin and path, with query and fragment
   * dropped; the empty string stays empty and text the parser rejects is used
   * as it is.
   */
  function NormalizeFormUrl(u: RawUrl): (key: string)
    ensures key <= Href(u)
    ensures Href(u) == "" ==> key == ""
    ensures u.Parsed? && Href(u) != "" ==> key + u.parts.search + u.parts.hash == Href(u)
    ensures u.Unparsable? ==> key == Href(u)
  {
    if Href(u) == "" then ""
    else match u
      case Parsed(p) => p.origin + p.pathname
      case Unparsable(t) => t
  }

  // ---------------------------------------------------------------------------
  // Session records
  // ---------------------------------------------------------------------------

  /** One entry of a session's violation log. `metadata` is opaque; "" stands for `{}`. */
  datatype HistoryEntry = HistoryEntry(trigger: string, timestamp: nat, metadata: string)

  /** What an `AUTO_SUBMIT` request recorded; `recordedAt` is the request time. */
  datatype AutoSubmitRecord = AutoSubmitRecord(success: bool, submitMethod: Option<string>, recordedAt: nat)

  /** A clearance time: a text the clearance provider sent, or the request time. */
  datatype ClearStamp = ProviderText(text: string) | At(ms: nat)

  datatype Session = Session(
    sessionId: string,
    formUrl: string,
    studentName: string,
    studentEmail: string,
    violationCount: int,
    startedAt: nat,
    lastViolationAt: nat,
    expiresAt: nat,
    examSubmitted: bool,
    clearedAt: Option<ClearStamp>,
    violationHistory: seq<HistoryEntry>,
    updatedAt: nat,
    autoSubmit: Option<AutoSubmitRecord>)

  /**
   * The `data` payload of a request. Absent strings are `None`; counts are
   * already `Number(x) || 0`; `examSubmitted` and `success` are truthiness.
   */
  datatype RequestData = RequestData(
    formUrl: RawUrl,
    studentName: Option<string>,
    studentEmail: Option<string>,
    violationCount: int,
    finalViolationCount: int,
    examSubmitted: bool,
    lastViolationAt: nat,
    expiresAt: nat,
    clearedAt: Option<string>,
    trigger: Option<string>,
    metadata: string,
    success: bool,
    submitMethod: Option<string>,
    sessionId: Option<string>)

  /** A provider's clearance text, or the request time when it sent none. */
  function StampOf(text: string, now: nat): (s: ClearStamp)
    ensures text != "" ==> s == ProviderText(text)
    ensures text == "" ==> s == At(now)
  {
    if text != "" then ProviderText(text) else At(now)
  }

  /** A new session for `formUrl`, seeded from a request payload; `id` is a fresh opaque id. */
  function CreateSession(formUrl: string, seed: RequestData, now: nat, id: string): Session
  {
    Session(
      sessionId := id,
      formUrl := formUrl,
      studentName := OrElse(seed.studentName, "Unknown"),
      studentEmail := OrElse(seed.studentEmail, ""),
      violationCount := seed.violationCount,
      startedAt := now,
      lastViolationAt := seed.lastViolationAt,
      expiresAt := seed.expiresAt,
      examSubmitted := seed.examSubmitted,
      clearedAt := if seed.clearedAt.Some? && seed.clearedAt.value != "" then Some(ProviderText(seed.clearedAt.value)) else None,
      violationHistory := [],
      updatedAt := now,
      autoSubmit := None)
  }

  // ---------------------------------------------------------------------------
  // Expiry
  // ---------------------------------------------------------------------------

  /** A session whose expiry is set and not in the future is expired. */
  predicate Expired(s: Session, now: nat)
  {
    s.expiresAt != 0 && s.expiresAt <= now
  }

  /** `isSessionExpired`: a missing session counts as expired. */
  predicate IsSessionExpired(s: Option<Session>, now: nat)
  {
    s.None? || Expired(s.value, now)
  }

  /** Slides the expiry to at least one TTL after `now`, never moving it earlier. */
  function ExtendSessionExpiry(s: Session, now: nat): (r: Session)
    ensures r.expiresAt >= s.expiresAt && r.expiresAt >= now + SESSION_TTL_MS
    ensures r.expiresAt == s.expiresAt || r.expiresAt == now + SESSION_TTL_MS
    ensures r == s.(expiresAt := r.expiresAt)
  {
    var target := now + SESSION_TTL_MS;
    s.(expiresAt := if s.expiresAt > target then s.expiresAt else target)
  }

  /** The session map after the lazy expiry sweep. */
  function Sweep(m: map<string, Session>, now: nat): (r: map<string, Session>)
    ensures forall k :: k in r <==> k in m && !Expired(m[k], now)
    ensures forall k :: k in r ==> r[k] == m[k]
  {
    map k | k in m && !Expired(m[k], now) :: m[k]
  }

  // ---------------------------------------------------------------------------
  // Classifiers used for the remote log
  // ---------------------------------------------------------------------------

  datatype Status = Warning | Lockout | Disqualified

  function StatusRank(s: Status): nat
  {
    match s
    case Warning => 0
    case Lockout => 1
    case Disqualified => 2
  }

  function SeverityFromCount(count: int): Severity
  {
    if count >= 4 then Critical
    else if count >= 3 then High
    else if count >= 2 then Medium
    else Low
  }

  function StatusFromCount(count: int): Status
  {
    if count >= 4 then Disqualified
    else if count >= 2 then Lockout
    else Warning
  }

  // ---------------------------------------------------------------------------
  // Requests, responses and the effect of each handler
  // ---------------------------------------------------------------------------

  /** The payload relayed to the logging webhook after a counted violation. */
  datatype ViolationLog = ViolationLog(
    sessionId: string, studentName: string, studentEmail: string, formUrl: string,
    violationType: string, violationCount: int, severity: Severity, status: Status,
    metadata: string)

  /** A positive clearance and whether it came from the webhook (else from Supabase). */
  datatype Clearance = Clearance(clearedAt: ClearStamp, viaWebhook: bool)

  /** Response payloads of the `type`-discriminated request surface. */
  datatype Response =
    | ErrorReply(error: string)
    | FailureReply(error: string)
    | SessionInfo(sessionId: string, violationCount: int, expiresAt: nat, examSubmitted: bool,
                  lastViolationAt: nat, clearedAt: Option<ClearStamp>)
    | ZeroCount
    | CountInfo(count: int, expiresAt: nat, examSubmitted: bool, clearedAt: Option<ClearStamp>)
    | Ignored
    | Reported(count: int, expiresAt: nat)
    | Alive(timestamp: nat)
    | AutoSubmitted(sessionId: string)
    | ClearStatus(status: Option<Clearance>)

  /**
   * The result of one handler on the (already swept) session map: the new map,
   * the response, whether the handler flushes the map to storage, and the
   * payload it relays to the logging webhook, if any.
   */
  datatype Step = Step(sessions: map<string, Session>, response: Response, persist: bool,
                       relay: Option<ViolationLog>)

  /** The session a handler works on: the stored one, or a new one from the payload. */
  function SessionFor(m: map<string, Session>, key: string, data: RequestData, now: nat, id: string): Session
  {
    if key in m then m[key] else CreateSession(key, data, now, id)
  }

  function InfoOf(s: Session): Response
  {
    SessionInfo(s.sessionId, s.violationCount, s.expiresAt, s.examSubmitted, s.lastViolationAt, s.clearedAt)
  }

  /** Whether init changes the stored name, e-mail or submitted flag (and so flushes the map). */
  predicate InitModifies(s: Session, data: RequestData)
  {
    || (data.studentName.Some? && data.studentName.value != "" && data.studentName.value != s.studentName)
    || (data.studentEmail.Some? && data.studentEmail.value != s.studentEmail)
    || (data.examSubmitted && !s.examSubmitted)
  }

  /** A known session after init: non-empty name, any supplied e-mail, submitted flag raised. */
  function MergeIdentity(s: Session, data: RequestData, now: nat): Session
  {
    var s1 := if data.studentName.Some? && data.studentName.value != "" then s.(studentName := data.studentName.value) else s;
    var s2 := if data.studentEmail.Some? then s1.(studentEmail := data.studentEmail.value) else s1;
    var s3 := if data.examSubmitted && !s2.examSubmitted then ExtendSessionExpiry(s2.(examSubmitted := true), now) else s2;
    s3.(updatedAt := now)
  }

  /** `handleInitSession` after loading and sweeping: create, or merge identity fields. */
  function InitStep(m: map<string, Session>, key: string, data: RequestData, now: nat, id: string): Step
  {
    if key !in m then
      var s := CreateSession(key, data, now, id);
      Step(m[key := s], InfoOf(s), true, None)
    else
      var s' := MergeIdentity(m[key], data, now);
      Step(m[key := s'], InfoOf(s'), InitModifies(m[key], data), None)
  }

  /** `handleGetViolationCount` after loading and sweeping: read only. */
  function CountStep(m: map<string, Session>, key: string): Step
  {
    if key !in m then Step(m, ZeroCount, false, None)
    else
      var s := m[key];
      Step(m, CountInfo(s.violationCount, s.expiresAt, s.examSubmitted, s.clearedAt), false, None)
  }

  /** The last `HISTORY_LIMIT` entries of a history (`slice(-50)`). */
  function KeepRecent(h: seq<HistoryEntry>): (r: seq<HistoryEntry>)
    ensures |r| <= HISTORY_LIMIT
    ensures |r| == if |h| <= HISTORY_LIMIT then |h| else HISTORY_LIMIT
    ensures r == h[|h| - |r|..]
  {
    if |h| <= HISTORY_LIMIT then h else h[|h| - HISTORY_LIMIT..]
  }

  /** `max(previousCount + 1, supplied)`. */
  function NextCount(previous: int, supplied: int): int
  {
    if previous + 1 >= supplied then previous + 1 else supplied
  }

  /** The history entry a report appends. */
  function EntryFor(data: RequestData, now: nat): HistoryEntry
  {
    HistoryEntry(OrElse(data.trigger, "unknown"), now, data.metadata)
  }

  /** A session after one counted violation (the body of `handleReportViolation`). */
  function RecordViolation(s: Session, data: RequestData, now: nat): Session
  {
    var bumped := s.(violationCount := NextCount(s.violationCount, data.violationCount),
                     lastViolationAt := now,
                     studentName := OrElse(data.studentName, OrElse(Some(s.studentName), "Unknown")),
                     studentEmail := data.studentEmail.GetOr(s.studentEmail),
                     updatedAt := now);
    ExtendSessionExpiry(bumped, now).(clearedAt := None,
      violationHistory := KeepRecent(s.violationHistory + [EntryFor(data, now)]))
  }

  /** The payload relayed to the logging webhook for a counted violation. */
  function LogFor(s: Session, key: string, data: RequestData): ViolationLog
  {
    ViolationLog(s.sessionId, OrElse(Some(s.studentName), "Unknown"),
                 OrElse(Some(s.studentEmail), "unknown@example.com"), key, OrElse(data.trigger, "unknown"),
                 s.violationCount, SeverityFromCount(s.violationCount), StatusFromCount(s.violationCount),
                 data.metadata)
  }

  /** `handleReportViolation` after loading and sweeping. */
  function ReportStep(m: map<string, Session>, key: string, data: RequestData, now: nat, id: string): Step
  {
    var s := SessionFor(m, key, data, now, id);
    if s.examSubmitted then Step(m, Ignored, false, None)
    else
      var s' := RecordViolation(s, data, now);
      Step(m[key := s'], Reported(s'.violationCount, s'.expiresAt), true, Some(LogFor(s', key, data)))
  }

  /** `handleAutoSubmit` after loading and sweeping. */
  function AutoSubmitStep(m: map<string, Session>, key: string, data: RequestData, now: nat, id: string): Step
  {
    var s := SessionFor(m, key, data, now, id);
    var claimed := if data.finalViolationCount != 0 then data.finalViolationCount else s.violationCount;
    var count := if s.violationCount >= claimed then s.violationCount else claimed;
    var how := if data.submitMethod.Some? && data.submitMethod.value != "" then data.submitMethod else None;
    var s' := ExtendSessionExpiry(s.(examSubmitted := true, updatedAt := now, lastViolationAt := now,
                violationCount := count, autoSubmit := Some(AutoSubmitRecord(data.success, how, now))), now);
    Step(m[key := s'], AutoSubmitted(s'.sessionId), true, None)
  }

  // ---------------------------------------------------------------------------
  // Clearance providers
  // ---------------------------------------------------------------------------

  /** The `clearanceProvider` settings and the webhook URL, from the cached configuration. */
  datatype ClearanceConfig = ClearanceConfig(enabled: bool, kind: string, supabaseUrl: string,
                                             supabaseAnonKey: string, webhookUrl: string)

  /** One row of the Supabase clearance table: `cleared` truthiness and `cleared_at`. */
  datatype ClearanceRow = ClearanceRow(cleared: bool, clearedAt: string)

  /** `parsed.clearStatus`: whether its `cleared` is `true`, and its `clearedAt` text. */
  datatype NestedStatus = NestedStatus(cleared: bool, clearedAt: string)

  /** The webhook's parsed reply: whether `cleared === true`, `clearedAt`, and `clearStatus`. */
  datatype WebhookReply = WebhookReply(cleared: bool, clearedAt: string, clearStatus: Option<NestedStatus>)

  predicate UsesSupabase(cfg: ClearanceConfig)
  {
    cfg.enabled && cfg.kind == "supabase"
  }

  /**
   * The clearance a provider grants. `rows` is the Supabase reply (`None` when
   * every attempt failed, the status was not OK or the body was not an array);
   * `reply` is the webhook's parsed body (`None` when every attempt failed or
   * the body was empty or not JSON). Exactly one of them is consulted.
   */
  function ProviderClearance(cfg: ClearanceConfig, rows: Option<seq<ClearanceRow>>,
                             reply: Option<WebhookReply>, now: nat): Option<Clearance>
  {
    if UsesSupabase(cfg) then
      if cfg.supabaseUrl == "" || cfg.supabaseAnonKey == "" then None
      else if rows.Some? && |rows.value| > 0 && rows.value[0].cleared then
        Some(Clearance(StampOf(rows.value[0].clearedAt, now), false))
      else None
    else if cfg.webhookUrl == "" then None
    else if reply.Some? && (reply.value.cleared || (reply.value.clearStatus.Some? && reply.value.clearStatus.value.cleared)) then
      var nestedAt := if reply.value.clearStatus.Some? then reply.value.clearStatus.value.clearedAt else "";
      var text := if reply.value.clearedAt != "" then reply.value.clearedAt else nestedAt;
      Some(Clearance(StampOf(text, now), true))
    else None
  }

  /** `handleCheckClearStatus` after loading and sweeping, given the provider's verdict. */
  function ClearStep(m: map<string, Session>, key: string, data: RequestData, now: nat, id: string,
                     clearance: Option<Clearance>): Step
  {
    var s := SessionFor(m, key, data, now, id);
    if clearance.Some? then
      var s' := s.(violationCount := 0, clearedAt := Some(clearance.value.clearedAt), updatedAt := now,
                   violationHistory := []);
      Step(m[key := s'], ClearStatus(clearance), true, None)
    else
      Step(m[key := s], ClearStatus(None), false, None)
  }

  /** The request `type`s whose handler works on the session of the request's form. */
  datatype SessionRequest = InitSession | GetViolationCount | ReportViolation | AutoSubmit | CheckClearStatus

  /** The step the handler a session request is routed to takes on the swept map. */
  function SessionStep(r: SessionRequest, swept: map<string, Session>, key: string, data: RequestData, now: nat,
                       id: string, clearance: Option<Clearance>): Step
  {
    match r
    case InitSession => InitStep(swept, key, data, now, id)
    case GetViolationCount => CountStep(swept, key)
    case ReportViolation => ReportStep(swept, key, data, now, id)
    case AutoSubmit => AutoSubmitStep(swept, key, data, now, id)
    case CheckClearStatus => ClearStep(swept, key, data, now, id, clearance)
  }
}
