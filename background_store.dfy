/**
 * The background coordinator's module-level session store (background.js):
 * the `sessionStore` map and `sessionStoreLoaded` flag that every handler
 * loads, sweeps and updates in place, the persisted copy in extension storage,
 * and the `type`-discriminated request dispatcher.
 *
 * Storage is the field `disk`. A read that fails (`readOk == false`) loads an
 * empty map, as the source's `catch` does; a write that fails leaves `disk` as
 * it was, since the source only logs it. A handler may write twice, and each
 * write has its own flag: `sweepWriteOk` for the sweep's write-back of the
 * swept map, `persistOk` for the handler's own `persistSessionStore`.
 * `now` is the handler's `Date.now()`, and `id` the fresh session id a new
 * session would get.
 */
module BackgroundStore {
  import opened Common
  import opened BackgroundSessions
  import BackgroundProperties

  /** The map a handler starts from: the in-memory store once loaded, else what storage yields. */
  function Base(loaded: bool, sessions: map<string, Session>, disk: map<string, Session>, readOk: bool)
    : map<string, Session>
  {
    if loaded then sessions else if readOk then disk else map[]
  }

  /** Storage after the sweep: the sweep writes the swept map back only when it removed something. */
  function DiskAfterSweep(base: map<string, Session>, disk: map<string, Session>, now: nat, writeOk: bool)
    : map<string, Session>
  {
    if writeOk && Sweep(base, now) != base then Sweep(base, now) else disk
  }

  /**
   * Storage after a handler step on the swept map: the step's map when it
   * persists and that write succeeds, otherwise whatever the sweep left.
   */
  function DiskAfter(base: map<string, Session>, disk: map<string, Session>, now: nat,
                     sweepWriteOk: bool, persistOk: bool, st: Step): map<string, Session>
  {
    if persistOk && st.persist then st.sessions else DiskAfterSweep(base, disk, now, sweepWriteOk)
  }

  /**
   * A worker whose first load fails starts from an empty map, so the first
   * report it persists overwrites storage with that one session: every other
   * stored session is lost.
   */
  lemma FailedLoadOverwritesStorage(disk: map<string, Session>, key: string, data: RequestData, now: nat, id: string)
    ensures var st := ReportStep(Sweep(map[], now), key, data, now, id);
            st.persist ==> DiskAfter(map[], disk, now, true, true, st).Keys <= {key}
  {
    BackgroundProperties.ReportTouchesOnlyItsKey(Sweep(map[], now), key, data, now, id);
  }

  /** What a request answers, and the violation log it relays, if any. */
  datatype Outcome = Outcome(response: Response, relay: Option<ViolationLog>)

  class SessionStore {
    /** `sessionStore`: normalised form key to session. */
    var sessions: map<string, Session>
    /** `sessionStoreLoaded`. */
    var loaded: bool
    /** The copy under `examLockdown.sessionStore` in extension storage. */
    var disk: map<string, Session>

    /** A fresh worker: nothing loaded yet, storage as given. */
    constructor (stored: map<string, Session>)
      ensures sessions == map[] && !loaded && disk == stored
    {
      sessions := map[];
      loaded := false;
      disk := stored;
    }

    /** `persistSessionStore`: writes the map only once it has been loaded. */
    method PersistSessionStore(writeOk: bool)
      modifies this
      ensures sessions == old(sessions) && loaded == old(loaded)
      ensures disk == if loaded && writeOk then sessions else old(disk)
    {
      if !loaded {
        return;
      }
      if writeOk {
        disk := sessions;
      }
    }

    /**
     * `cleanupExpiredSessions`: deletes, entry by entry, every session whose
     * expiry is set and not in the future, and persists if it deleted any.
     */
    method CleanupExpiredSessions(now: nat, writeOk: bool)
      modifies this
      ensures loaded == old(loaded)
      ensures !old(loaded) ==> sessions == old(sessions) && disk == old(disk)
      ensures old(loaded) ==> sessions == Sweep(old(sessions), now)
      ensures old(loaded) ==> disk == DiskAfterSweep(old(sessions), old(disk), now, writeOk)
    {
      if !loaded {
        return;
      }
      var keys := sessions.Keys;
      var modified := false;
      while keys != {}
        invariant keys <= old(sessions).Keys
        invariant forall k :: k in sessions <==> k in old(sessions) && (k in keys || !Expired(old(sessions)[k], now))
        invariant forall k :: k in sessions ==> sessions[k] == old(sessions)[k]
        invariant !modified ==> sessions == old(sessions)
        invariant modified ==> exists k :: k in old(sessions) && k !in sessions
        invariant loaded && disk == old(disk)
        decreases keys
      {
        var k :| k in keys;
        if Expired(sessions[k], now) {
          sessions := sessions - {k};
          modified := true;
        }
        keys := keys - {k};
      }
      assert sessions == Sweep(old(sessions), now);
      if modified {
        PersistSessionStore(writeOk);
      }
    }

    /** `ensureSessionStore`: loads storage once (an empty map when the read fails), then sweeps. */
    method EnsureSessionStore(now: nat, readOk: bool, writeOk: bool)
      modifies this
      ensures loaded
      ensures old(loaded) ==> sessions == old(sessions) && disk == old(disk)
      ensures !old(loaded) ==> sessions == Sweep(Base(false, old(sessions), old(disk), readOk), now)
      ensures !old(loaded) ==> disk == DiskAfterSweep(Base(false, old(sessions), old(disk), readOk), old(disk), now, writeOk)
    {
      if loaded {
        return;
      }
      sessions := if readOk then disk else map[];
      loaded := true;
      CleanupExpiredSessions(now, writeOk);
    }

    /** The load and sweep every session handler starts with. */
    method LoadAndSweep(now: nat, readOk: bool, writeOk: bool)
      modifies this
      ensures loaded
      ensures sessions == Sweep(Base(old(loaded), old(sessions), old(disk), readOk), now)
      ensures disk == DiskAfterSweep(Base(old(loaded), old(sessions), old(disk), readOk), old(disk), now, writeOk)
    {
      ghost var base := Base(loaded, sessions, disk, readOk);
      EnsureSessionStore(now, readOk, writeOk);
      BackgroundProperties.SweepIdempotent(base, now);
      CleanupExpiredSessions(now, writeOk);
    }

    /** The store's fields as one value. */
    function State(): StoreState
      reads this
    {
      StoreState(sessions, loaded, disk)
    }

    /**
     * The body of `handleInitSession` once the store is loaded and swept:
     * creates the session, or merges name, e-mail and the submitted flag into
     * it, and persists only when something changed.
     */
    method InitOnStore(key: string, data: RequestData, now: nat, id: string, persistOk: bool)
      returns (response: Response)
      requires loaded
      modifies this
      ensures var st := InitStep(old(sessions), key, data, now, id);
              loaded && sessions == st.sessions && response == st.response
              && disk == if persistOk && st.persist then st.sessions else old(disk)
    {
      var session: Session;
      var modified := false;
      if key !in sessions {
        session := CreateSession(key, data, now, id);
        sessions := sessions[key := session];
        modified := true;
      } else {
        session := sessions[key];
        if data.studentName.Some? && data.studentName.value != "" && data.studentName.value != session.studentName {
          session := session.(studentName := data.studentName.value);
          modified := true;
        }
        if data.studentEmail.Some? && data.studentEmail.value != session.studentEmail {
          session := session.(studentEmail := data.studentEmail.value);
          modified := true;
        }
        if data.examSubmitted && !session.examSubmitted {
          session := ExtendSessionExpiry(session.(examSubmitted := true), now);
          modified := true;
        }
        session := session.(updatedAt := now);
        assert session == MergeIdentity(old(sessions)[key], data, now);
        sessions := sessions[key := session];
      }
      assert modified == InitStep(old(sessions), key, data, now, id).persist;
      if modified {
        PersistSessionStore(persistOk);
      }
      response := InfoOf(session);
    }

    /** `handleInitSession`. */
    method HandleInitSession(data: RequestData, tabUrl: RawUrl, now: nat, id: string, readOk: bool,
                             sweepWriteOk: bool, persistOk: bool)
      returns (response: Response)
      modifies this
      ensures Handled(InitSession, NormalizeFormUrl(PickUrl(data.formUrl, tabUrl)), data, now, id, None,
                      readOk, sweepWriteOk, persistOk, response, None, old(State()), State())
    {
      var key := NormalizeFormUrl(PickUrl(data.formUrl, tabUrl));
      if key == "" {
        return ErrorReply("Missing form URL for session initialization");
      }
      LoadAndSweep(now, readOk, sweepWriteOk);
      response := InitOnStore(key, data, now, id, persistOk);
    }

    /** The body of `handleGetViolationCount` once the store is loaded and swept: a lookup. */
    method CountOnStore(key: string) returns (response: Response)
      ensures response == CountStep(sessions, key).response
      ensures key in sessions ==> response.CountInfo? && response.count == sessions[key].violationCount
      ensures key !in sessions ==> response == ZeroCount
    {
      if key !in sessions {
        return ZeroCount;
      }
      var session := sessions[key];
      response := CountInfo(session.violationCount, session.expiresAt, session.examSubmitted, session.clearedAt);
    }

    /** `handleGetViolationCount`: an empty key or an unknown form reads as zero. */
    method HandleGetViolationCount(data: RequestData, tabUrl: RawUrl, now: nat, readOk: bool,
                                   sweepWriteOk: bool, persistOk: bool)
      returns (response: Response)
      modifies this
      ensures Handled(GetViolationCount, NormalizeFormUrl(PickUrl(data.formUrl, tabUrl)), data, now, "", None,
                      readOk, sweepWriteOk, persistOk, response, None, old(State()), State())
    {
      var key := NormalizeFormUrl(PickUrl(data.formUrl, tabUrl));
      if key == "" {
        return ZeroCount;
      }
      LoadAndSweep(now, readOk, sweepWriteOk);
      response := CountOnStore(key);
    }

    /**
     * The body of `handleReportViolation` once the store is loaded and swept:
     * counts one violation on the form's session unless it is submitted,
     * persists, and hands back the payload relayed to the log.
     */
    method ReportOnStore(key: string, data: RequestData, now: nat, id: string, persistOk: bool)
      returns (response: Response, relay: Option<ViolationLog>)
      requires loaded
      modifies this
      ensures var st := SessionStep(ReportViolation, old(sessions), key, data, now, id, None);
              loaded && sessions == st.sessions && response == st.response && relay == st.relay
              && disk == if persistOk && st.persist then st.sessions else old(disk)
    {
      var session := if key in sessions then sessions[key] else CreateSession(key, data, now, id);
      if session.examSubmitted {
        return Ignored, None;
      }
      var previousCount := session.violationCount;
      var incrementedCount := if previousCount + 1 >= data.violationCount then previousCount + 1 else data.violationCount;
      session := session.(violationCount := incrementedCount, lastViolationAt := now,
                          studentName := OrElse(data.studentName, OrElse(Some(session.studentName), "Unknown")),
                          studentEmail := data.studentEmail.GetOr(session.studentEmail),
                          updatedAt := now);
      session := ExtendSessionExpiry(session, now).(clearedAt := None);
      var history := session.violationHistory + [EntryFor(data, now)];
      session := session.(violationHistory := KeepRecent(history));
      assert session == RecordViolation(SessionFor(old(sessions), key, data, now, id), data, now);
      sessions := sessions[key := session];
      PersistSessionStore(persistOk);
      relay := Some(LogFor(session, key, data));
      response := Reported(session.violationCount, session.expiresAt);
    }

    /** `handleReportViolation`. */
    method HandleReportViolation(data: RequestData, tabUrl: RawUrl, now: nat, id: string, readOk: bool,
                                 sweepWriteOk: bool, persistOk: bool)
      returns (response: Response, relay: Option<ViolationLog>)
      modifies this
      ensures Handled(ReportViolation, NormalizeFormUrl(PickUrl(data.formUrl, tabUrl)), data, now, id, None,
                      readOk, sweepWriteOk, persistOk, response, relay, old(State()), State())
    {
      var key := NormalizeFormUrl(PickUrl(data.formUrl, tabUrl));
      if key == "" {
        return ErrorReply("Missing form URL for violation"), None;
      }
      LoadAndSweep(now, readOk, sweepWriteOk);
      response, relay := ReportOnStore(key, data, now, id, persistOk);
    }

    /** The body of `handleAutoSubmit` once the store is loaded and swept: marks the session submitted and records how. */
    method AutoSubmitOnStore(key: string, data: RequestData, now: nat, id: string, persistOk: bool)
      returns (response: Response)
      requires loaded
      modifies this
      ensures var st := AutoSubmitStep(old(sessions), key, data, now, id);
              loaded && sessions == st.sessions && response == st.response
              && disk == if persistOk && st.persist then st.sessions else old(disk)
    {
      var session := if key in sessions then sessions[key] else CreateSession(key, data, now, id);
      var claimed := if data.finalViolationCount != 0 then data.finalViolationCount else session.violationCount;
      var how := if data.submitMethod.Some? && data.submitMethod.value != "" then data.submitMethod else None;
      session := session.(examSubmitted := true, updatedAt := now, lastViolationAt := now,
                          violationCount := if session.violationCount >= claimed then session.violationCount else claimed,
                          autoSubmit := Some(AutoSubmitRecord(data.success, how, now)));
      session := ExtendSessionExpiry(session, now);
      sessions := sessions[key := session];
      PersistSessionStore(persistOk);
      response := AutoSubmitted(session.sessionId);
    }

    /** `handleAutoSubmit`. */
    method HandleAutoSubmit(data: RequestData, tabUrl: RawUrl, now: nat, id: string, readOk: bool,
                            sweepWriteOk: bool, persistOk: bool)
      returns (response: Response)
      modifies this
      ensures Handled(AutoSubmit, NormalizeFormUrl(PickUrl(data.formUrl, tabUrl)), data, now, id, None,
                      readOk, sweepWriteOk, persistOk, response, None, old(State()), State())
    {
      var key := NormalizeFormUrl(PickUrl(data.formUrl, tabUrl));
      if key == "" {
        return ErrorReply("Missing form URL for auto-submit");
      }
      LoadAndSweep(now, readOk, sweepWriteOk);
      response := AutoSubmitOnStore(key, data, now, id, persistOk);
    }

    /**
     * The body of `handleCheckClearStatus` once the store is loaded and swept,
     * given the provider's verdict: an unseen form gets a session either way,
     * and a positive clearance resets it and persists.
     */
    method ClearanceOnStore(key: string, data: RequestData, now: nat, id: string, clearance: Option<Clearance>,
                            persistOk: bool)
      returns (response: Response)
      requires loaded
      modifies this
      ensures var st := ClearStep(old(sessions), key, data, now, id, clearance);
              loaded && sessions == st.sessions && response == st.response
              && disk == if persistOk && st.persist then st.sessions else old(disk)
    {
      var session := if key in sessions then sessions[key] else CreateSession(key, data, now, id);
      sessions := sessions[key := session];
      if clearance.Some? {
        session := session.(violationCount := 0, clearedAt := Some(clearance.value.clearedAt), updatedAt := now,
                            violationHistory := []);
        sessions := sessions[key := session];
        PersistSessionStore(persistOk);
      }
      response := ClearStatus(clearance);
    }

    /**
     * `handleCheckClearStatus`: asks the configured provider; `rows` and
     * `reply` are its answers (see `ProviderClearance`).
     */
    method HandleCheckClearStatus(data: RequestData, tabUrl: RawUrl, now: nat, id: string, readOk: bool,
                                  sweepWriteOk: bool, persistOk: bool, cfg: ClearanceConfig,
                                  rows: Option<seq<ClearanceRow>>, reply: Option<WebhookReply>)
      returns (response: Response)
      modifies this
      ensures Handled(CheckClearStatus, NormalizeFormUrl(PickUrl(data.formUrl, tabUrl)), data, now, id,
                      ProviderClearance(cfg, rows, reply, now), readOk, sweepWriteOk, persistOk, response, None,
                      old(State()), State())
    {
      var key := NormalizeFormUrl(PickUrl(data.formUrl, tabUrl));
      if key == "" {
        return FailureReply("Missing form URL for clearance check");
      }
      LoadAndSweep(now, readOk, sweepWriteOk);
      response := ClearanceOnStore(key, data, now, id, ProviderClearance(cfg, rows, reply, now), persistOk);
    }

    /**
     * `handleMessage`: routes on the request `type` to the handler of that
     * type. `HEARTBEAT` answers with the time and leaves the store alone; any
     * other unknown type is an error.
     */
    method HandleMessage(kind: string, data: RequestData, tabUrl: RawUrl, now: nat, id: string,
                         readOk: bool, sweepWriteOk: bool, persistOk: bool,
                         cfg: ClearanceConfig, rows: Option<seq<ClearanceRow>>, reply: Option<WebhookReply>)
      returns (outcome: Outcome)
      modifies this
      ensures var t := RequestTypeOf(kind);
              t.ForSession? ==>
                Handled(t.request, NormalizeFormUrl(PickUrl(data.formUrl, tabUrl)), data, now, id,
                        ProviderClearance(cfg, rows, reply, now), readOk, sweepWriteOk, persistOk,
                        outcome.response, outcome.relay, old(State()), State())
      ensures RequestTypeOf(kind) == Heartbeat ==> outcome == Outcome(Alive(now), None)
      ensures RequestTypeOf(kind) == UnknownType ==>
                outcome == Outcome(ErrorReply("Unknown message type: " + kind), None)
      ensures !RequestTypeOf(kind).ForSession? ==>
                sessions == old(sessions) && loaded == old(loaded) && disk == old(disk)
      ensures RequestTypeOf(kind) != ForSession(ReportViolation) ==> outcome.relay == None
    {
      match RequestTypeOf(kind)
      case ForSession(InitSession) =>
        var r := HandleInitSession(data, tabUrl, now, id, readOk, sweepWriteOk, persistOk);
        outcome := Outcome(r, None);
      case ForSession(GetViolationCount) =>
        var r := HandleGetViolationCount(data, tabUrl, now, readOk, sweepWriteOk, persistOk);
        outcome := Outcome(r, None);
      case ForSession(ReportViolation) =>
        var r, relay := HandleReportViolation(data, tabUrl, now, id, readOk, sweepWriteOk, persistOk);
        outcome := Outcome(r, relay);
      case Heartbeat =>
        outcome := Outcome(Alive(now), None);
      case ForSession(AutoSubmit) =>
        var r := HandleAutoSubmit(data, tabUrl, now, id, readOk, sweepWriteOk, persistOk);
        outcome := Outcome(r, None);
      case ForSession(CheckClearStatus) =>
        var r := HandleCheckClearStatus(data, tabUrl, now, id, readOk, sweepWriteOk, persistOk, cfg, rows, reply);
        outcome := Outcome(r, None);
      case UnknownType =>
        outcome := Outcome(ErrorReply("Unknown message type: " + kind), None);
    }
  }


  /** The request `type`s `handleMessage` recognises, and every other value. */
  datatype RequestType = ForSession(request: SessionRequest) | Heartbeat | UnknownType

  /** The reply of a session request whose payload and tab give no form key. */
  function MissingKeyReply(r: SessionRequest): Response
  {
    match r
    case InitSession => ErrorReply("Missing form URL for session initialization")
    case GetViolationCount => ZeroCount
    case ReportViolation => ErrorReply("Missing form URL for violation")
    case AutoSubmit => ErrorReply("Missing form URL for auto-submit")
    case CheckClearStatus => FailureReply("Missing form URL for clearance check")
  }

  /** The fields of the session store: `sessionStore`, `sessionStoreLoaded`, and storage. */
  datatype StoreState = StoreState(sessions: map<string, Session>, loaded: bool, disk: map<string, Session>)

  /**
   * What the handler of a session request did, from store `before` to store
   * `after`, given the request's form key: with no key, the type's
   * missing-key reply, no relay and no change; otherwise the handler loaded
   * and swept the store (reading storage only on its first load), and the
   * store, reply, relay and storage are exactly those of its step on the
   * swept map.
   */
  predicate Handled(r: SessionRequest, key: string, data: RequestData, now: nat, id: string,
                    clearance: Option<Clearance>, readOk: bool, sweepWriteOk: bool, persistOk: bool,
                    response: Response, relay: Option<ViolationLog>, before: StoreState, after: StoreState)
  {
    if key == "" then
      response == MissingKeyReply(r) && relay == None && after == before
    else
      var base := Base(before.loaded, before.sessions, before.disk, readOk);
      var st := SessionStep(r, Sweep(base, now), key, data, now, id, clearance);
      && after.loaded && after.sessions == st.sessions && response == st.response && relay == st.relay
      && after.disk == DiskAfter(base, before.disk, now, sweepWriteOk, persistOk, st)
  }

  /** The `case` of `handleMessage`'s `switch` a request `type` selects. */
  function RequestTypeOf(kind: string): (t: RequestType)
    ensures t == UnknownType <==>
              kind !in {"INIT_SESSION", "GET_VIOLATION_COUNT", "REPORT_VIOLATION", "HEARTBEAT", "AUTO_SUBMIT",
                        "CHECK_CLEAR_STATUS"}
    ensures t == ForSession(InitSession) <==> kind == "INIT_SESSION"
    ensures t == ForSession(GetViolationCount) <==> kind == "GET_VIOLATION_COUNT"
    ensures t == ForSession(ReportViolation) <==> kind == "REPORT_VIOLATION"
    ensures t == Heartbeat <==> kind == "HEARTBEAT"
    ensures t == ForSession(AutoSubmit) <==> kind == "AUTO_SUBMIT"
    ensures t == ForSession(CheckClearStatus) <==> kind == "CHECK_CLEAR_STATUS"
  {
    if kind == "INIT_SESSION" then ForSession(InitSession)
    else if kind == "GET_VIOLATION_COUNT" then ForSession(GetViolationCount)
    else if kind == "REPORT_VIOLATION" then ForSession(ReportViolation)
    else if kind == "HEARTBEAT" then Heartbeat
    else if kind == "AUTO_SUBMIT" then ForSession(AutoSubmit)
    else if kind == "CHECK_CLEAR_STATUS" then ForSession(CheckClearStatus)
    else UnknownType
  }
}
