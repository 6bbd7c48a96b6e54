/**
 * What the background coordinator's handlers promise, stated over the step
 * functions of BackgroundSessions (background.js).
 */
module BackgroundProperties {
  import opened Common
  import opened BackgroundSessions

  // ---------------------------------------------------------------------------
  // Form identity
  // ---------------------------------------------------------------------------

  /** Two URLs of one page that differ only in query or fragment name the same session. */
  lemma SameFormSameKey(p: UrlParts, q: UrlParts)
    requires p.origin == q.origin && p.pathname == q.pathname
    requires Href(Parsed(p)) != "" && Href(Parsed(q)) != ""
    ensures NormalizeFormUrl(Parsed(p)) == NormalizeFormUrl(Parsed(q))
  {
  }

  /** Normalising is idempotent: the key, parsed again, is its own key. */
  lemma NormalizeIdempotent(p: UrlParts)
    requires Href(Parsed(p)) != ""
    ensures var key := NormalizeFormUrl(Parsed(p));
            NormalizeFormUrl(Parsed(UrlParts(p.origin, p.pathname, "", ""))) == key
  {
    var key := NormalizeFormUrl(Parsed(p));
    if p.origin + p.pathname == "" {
      assert Href(Parsed(UrlParts(p.origin, p.pathname, "", ""))) == "";
    } else {
      assert Href(Parsed(UrlParts(p.origin, p.pathname, "", ""))) == p.origin + p.pathname;
    }
  }

  // ---------------------------------------------------------------------------
  // Classifiers
  // ---------------------------------------------------------------------------

  /** Severity thresholds: low below 2, medium at 2, high at 3, critical from 4. */
  lemma SeverityThresholds(count: int)
    ensures SeverityRank(SeverityFromCount(count)) ==
            if count >= 4 then 3 else if count <= 1 then 0 else count - 1
  {
  }

  /** Status thresholds: Warning below 2, Lockout at 2 and 3, Disqualified from 4. */
  lemma StatusThresholds(count: int)
    ensures StatusFromCount(count) == Warning <==> count < 2
    ensures StatusFromCount(count) == Disqualified <==> count >= 4
  {
  }

  /** Both classifiers are monotone in the count. */
  lemma ClassifiersMonotone(a: int, b: int)
    requires a <= b
    ensures SeverityRank(SeverityFromCount(a)) <= SeverityRank(SeverityFromCount(b))
    ensures StatusRank(StatusFromCount(a)) <= StatusRank(StatusFromCount(b))
  {
  }

  /** The two classifiers agree: Disqualified is critical, Warning is low. */
  lemma StatusTracksSeverity(count: int)
    ensures StatusFromCount(count) == Disqualified <==> SeverityFromCount(count) == Critical
    ensures StatusFromCount(count) == Warning <==> SeverityFromCount(count) == Low
  {
  }

  // ---------------------------------------------------------------------------
  // Expiry
  // ---------------------------------------------------------------------------

  /** A session whose expiry was slid at `now` survives every sweep before `now + TTL`. */
  lemma ExtendedSessionOutlivesTtl(s: Session, now: nat, later: nat)
    requires later < now + SESSION_TTL_MS
    ensures !IsSessionExpired(Some(ExtendSessionExpiry(s, now)), later)
  {
  }

  /** The sweep drops exactly the expired sessions and copies the others unchanged. */
  lemma SweepDropsOnlyExpired(m: map<string, Session>, now: nat, k: string)
    requires k in m
    ensures k in Sweep(m, now) <==> !IsSessionExpired(Some(m[k]), now)
    ensures k in Sweep(m, now) ==> Sweep(m, now)[k] == m[k]
    ensures m[k].expiresAt == 0 ==> k in Sweep(m, now)
  {
  }

  // ---------------------------------------------------------------------------
  // REPORT_VIOLATION
  // ---------------------------------------------------------------------------

  /** Sweeping twice at the same instant is sweeping once. */
  lemma SweepIdempotent(m: map<string, Session>, now: nat)
    ensures Sweep(Sweep(m, now), now) == Sweep(m, now)
  {
  }

  /** A later sweep subsumes an earlier one. */
  lemma SweepLaterSubsumes(m: map<string, Session>, earlier: nat, later: nat)
    requires earlier <= later
    ensures Sweep(Sweep(m, earlier), later) == Sweep(m, later)
  {
  }

  /**
   * A counted violation sets the count to max(previous + 1, supplied), revokes
   * any clearance, slides the expiry, and appends one history entry keeping the
   * last 50.
   */
  lemma RecordViolationEffect(s: Session, data: RequestData, now: nat)
    ensures var s' := RecordViolation(s, data, now);
            && s'.violationCount >= s.violationCount + 1
            && s'.violationCount >= data.violationCount
            && (s'.violationCount == s.violationCount + 1 || s'.violationCount == data.violationCount)
            && s'.clearedAt == None
            && s'.expiresAt >= now + SESSION_TTL_MS && s'.expiresAt >= s.expiresAt
            && s'.lastViolationAt == now
            && s'.examSubmitted == s.examSubmitted && s'.sessionId == s.sessionId
  {
  }

  /** The history keeps the newest 50 entries, the new one last, oldest dropped first. */
  lemma RecordViolationHistory(s: Session, data: RequestData, now: nat)
    ensures var h' := RecordViolation(s, data, now).violationHistory;
            var h := s.violationHistory;
            && |h'| == (if |h| < HISTORY_LIMIT then |h| + 1 else HISTORY_LIMIT)
            && h'[|h'| - 1] == EntryFor(data, now)
            && h'[..|h'| - 1] == h[|h| + 1 - |h'|..]
  {
    var h := s.violationHistory + [EntryFor(data, now)];
    var kept := KeepRecent(h);
    assert RecordViolation(s, data, now).violationHistory == kept;
    assert kept[|kept| - 1] == h[|h| - 1];
    assert kept[..|kept| - 1] == s.violationHistory[|s.violationHistory| + 1 - |kept|..];
  }

  /** A counted report stores the recorded session, answers with its count and relays a classified log. */
  lemma ReportEffect(m: map<string, Session>, key: string, data: RequestData, now: nat, id: string)
    requires !SessionFor(m, key, data, now, id).examSubmitted
    ensures var s' := RecordViolation(SessionFor(m, key, data, now, id), data, now);
            ReportStep(m, key, data, now, id)
            == Step(m[key := s'], Reported(s'.violationCount, s'.expiresAt), true, Some(LogFor(s', key, data)))
  {
    var s := SessionFor(m, key, data, now, id);
    assert !s.examSubmitted;
  }

  /**
   * Once a session is submitted, reports are answered `Ignored` and change
   * nothing; a report whose payload seeds an unseen form as submitted is
   * ignored too, and that form stays unknown.
   */
  lemma ReportIgnoredAfterSubmission(m: map<string, Session>, key: string, data: RequestData, now: nat, id: string)
    requires SessionFor(m, key, data, now, id).examSubmitted
    ensures ReportStep(m, key, data, now, id) == Step(m, Ignored, false, None)
  {
  }

  /**
   * The first report for an unseen form seeds the new session with the supplied
   * count and then counts one more on top of it.
   */
  lemma FirstReportCountsSuppliedPlusOne(m: map<string, Session>, key: string, data: RequestData, now: nat, id: string)
    requires key !in m && !data.examSubmitted
    ensures ReportStep(m, key, data, now, id).sessions[key].violationCount == data.violationCount + 1
  {
    var s := CreateSession(key, data, now, id);
    assert s.violationCount == data.violationCount;
    assert RecordViolation(s, data, now).violationCount == NextCount(data.violationCount, data.violationCount);
  }

  /** One report applied the way the store applies it: sweep first, then the handler. */
  function ReportAt(m: map<string, Session>, key: string, r: TimedReport): map<string, Session>
  {
    ReportStep(Sweep(m, r.at), key, r.data, r.at, r.id).sessions
  }

  /** A report request, the time it arrives and the id a new session would get. */
  datatype TimedReport = TimedReport(data: RequestData, at: nat, id: string)

  /** Successive reports on one form, each applied after the sweep. */
  function RunReports(m: map<string, Session>, key: string, rs: seq<TimedReport>): map<string, Session>
    decreases |rs|
  {
    if rs == [] then m else RunReports(ReportAt(m, key, rs[0]), key, rs[1..])
  }

  /** Every report arrives less than one TTL after the one before it. */
  predicate WithinSlidingWindow(rs: seq<TimedReport>)
  {
    forall i :: 0 < i < |rs| ==> rs[i].at < rs[i - 1].at + SESSION_TTL_MS
  }

  /**
   * Sliding expiry keeps a session alive while reports keep coming: n reports,
   * each within one TTL of the last, on a live session that is not submitted,
   * raise its count by at least n and never submit it.
   */
  lemma {:induction false} ReportsWithinWindowCountEach(m: map<string, Session>, key: string, rs: seq<TimedReport>)
    requires key in m && !m[key].examSubmitted
    requires rs != [] ==> !Expired(m[key], rs[0].at)
    requires WithinSlidingWindow(rs)
    ensures var m' := RunReports(m, key, rs);
            key in m' && !m'[key].examSubmitted && m'[key].violationCount >= m[key].violationCount + |rs|
  {
    if rs != [] {
      var r := rs[0];
      var swept := Sweep(m, r.at);
      assert key in swept && swept[key] == m[key];
      ReportEffect(swept, key, r.data, r.at, r.id);
      RecordViolationEffect(m[key], r.data, r.at);
      var next := ReportAt(m, key, r);
      assert key in next && next[key].violationCount >= m[key].violationCount + 1;
      assert next[key].expiresAt >= r.at + SESSION_TTL_MS;
      var rest := rs[1..];
      assert WithinSlidingWindow(rest) by {
        forall i | 0 < i < |rest| ensures rest[i].at < rest[i - 1].at + SESSION_TTL_MS {
          assert rest[i] == rs[i + 1] && rest[i - 1] == rs[i];
        }
      }
      if rest != [] {
        assert rest[0] == rs[1];
      }
      ReportsWithinWindowCountEach(next, key, rest);
    }
  }

  // ---------------------------------------------------------------------------
  // AUTO_SUBMIT, INIT_SESSION, CHECK_CLEAR_STATUS
  // ---------------------------------------------------------------------------

  /** Auto-submit marks the session submitted, never lowers its count and slides its expiry. */
  lemma AutoSubmitEffect(m: map<string, Session>, key: string, data: RequestData, now: nat, id: string)
    ensures var s := SessionFor(m, key, data, now, id);
            var st := AutoSubmitStep(m, key, data, now, id);
            var s' := st.sessions[key];
            && key in st.sessions
            && s'.examSubmitted
            && s'.violationCount >= s.violationCount
            && (data.finalViolationCount != 0 ==> s'.violationCount >= data.finalViolationCount)
            && (s'.violationCount == s.violationCount || s'.violationCount == data.finalViolationCount)
            && s'.expiresAt >= now + SESSION_TTL_MS && s'.expiresAt >= s.expiresAt
            && s'.violationHistory == s.violationHistory && s'.clearedAt == s.clearedAt
            && st.response == AutoSubmitted(s.sessionId) && st.persist
  {
  }

  /**
   * Init on a known session keeps its id, count, history and clearance; the
   * submitted flag only goes from false to true, and when it does the expiry slides.
   */
  lemma InitMergesIdentity(m: map<string, Session>, key: string, data: RequestData, now: nat, id: string)
    requires key in m
    ensures var s := m[key];
            var st := InitStep(m, key, data, now, id);
            var s' := st.sessions[key];
            && key in st.sessions
            && s'.sessionId == s.sessionId && s'.violationCount == s.violationCount
            && s'.violationHistory == s.violationHistory && s'.clearedAt == s.clearedAt
            && s'.examSubmitted == (s.examSubmitted || data.examSubmitted)
            && (data.examSubmitted && !s.examSubmitted ==> s'.expiresAt >= now + SESSION_TTL_MS && st.persist)
            && s'.expiresAt >= s.expiresAt
            && (data.studentEmail.Some? ==> s'.studentEmail == data.studentEmail.value)
            && (data.studentEmail.None? ==> s'.studentEmail == s.studentEmail)
            && (OrElse(data.studentName, "") != "" ==> s'.studentName == data.studentName.value)
            && st.response == SessionInfo(s.sessionId, s.violationCount, s'.expiresAt, s'.examSubmitted,
                                          s.lastViolationAt, s.clearedAt)
  {
  }

  /** A positive clearance zeroes the count, empties the history and records when. */
  lemma ClearanceResets(m: map<string, Session>, key: string, data: RequestData, now: nat, id: string,
                        c: Clearance)
    ensures var st := ClearStep(m, key, data, now, id, Some(c));
            && key in st.sessions
            && st.sessions[key].violationCount == 0
            && st.sessions[key].violationHistory == []
            && st.sessions[key].clearedAt == Some(c.clearedAt)
            && st.sessions[key].examSubmitted == SessionFor(m, key, data, now, id).examSubmitted
            && st.response == ClearStatus(Some(c)) && st.persist
  {
  }

  /** Without a clearance the count is untouched, but an unseen form still gets a session. */
  lemma NoClearanceKeepsCount(m: map<string, Session>, key: string, data: RequestData, now: nat, id: string)
    ensures var st := ClearStep(m, key, data, now, id, None);
            && key in st.sessions
            && st.sessions[key] == SessionFor(m, key, data, now, id)
            && (key in m ==> st.sessions == m)
            && st.response == ClearStatus(None) && !st.persist
  {
    if key in m {
      assert m[key := m[key]] == m;
    }
  }

  /** The configured provider alone decides: the other provider's reply is never read. */
  lemma OneProviderAtATime(cfg: ClearanceConfig, rows: Option<seq<ClearanceRow>>, rows': Option<seq<ClearanceRow>>,
                           reply: Option<WebhookReply>, reply': Option<WebhookReply>, now: nat)
    ensures UsesSupabase(cfg) ==> ProviderClearance(cfg, rows, reply, now) == ProviderClearance(cfg, rows, reply', now)
    ensures !UsesSupabase(cfg) ==> ProviderClearance(cfg, rows, reply, now) == ProviderClearance(cfg, rows', reply, now)
  {
  }

  /** A clearance is granted only on a positive answer from the configured provider. */
  lemma ClearanceNeedsPositiveAnswer(cfg: ClearanceConfig, rows: Option<seq<ClearanceRow>>,
                                     reply: Option<WebhookReply>, now: nat)
    ensures var c := ProviderClearance(cfg, rows, reply, now);
            c.Some? <==>
              (if UsesSupabase(cfg)
               then cfg.supabaseUrl != "" && cfg.supabaseAnonKey != "" && rows.Some? && |rows.value| > 0 && rows.value[0].cleared
               else cfg.webhookUrl != "" && reply.Some? &&
                    (reply.value.cleared || (reply.value.clearStatus.Some? && reply.value.clearStatus.value.cleared)))
    ensures var c := ProviderClearance(cfg, rows, reply, now);
            c.Some? ==> c.value.viaWebhook == !UsesSupabase(cfg)
  {
  }

  // ---------------------------------------------------------------------------
  // Invariants shared by every handler
  // ---------------------------------------------------------------------------

  /**
   * `after` differs from `before` at most in the entry for `key`: every other
   * form keeps its session, no other form appears, and `key` is not deleted.
   */
  predicate TouchesOnly(before: map<string, Session>, after: map<string, Session>, key: string)
  {
    && (forall k | k in before && k != key :: k in after && after[k] == before[k])
    && (forall k | k in after :: k in before || k == key)
    && (key in before ==> key in after)
  }

  lemma UpdateTouchesOnly(m: map<string, Session>, key: string, s: Session)
    ensures TouchesOnly(m, m[key := s], key)
  {
  }

  lemma ReportTouchesOnlyItsKey(m: map<string, Session>, key: string, data: RequestData, now: nat, id: string)
    ensures TouchesOnly(m, ReportStep(m, key, data, now, id).sessions, key)
  {
    var after := ReportStep(m, key, data, now, id).sessions;
    if SessionFor(m, key, data, now, id).examSubmitted {
      ReportIgnoredAfterSubmission(m, key, data, now, id);
      assert after == m;
    } else {
      ReportEffect(m, key, data, now, id);
      var s' := RecordViolation(SessionFor(m, key, data, now, id), data, now);
      assert after == m[key := s'];
      UpdateTouchesOnly(m, key, s');
    }
  }

  /** A handler writes at most the session of its own form. */
  lemma StepTouchesOnlyItsKey(r: SessionRequest, m: map<string, Session>, key: string, data: RequestData,
                              now: nat, id: string, clearance: Option<Clearance>)
    ensures TouchesOnly(m, SessionStep(r, m, key, data, now, id, clearance).sessions, key)
  {
    match r
    case ReportViolation => ReportTouchesOnlyItsKey(m, key, data, now, id);
    case _ =>
  }

  /**
   * Every handler leaves other forms' sessions alone, never deletes a session,
   * never un-submits one, never moves an expiry earlier, and only a clearance
   * lowers a count.
   */
  lemma HandlersPreserveSessions(r: SessionRequest, m: map<string, Session>, key: string, data: RequestData,
                                 now: nat, id: string, clearance: Option<Clearance>, k: string)
    requires k in m
    ensures var st := SessionStep(r, m, key, data, now, id, clearance);
            && k in st.sessions
            && (k != key ==> st.sessions[k] == m[k])
            && (m[k].examSubmitted ==> st.sessions[k].examSubmitted)
            && st.sessions[k].expiresAt >= m[k].expiresAt
            && st.sessions[k].sessionId == m[k].sessionId
            && (r != CheckClearStatus || clearance.None? ==> st.sessions[k].violationCount >= m[k].violationCount)
  {
    StepTouchesOnlyItsKey(r, m, key, data, now, id, clearance);
    if k == key {
      match r
      case InitSession => InitMergesIdentity(m, key, data, now, id);
      case GetViolationCount =>
      case ReportViolation =>
        if !m[k].examSubmitted {
          ReportEffect(m, key, data, now, id);
          RecordViolationEffect(m[key], data, now);
        } else {
          ReportIgnoredAfterSubmission(m, key, data, now, id);
        }
      case AutoSubmit => AutoSubmitEffect(m, key, data, now, id);
      case CheckClearStatus =>
        if clearance.None? {
          NoClearanceKeepsCount(m, key, data, now, id);
        } else {
          ClearanceResets(m, key, data, now, id, clearance.value);
        }
    }
  }
}
