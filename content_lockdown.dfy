/**
 * The page-side monitor `ExamLockdown` (content.js): the fields its handlers
 * update in place, and the handlers themselves as methods.
 *
 * Two parts of `chrome.storage.local` are fields of the object as well:
 * `storedForms` is the `submittedForms` dictionary, and `saved` is the last
 * snapshot `persistState` wrote. A storage call that can fail takes a flag
 * saying whether it went through; a failed one changes nothing, because the
 * source catches and logs every storage error. The DOM is reduced to two
 * facts: whether an overlay is current (`currentOverlay`), and the outcome
 * of the form submission, which is an input.
 */
module ContentLockdown {
  import opened Common
  import opened ContentRules
  import BackgroundSessions

  /**
   * What storage keeps after `persistState`: the session, the count, the
   * timestamps and the submitted flag. The page keeps its timestamps in an
   * array indexed by violation type, and storage serialises an array by its
   * numeric indices only, so the stored timestamps always read back empty.
   */
  datatype SavedState = SavedState(
    sessionId: Option<string>, violationCount: int, violationTimestamps: map<string, int>, examSubmitted: bool)

  /** The `violationData` handed to `logViolation`: its type, severity and count. */
  datatype ViolationReport = ViolationReport(violationType: string, severity: Severity, count: int)

  /** The report `handleExamLockout` sends. */
  function LockoutReport(count: int): ViolationReport
  {
    ViolationReport("exam_lockout", Critical, count)
  }

  /** What the clearance poll learned: the background's answer, and the webhook's if it was asked and answered. */
  function ClearedBy(backgroundCleared: bool, webhookCleared: Option<bool>): bool
  {
    backgroundCleared || webhookCleared == Some(true)
  }

  /** The `submittedForms` key of a page: `new URL(href).pathname`. */
  function PageFormKey(location: BackgroundSessions.UrlParts): string
  {
    location.pathname
  }

  /**
   * Two pages with the same path share one `submittedForms` entry, whatever
   * their origins, queries and fragments; the background, which keys on
   * origin and path, keeps pages on different origins apart.
   */
  lemma PageKeyIgnoresOrigin(p: BackgroundSessions.UrlParts, q: BackgroundSessions.UrlParts)
    requires p.pathname == q.pathname && p.origin != q.origin
    ensures PageFormKey(p) == PageFormKey(q)
    ensures BackgroundSessions.NormalizeFormUrl(BackgroundSessions.Parsed(p))
            != BackgroundSessions.NormalizeFormUrl(BackgroundSessions.Parsed(q))
  {
    var kp := BackgroundSessions.NormalizeFormUrl(BackgroundSessions.Parsed(p));
    var kq := BackgroundSessions.NormalizeFormUrl(BackgroundSessions.Parsed(q));
    if p.origin == "" {
      BackgroundKeyOfOrigin(q);
      assert |kp| <= |p.pathname| < |kq|;
    } else if q.origin == "" {
      BackgroundKeyOfOrigin(p);
      assert |kq| <= |q.pathname| < |kp|;
    } else {
      BackgroundKeyOfOrigin(p);
      BackgroundKeyOfOrigin(q);
      if |p.origin| == |q.origin| {
        assert kp[..|p.origin|] == p.origin;
        assert kq[..|q.origin|] == q.origin;
      }
    }
  }

  /** On a page with an origin, the background's key is the origin followed by the page's key. */
  lemma BackgroundKeyOfOrigin(location: BackgroundSessions.UrlParts)
    requires location.origin != ""
    ensures BackgroundSessions.NormalizeFormUrl(BackgroundSessions.Parsed(location))
            == location.origin + PageFormKey(location)
  {
    assert BackgroundSessions.Href(BackgroundSessions.Parsed(location)) != "";
  }

  /** The page and the background key a form with an origin differently. */
  lemma PageKeyIsNotBackgroundKey(location: BackgroundSessions.UrlParts)
    requires location.origin != ""
    ensures PageFormKey(location) != BackgroundSessions.NormalizeFormUrl(BackgroundSessions.Parsed(location))
  {
    BackgroundKeyOfOrigin(location);
  }

  class ExamLockdown {
    /** `config.maxViolations`. */
    const maxViolations: int
    /** `config.violationCooldowns`. */
    const cooldowns: map<string, int>
    /** The page's `window.location`, split as `new URL(location.href)` splits it. */
    const location: BackgroundSessions.UrlParts

    var violationCount: int
    var violationTimestamps: map<string, int>
    var examLocked: bool
    var examSubmitted: bool
    var isExamStarted: bool
    var isReturningToFullscreen: bool
    var submissionInProgress: bool
    var isFullscreen: bool
    /** `currentOverlay` is set. */
    var hasOverlay: bool
    /** `sessionInfo?.sessionId`; both `None` and `Some("")` are unset (the source tests it for truthiness). */
    var sessionId: Option<string>
    /** `userEmail`; the empty string is unset. */
    var userEmail: string
    /** The `submittedForms` dictionary in storage: page path to submission time. */
    var storedForms: map<string, int>
    /** The state `persistState` last wrote, if any. */
    var saved: Option<SavedState>

    /** The fields `handleViolation` decides on. */
    function Tally(): ContentRules.Tally
      reads this
    {
      ContentRules.Tally(violationCount, violationTimestamps, examLocked)
    }

    /** What storage would keep if `persistState` ran now: the per-type timestamps are lost. */
    function Snapshot(): SavedState
      reads this
    {
      SavedState(sessionId, violationCount, map[], examSubmitted)
    }

    /** The page flags and identity, which most handlers leave alone. */
    twostate predicate SamePage()
      reads this
    {
      && isExamStarted == old(isExamStarted) && examSubmitted == old(examSubmitted)
      && isReturningToFullscreen == old(isReturningToFullscreen)
      && submissionInProgress == old(submissionInProgress)
      && isFullscreen == old(isFullscreen) && hasOverlay == old(hasOverlay)
      && sessionId == old(sessionId) && userEmail == old(userEmail)
    }

    /** A fresh page: nothing counted, nothing started, nothing stored in this session yet. */
    constructor(maxViolations: int, cooldowns: map<string, int>, location: BackgroundSessions.UrlParts,
                storedForms: map<string, int>, saved: Option<SavedState>)
      ensures this.maxViolations == maxViolations && this.cooldowns == cooldowns && this.location == location
      ensures Tally() == ContentRules.Tally(0, map[], false)
      ensures !examSubmitted && !isExamStarted && !isReturningToFullscreen && !submissionInProgress
      ensures !isFullscreen && !hasOverlay && sessionId == None && userEmail == ""
      ensures this.storedForms == storedForms && this.saved == saved
    {
      this.maxViolations := maxViolations;
      this.cooldowns := cooldowns;
      this.location := location;
      violationCount := 0;
      violationTimestamps := map[];
      examLocked := false;
      examSubmitted := false;
      isExamStarted := false;
      isReturningToFullscreen := false;
      submissionInProgress := false;
      isFullscreen := false;
      hasOverlay := false;
      sessionId := None;
      userEmail := "";
      this.storedForms := storedForms;
      this.saved := saved;
    }

    /** `persistState`: writes the snapshot, or (on a failed write) nothing. */
    method PersistState(writeOk: bool)
      modifies this
      ensures saved == if writeOk then Some(old(Snapshot())) else old(saved)
      ensures Tally() == old(Tally()) && SamePage() && storedForms == old(storedForms)
    {
      if writeOk {
        saved := Some(Snapshot());
      }
    }

    /** `handleExamLockout`: locks the exam and reports the lockout with the current count. */
    method HandleExamLockout() returns (report: ViolationReport)
      modifies this
      ensures examLocked
      ensures report == LockoutReport(violationCount)
      ensures violationCount == old(violationCount) && violationTimestamps == old(violationTimestamps)
      ensures SamePage() && storedForms == old(storedForms) && saved == old(saved)
    {
      examLocked := true;
      report := LockoutReport(violationCount);
    }

    /**
     * `handleViolation(t)` at time `now`: the tally moves exactly as `Admit`
     * says; a counted violation is persisted and reported with its severity
     * and the new count, and one that reaches the maximum is followed by the
     * lockout report. The warning's remaining allowance is the verdict's.
     */
    method HandleViolation(t: string, now: int, writeOk: bool) returns (verdict: Verdict, reports: seq<ViolationReport>)
      modifies this
      ensures (Tally(), verdict)
              == Admit(old(Tally()), old(isReturningToFullscreen || examSubmitted), t, now, cooldowns, maxViolations)
      ensures saved == if Counted(verdict) && writeOk then Some(old(Snapshot()).(violationCount := violationCount))
                       else old(saved)
      ensures reports == if !Counted(verdict) then []
                         else [ViolationReport(t, ViolationSeverity(t), violationCount)]
                              + if verdict == LockedOut then [LockoutReport(violationCount)] else []
      ensures SamePage() && storedForms == old(storedForms)
    {
      if examLocked || isReturningToFullscreen || examSubmitted {
        return Ignored, [];
      }
      var last := if t in violationTimestamps then violationTimestamps[t] else 0;
      var cooldown := if t in cooldowns && cooldowns[t] != 0 then cooldowns[t] else DEFAULT_COOLDOWN_MS;
      if now - last < cooldown {
        return Suppressed, [];
      }
      violationTimestamps := violationTimestamps[t := now];
      violationCount := violationCount + 1;
      PersistState(writeOk);
      reports := [ViolationReport(t, ViolationSeverity(t), violationCount)];
      if violationCount >= maxViolations {
        var lockout := HandleExamLockout();
        reports := reports + [lockout];
        verdict := LockedOut;
      } else {
        verdict := Warned(maxViolations - violationCount);
      }
    }

    /**
     * `getCurrentFormUrl`: the page's form key is its path alone, so origin,
     * query and fragment play no part (see `PageKeyIgnoresOrigin`), and on any
     * page with an origin it is not the key the background files the same
     * form under.
     */
    method CurrentFormUrl() returns (k: string)
      ensures k == PageFormKey(location)
      ensures location.origin != "" ==> k != BackgroundSessions.NormalizeFormUrl(BackgroundSessions.Parsed(location))
    {
      k := location.pathname;
      if location.origin != "" {
        PageKeyIsNotBackgroundKey(location);
      }
    }

    /**
     * `removeExpiredFormSubmission(k)`: reads the dictionary, deletes `k` and
     * writes it back; a failed read or write leaves storage as it was.
     */
    method RemoveExpiredFormSubmission(k: string, readOk: bool, writeOk: bool)
      modifies this
      ensures storedForms == if readOk && writeOk then old(storedForms) - {k} else old(storedForms)
      ensures Tally() == old(Tally()) && SamePage() && saved == old(saved)
    {
      if readOk && writeOk {
        storedForms := storedForms - {k};
      }
    }

    /**
     * `isFormUrlSubmitted(k)`: on a readable store, `CheckSubmitted` decides
     * and an expired entry is removed; a failed read answers false.
     */
    method IsFormUrlSubmitted(k: string, now: int, readOk: bool, removeReadOk: bool, removeWriteOk: bool)
      returns (submitted: bool)
      modifies this
      ensures submitted <==> readOk && CheckSubmitted(old(storedForms), k, now).0
      ensures storedForms == if readOk && removeReadOk && removeWriteOk then CheckSubmitted(old(storedForms), k, now).1
                             else old(storedForms)
      ensures Tally() == old(Tally()) && SamePage() && saved == old(saved)
    {
      if !readOk {
        return false;
      }
      if k in storedForms && storedForms[k] != 0 {
        if now - storedForms[k] < SUBMISSION_LOCK_MS {
          return true;
        }
        RemoveExpiredFormSubmission(k, removeReadOk, removeWriteOk);
        return false;
      }
      return false;
    }

    /** `markFormUrlAsSubmitted(k)`: sets only `k` to `now` when the read and the write both succeed. */
    method MarkFormUrlAsSubmitted(k: string, now: int, readOk: bool, writeOk: bool)
      modifies this
      ensures storedForms == if readOk && writeOk then old(storedForms)[k := now] else old(storedForms)
      ensures Tally() == old(Tally()) && SamePage() && saved == old(saved)
    {
      if readOk && writeOk {
        storedForms := storedForms[k := now];
      }
    }

    /**
     * `finishExam`: marks the exam submitted and no longer started, locks the
     * form, persists, then submits. On success the background is told the
     * session ended; on failure both `submissionInProgress` and
     * `examSubmitted` roll back, while the form lock, the persisted
     * `examSubmitted = true` and `isExamStarted = false` stay. Either way an
     * overlay (confirmation or error) is current.
     */
    method FinishExam(now: int, submitOk: bool, markReadOk: bool, markWriteOk: bool, persistOk: bool)
      returns (notified: bool)
      modifies this
      ensures notified == submitOk
      ensures submissionInProgress == submitOk && examSubmitted == submitOk
      ensures !isExamStarted && hasOverlay
      ensures storedForms == if markReadOk && markWriteOk then old(storedForms)[PageFormKey(location) := now] else old(storedForms)
      ensures saved == if persistOk then Some(old(Snapshot()).(examSubmitted := true)) else old(saved)
      ensures Tally() == old(Tally())
      ensures isReturningToFullscreen == old(isReturningToFullscreen) && isFullscreen == old(isFullscreen)
      ensures sessionId == old(sessionId) && userEmail == old(userEmail)
    {
      submissionInProgress := true;
      examSubmitted := true;
      isExamStarted := false;
      var formUrl := CurrentFormUrl();
      MarkFormUrlAsSubmitted(formUrl, now, markReadOk, markWriteOk);
      PersistState(persistOk);
      if submitOk {
        hasOverlay := true;
        notified := true;
      } else {
        hasOverlay := true;
        submissionInProgress := false;
        examSubmitted := false;
        notified := false;
      }
    }

    /**
     * One tick of the clearance poll. Nothing happens unless a session id and
     * an e-mail are known. A positive answer from the background or, failing
     * that, from the webhook deletes this form's `submittedForms` entry
     * (when storage allows), resets the count and the timestamps and
     * persists; the lock itself is not lifted.
     */
    method ClearCheckTick(backgroundCleared: bool, webhookCleared: Option<bool>,
                          readOk: bool, writeOk: bool, persistOk: bool)
      returns (cleared: bool)
      modifies this
      ensures cleared <==> sessionId.Some? && sessionId.value != "" && userEmail != "" && ClearedBy(backgroundCleared, webhookCleared)
      ensures !cleared ==> Tally() == old(Tally()) && storedForms == old(storedForms) && saved == old(saved)
      ensures cleared ==> && Tally() == ContentRules.Tally(0, map[], old(examLocked))
                          && storedForms == (if readOk && writeOk then old(storedForms) - {PageFormKey(location)}
                                             else old(storedForms))
                          && saved == if persistOk then Some(Snapshot()) else old(saved)
      ensures SamePage()
    {
      cleared := false;
      if sessionId.Some? && sessionId.value != "" && userEmail != "" {
        cleared := backgroundCleared;
        if !cleared && webhookCleared.Some? {
          cleared := webhookCleared.value;
        }
        if cleared {
          if readOk && writeOk {
            var formUrl := CurrentFormUrl();
            storedForms := storedForms - {formUrl};
          }
          violationCount := 0;
          violationTimestamps := map[];
          PersistState(persistOk);
        }
      }
    }

    /**
     * One tick of the submission-expiry poll for `formUrl`: once the form is
     * no longer locked, the page re-opens (not submitted, not started, state
     * persisted, the setup overlay shown, violations paused for the grace
     * period). The count and the lock are kept.
     */
    method SubmissionExpiryTick(formUrl: string, now: int, readOk: bool, removeReadOk: bool, removeWriteOk: bool,
                                persistOk: bool)
      returns (reopened: bool)
      modifies this
      ensures reopened <==> !(readOk && CheckSubmitted(old(storedForms), formUrl, now).0)
      ensures storedForms == if readOk && removeReadOk && removeWriteOk
                             then CheckSubmitted(old(storedForms), formUrl, now).1 else old(storedForms)
      ensures Tally() == old(Tally())
      ensures !reopened ==> SamePage() && saved == old(saved)
      ensures reopened ==> && !examSubmitted && !isExamStarted && isReturningToFullscreen && hasOverlay
                           && saved == (if persistOk then Some(Snapshot()) else old(saved))
                           && submissionInProgress == old(submissionInProgress)
                           && isFullscreen == old(isFullscreen)
                           && sessionId == old(sessionId) && userEmail == old(userEmail)
    {
      var stillSubmitted := IsFormUrlSubmitted(formUrl, now, readOk, removeReadOk, removeWriteOk);
      reopened := !stillSubmitted;
      if reopened {
        examSubmitted := false;
        isExamStarted := false;
        PersistState(persistOk);
        hasOverlay := false;
        isReturningToFullscreen := true;
        hasOverlay := true;
      }
    }

    /** The grace period after a re-open or a return to fullscreen has run out. */
    method ReturnGraceElapsed()
      modifies this
      ensures !isReturningToFullscreen
      ensures Tally() == old(Tally()) && storedForms == old(storedForms) && saved == old(saved)
      ensures isExamStarted == old(isExamStarted) && examSubmitted == old(examSubmitted)
      ensures hasOverlay == old(hasOverlay) && isFullscreen == old(isFullscreen)
    {
      isReturningToFullscreen := false;
    }

    /**
     * The `fullscreenchange` handler. Leaving fullscreen during a running,
     * unsubmitted exam outside the grace period counts as a
     * `visibilitychange` violation and shows the fullscreen warning unless an
     * overlay is already current; entering fullscreen removes the current
     * overlay. The flag then follows the document.
     */
    method OnFullscreenChange(fullscreen: bool, now: int, writeOk: bool)
      returns (verdict: Option<Verdict>, reports: seq<ViolationReport>)
      modifies this
      ensures isFullscreen == fullscreen
      ensures verdict.Some? <==> !fullscreen && old(isExamStarted && !examSubmitted && !isReturningToFullscreen)
      ensures verdict.Some? ==>
                && (Tally(), verdict.value)
                   == Admit(old(Tally()), false, "visibilitychange", now, cooldowns, maxViolations)
                && hasOverlay
      ensures verdict.None? ==> Tally() == old(Tally()) && saved == old(saved) && reports == []
      ensures verdict.None? ==> hasOverlay == (old(hasOverlay) && !fullscreen)
      ensures storedForms == old(storedForms)
      ensures isExamStarted == old(isExamStarted) && examSubmitted == old(examSubmitted)
      ensures isReturningToFullscreen == old(isReturningToFullscreen)
    {
      verdict := None;
      reports := [];
      if !fullscreen && isExamStarted && !examSubmitted && !isReturningToFullscreen {
        var v, r := HandleViolation("visibilitychange", now, writeOk);
        verdict := Some(v);
        reports := r;
        hasOverlay := true;
      } else if fullscreen && hasOverlay {
        hasOverlay := false;
      }
      isFullscreen := fullscreen;
    }

    /**
     * The `keydown` handler on a key whose `e.key` is `rawKey`: a blocked
     * combination, or outside an input field a key that is not allowed, is
     * suppressed and counted as a `keyboard` violation.
     */
    method OnKeyDown(rawKey: string, ctrl: bool, alt: bool, shift: bool, meta: bool, inInputField: bool,
                     now: int, writeOk: bool)
      returns (action: KeyDownAction, verdict: Option<Verdict>)
      modifies this
      ensures action == KeyDown(old(isExamStarted), old(examSubmitted),
                                KeyEvent(LowerAscii(rawKey), ctrl, alt, shift, meta), inInputField)
      ensures verdict.Some? <==> action == Blocked || action == Disallowed
      ensures verdict.Some? ==>
                (Tally(), verdict.value)
                == Admit(old(Tally()), old(isReturningToFullscreen), "keyboard", now, cooldowns, maxViolations)
      ensures verdict.None? ==> Tally() == old(Tally()) && saved == old(saved)
      ensures SamePage() && storedForms == old(storedForms)
    {
      var e := KeyEvent(LowerAscii(rawKey), ctrl, alt, shift, meta);
      action := KeyDown(isExamStarted, examSubmitted, e, inInputField);
      verdict := None;
      if action == Blocked || action == Disallowed {
        var v, _ := HandleViolation("keyboard", now, writeOk);
        verdict := Some(v);
      }
    }

    /** The `keyup` handler: releasing Tab, Escape or a function key counts as a `keyboard` violation. */
    method OnKeyUp(rawKey: string, now: int, writeOk: bool) returns (verdict: Option<Verdict>)
      modifies this
      ensures verdict.Some? <==> old(isExamStarted && !examSubmitted) && LowerAscii(rawKey) in SUSPICIOUS_KEYS
      ensures verdict.Some? ==>
                (Tally(), verdict.value)
                == Admit(old(Tally()), old(isReturningToFullscreen), "keyboard", now, cooldowns, maxViolations)
      ensures verdict.None? ==> Tally() == old(Tally()) && saved == old(saved)
      ensures SamePage() && storedForms == old(storedForms)
    {
      verdict := None;
      if isExamStarted && !examSubmitted && LowerAscii(rawKey) in SUSPICIOUS_KEYS {
        var v, _ := HandleViolation("keyboard", now, writeOk);
        verdict := Some(v);
      }
    }
  }
}
