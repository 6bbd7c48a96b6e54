/**
 * The pure rules of the page-side monitor `ExamLockdown` (content.js): the
 * countdown text, the severity table, the blocked key combinations, the
 * violation cooldown gate with its lockout decision, and the one-hour
 * submission lock. The class in ContentLockdown applies them to its fields.
 */
module ContentRules {
  import opened Common

  // ---------------------------------------------------------------------------
  // formatTime
  // ---------------------------------------------------------------------------

  /** `t.padStart(2, '0')`. */
  function PadStart2(t: string): string
  {
    if |t| >= 2 then t else if |t| == 1 then "0" + t else "00"
  }

  /** `formatTime(seconds)` for a whole, non-negative number of seconds: `m:ss`. */
  function FormatTime(seconds: nat): string
  {
    DecimalText(seconds / 60) + ":" + PadStart2(DecimalText(seconds % 60))
  }

  /**
   * The countdown text reads back as the seconds it shows: minutes, a colon,
   * and exactly two digits of seconds below 60, with minutes * 60 + seconds
   * equal to the input.
   */
  lemma FormatTimeReadsBack(seconds: nat)
    ensures var t := FormatTime(seconds);
            var c := |t| - 3;
            && c >= 1 && t[c] == ':'
            && (forall i :: 0 <= i < c ==> IsDigit(t[i]))
            && IsDigit(t[c + 1]) && IsDigit(t[c + 2])
            && DigitsValue(t[..c]) == seconds / 60
            && DigitsValue(t[c + 1..]) == seconds % 60
            && DigitsValue(t[..c]) * 60 + DigitsValue(t[c + 1..]) == seconds
  {
    var minutes := DecimalText(seconds / 60);
    var secs := DecimalText(seconds % 60);
    var padded := PadStart2(secs);
    var t := FormatTime(seconds);
    DecimalTextRoundTrip(seconds / 60);
    DecimalTextRoundTrip(seconds % 60);
    assert |secs| <= 2;
    assert |padded| == 2;
    assert DigitsValue(padded) == seconds % 60 by {
      if |secs| == 1 {
        assert padded == ['0'] + secs;
        assert padded[..1] == ['0'];
        assert DigitsValue(['0']) == 0 by {
          assert ['0'][..0] == [];
        }
        assert DigitsValue(secs) == DigitValue(secs[0]) by {
          assert secs[..0] == [];
        }
      }
    }
    assert t == minutes + [':'] + padded;
    assert t[..|minutes|] == minutes;
    assert t[|minutes| + 1..] == padded;
  }

  // ---------------------------------------------------------------------------
  // getViolationSeverity
  // ---------------------------------------------------------------------------

  /** `getViolationSeverity`: the table of content.js, `medium` for any other type. */
  function ViolationSeverity(violationType: string): (s: Severity)
    ensures s != Critical
    ensures s == Low <==> violationType in {"keyboard", "mouse"}
    ensures s == High <==> violationType in {"devtools", "time_exceeded"}
  {
    match violationType
    case "visibilitychange" => Medium
    case "window-blur" => Medium
    case "keyboard" => Low
    case "mouse" => Low
    case "clipboard" => Medium
    case "devtools" => High
    case "time_exceeded" => High
    case _ => Medium
  }

  // ---------------------------------------------------------------------------
  // Keyboard protection
  // ---------------------------------------------------------------------------

  /**
   * One entry of `blockedCombinations`, as the object literal evaluates: a
   * modifier the literal does not mention is not required. Where a literal
   * names `key` twice the later one is the key.
   */
  datatype Combo = Combo(ctrl: bool, alt: bool, shift: bool, meta: bool, key: string)

  function Plain(key: string): Combo { Combo(false, false, false, false, key) }
  function CtrlOf(key: string): Combo { Combo(true, false, false, false, key) }
  function AltOf(key: string): Combo { Combo(false, true, false, false, key) }

  /** Tab switching: Ctrl+Tab, Ctrl+Shift+Tab, Ctrl+PageUp/PageDown, Ctrl+1 to Ctrl+9. */
  const TAB_SWITCHING: seq<Combo> := [
    CtrlOf("tab"), Combo(true, false, true, false, "tab"), CtrlOf("pageup"), CtrlOf("pagedown"),
    CtrlOf("1"), CtrlOf("2"), CtrlOf("3"), CtrlOf("4"), CtrlOf("5"), CtrlOf("6"), CtrlOf("7"), CtrlOf("8"),
    CtrlOf("9")]

  /** Window management with Alt. */
  const WINDOW_MANAGEMENT: seq<Combo> := [AltOf("tab"), AltOf("f4"), AltOf("escape"), AltOf("space"), AltOf("enter")]

  /**
   * System shortcuts. The last three are written `{ ctrl: true, key: 'shift', key: x }`,
   * which is Ctrl+x: the second `key` replaces the first and no Shift is required.
   */
  const SYSTEM_SHORTCUTS: seq<Combo> := [
    CtrlOf("escape"), CtrlOf("w"), CtrlOf("n"), CtrlOf("t"), CtrlOf("t"), CtrlOf("w"), CtrlOf("n")]

  /** One combo without modifiers per key. */
  function PlainEach(keys: seq<string>): (r: seq<Combo>)
    ensures |r| == |keys| && forall i :: 0 <= i < |keys| ==> r[i] == Plain(keys[i])
  {
    if keys == [] then [] else [Plain(keys[0])] + PlainEach(keys[1..])
  }

  /** One Ctrl combo per key. */
  function CtrlEach(keys: seq<string>): (r: seq<Combo>)
    ensures |r| == |keys| && forall i :: 0 <= i < |keys| ==> r[i] == CtrlOf(keys[i])
  {
    if keys == [] then [] else [CtrlOf(keys[0])] + CtrlEach(keys[1..])
  }

  const FUNCTION_KEYS: seq<string> := ["f1", "f2", "f3", "f4", "f5", "f6", "f7", "f8", "f9", "f10", "f11", "f12"]

  /** The developer-tools letters, each written `{ ctrl: true, key: 'shift', key: x }`, so Ctrl+x. */
  const DEVTOOLS_LETTERS: seq<string> := ["i", "j", "c", "k", "o", "s", "p", "u", "a", "m", "d", "e", "v", "y", "z"]

  /** Pause/Break, Escape, the Windows key, Application, Print Screen, Scroll Lock, Insert, Delete, Home/End. */
  const SINGLE_KEYS: seq<Combo> := [
    Plain("pause"), Plain("break"), Plain("escape"), Plain("meta"), Combo(false, false, false, true, "tab"),
    Plain("apps"), Plain("printscreen"), Plain("prtscr"), Plain("prtsc"), Plain("scrolllock"), Plain("scroll"),
    Plain("insert"), Plain("ins"), Plain("delete"), Plain("del"), Plain("home"), Plain("end")]

  /** Arrow keys with Ctrl or Alt. */
  const MODIFIED_ARROWS: seq<Combo> := [
    CtrlOf("arrowup"), CtrlOf("arrowdown"), CtrlOf("arrowleft"), CtrlOf("arrowright"),
    AltOf("arrowup"), AltOf("arrowdown"), AltOf("arrowleft"), AltOf("arrowright")]

  /** `blockedCombinations`, group by group in source order. */
  const BLOCKED_COMBINATIONS: seq<Combo> :=
    TAB_SWITCHING + WINDOW_MANAGEMENT + SYSTEM_SHORTCUTS
    + PlainEach(FUNCTION_KEYS) + CtrlEach(DEVTOOLS_LETTERS)
    + SINGLE_KEYS + MODIFIED_ARROWS

  /** A keydown: the lower-cased `key` and the four modifier flags. */
  datatype KeyEvent = KeyEvent(key: string, ctrlKey: bool, altKey: bool, shiftKey: bool, metaKey: bool)

  /** `e.key.toLowerCase()` on the ASCII letters. */
  function LowerAscii(s: string): (r: string)
    ensures |r| == |s|
    ensures forall i :: 0 <= i < |s| ==> r[i] == if 'A' <= s[i] <= 'Z' then (s[i] as int + 32) as char else s[i]
  {
    if s == [] then []
    else [if 'A' <= s[0] <= 'Z' then (s[0] as int + 32) as char else s[0]] + LowerAscii(s[1..])
  }

  /**
   * The `some` callback: the key is equal and every modifier the combo asks
   * for is held, Ctrl being satisfied by Ctrl or Meta.
   */
  predicate ComboMatches(c: Combo, e: KeyEvent)
  {
    && (!c.ctrl || e.ctrlKey || e.metaKey)
    && (!c.alt || e.altKey)
    && (!c.shift || e.shiftKey)
    && (!c.meta || e.metaKey)
    && c.key == e.key
  }

  /** `combos.some(...)`. */
  function AnyMatches(combos: seq<Combo>, e: KeyEvent): (b: bool)
    ensures b <==> exists i :: 0 <= i < |combos| && ComboMatches(combos[i], e)
  {
    if combos == [] then false
    else ComboMatches(combos[0], e) || AnyMatches(combos[1..], e)
  }

  predicate IsBlocked(e: KeyEvent)
  {
    AnyMatches(BLOCKED_COMBINATIONS, e)
  }

  /** `e2` holds at least the modifiers `e1` holds, on the same key. */
  predicate MoreModifiers(e1: KeyEvent, e2: KeyEvent)
  {
    && e1.key == e2.key
    && (e1.ctrlKey ==> e2.ctrlKey) && (e1.altKey ==> e2.altKey)
    && (e1.shiftKey ==> e2.shiftKey) && (e1.metaKey ==> e2.metaKey)
  }

  /** Holding more modifiers never unblocks a blocked keystroke. */
  lemma ExtraModifiersStillBlocked(e1: KeyEvent, e2: KeyEvent)
    requires MoreModifiers(e1, e2) && IsBlocked(e1)
    ensures IsBlocked(e2)
  {
    var i :| 0 <= i < |BLOCKED_COMBINATIONS| && ComboMatches(BLOCKED_COMBINATIONS[i], e1);
    assert ComboMatches(BLOCKED_COMBINATIONS[i], e2);
  }

  /** A keystroke one entry of the list matches is blocked. */
  lemma BlockedByEntry(i: nat, e: KeyEvent)
    requires i < |BLOCKED_COMBINATIONS| && ComboMatches(BLOCKED_COMBINATIONS[i], e)
    ensures IsBlocked(e)
  {
  }

  /** Ctrl+T is blocked with or without Shift, because the duplicated `key` keeps only `'t'`. */
  lemma CtrlTBlockedWithoutShift(e: KeyEvent)
    requires e.key == "t" && e.ctrlKey
    ensures IsBlocked(e)
  {
    SystemShortcutBlocked(3, e);
  }

  /** Every system shortcut entry blocks the keystrokes it matches. */
  lemma SystemShortcutBlocked(n: nat, e: KeyEvent)
    requires n < |SYSTEM_SHORTCUTS| && ComboMatches(SYSTEM_SHORTCUTS[n], e)
    ensures IsBlocked(e)
  {
    var prefix := TAB_SWITCHING + WINDOW_MANAGEMENT;
    assert |prefix| == 18;
    assert BLOCKED_COMBINATIONS[18 + n] == SYSTEM_SHORTCUTS[n];
    BlockedByEntry(18 + n, e);
  }

  /**
   * Every developer-tools letter is blocked with Ctrl alone (Ctrl+C and Ctrl+V,
   * copy and paste, among them) whatever else is held.
   */
  lemma DevtoolsLettersBlockedWithoutShift(n: nat, alt: bool, shift: bool, meta: bool)
    requires n < |DEVTOOLS_LETTERS|
    ensures IsBlocked(KeyEvent(DEVTOOLS_LETTERS[n], true, alt, shift, meta))
  {
    var prefix := TAB_SWITCHING + WINDOW_MANAGEMENT + SYSTEM_SHORTCUTS + PlainEach(FUNCTION_KEYS);
    assert |prefix| == 37;
    assert BLOCKED_COMBINATIONS[37 + n] == CtrlEach(DEVTOOLS_LETTERS)[n];
    BlockedByEntry(37 + n, KeyEvent(DEVTOOLS_LETTERS[n], true, alt, shift, meta));
  }

  /** The function keys are blocked whatever modifiers are held. */
  lemma FunctionKeysBlocked(n: nat, ctrl: bool, alt: bool, shift: bool, meta: bool)
    requires n < |FUNCTION_KEYS|
    ensures IsBlocked(KeyEvent(FUNCTION_KEYS[n], ctrl, alt, shift, meta))
  {
    var prefix := TAB_SWITCHING + WINDOW_MANAGEMENT + SYSTEM_SHORTCUTS;
    assert |prefix| == 25;
    assert BLOCKED_COMBINATIONS[25 + n] == PlainEach(FUNCTION_KEYS)[n];
    BlockedByEntry(25 + n, KeyEvent(FUNCTION_KEYS[n], ctrl, alt, shift, meta));
  }

  /** `allowedKeys`. */
  const ALLOWED_KEYS: set<string> := {
    "a", "b", "c", "d", "e", "f", "g", "h", "i", "j", "k", "l", "m",
    "n", "o", "p", "q", "r", "s", "t", "u", "v", "w", "x", "y", "z",
    "0", "1", "2", "3", "4", "5", "6", "7", "8", "9",
    "backspace", "delete", "tab", "enter", "space",
    "arrowleft", "arrowright", "arrowup", "arrowdown",
    "home", "end", "pageup", "pagedown"}

  /** What the keydown handler does with a keystroke. */
  datatype KeyDownAction = Inactive | Blocked | Disallowed | Allowed

  /**
   * The keydown handler: inactive outside a running exam; a blocked
   * combination, or a key outside `allowedKeys` when the target is not an
   * input field, is suppressed and reported as a `keyboard` violation.
   */
  function KeyDown(examStarted: bool, examSubmitted: bool, e: KeyEvent, inInputField: bool): (a: KeyDownAction)
    ensures a == Inactive <==> !examStarted || examSubmitted
    ensures a == Blocked <==> examStarted && !examSubmitted && IsBlocked(e)
    ensures a == Disallowed ==> !inInputField && e.key !in ALLOWED_KEYS
    ensures a == Allowed ==> !IsBlocked(e) && (inInputField || e.key in ALLOWED_KEYS)
  {
    if !examStarted || examSubmitted then Inactive
    else if IsBlocked(e) then Blocked
    else if !inInputField && e.key !in ALLOWED_KEYS then Disallowed
    else Allowed
  }

  /** The keyup handler's `suspiciousKeys`. */
  const SUSPICIOUS_KEYS: set<string> := {
    "tab", "escape", "f1", "f2", "f3", "f4", "f5", "f6", "f7", "f8", "f9", "f10", "f11", "f12"}

  // ---------------------------------------------------------------------------
  // handleViolation: the cooldown gate and the lockout decision
  // ---------------------------------------------------------------------------

  /** The cooldown applied when a type has none configured (or a falsy one). */
  const DEFAULT_COOLDOWN_MS: int := 1500

  /** `violationTimestamps[t] || 0`. */
  function LastSeen(timestamps: map<string, int>, t: string): int
  {
    if t in timestamps then timestamps[t] else 0
  }

  /** `config?.violationCooldowns?.[t] || 1500`: a missing or zero cooldown becomes 1500. */
  function EffectiveCooldown(cooldowns: map<string, int>, t: string): (c: int)
    ensures c != 0
    ensures t in cooldowns && cooldowns[t] != 0 ==> c == cooldowns[t]
    ensures t !in cooldowns || cooldowns[t] == 0 ==> c == DEFAULT_COOLDOWN_MS
  {
    if t in cooldowns && cooldowns[t] != 0 then cooldowns[t] else DEFAULT_COOLDOWN_MS
  }

  /** The fields `handleViolation` reads and writes: the count, the per-type timestamps, the lock. */
  datatype Tally = Tally(count: int, timestamps: map<string, int>, locked: bool)

  /** What one `handleViolation` call came to. */
  datatype Verdict = Ignored | Suppressed | Warned(remaining: int) | LockedOut

  /**
   * `handleViolation(t)` at time `now`. `paused` is
   * `isReturningToFullscreen || examSubmitted`; a locked or paused page
   * ignores the violation; one inside its type's cooldown is dropped; any
   * other is counted, and locks the exam once the count reaches the maximum.
   */
  function Admit(g: Tally, paused: bool, t: string, now: int, cooldowns: map<string, int>, maxViolations: int)
    : (Tally, Verdict)
  {
    if g.locked || paused then (g, Ignored)
    else if now - LastSeen(g.timestamps, t) < EffectiveCooldown(cooldowns, t) then (g, Suppressed)
    else
      var count := g.count + 1;
      (Tally(count, g.timestamps[t := now], count >= maxViolations),
       if count >= maxViolations then LockedOut else Warned(maxViolations - count))
  }

  /** A verdict that counted the violation. */
  predicate Counted(v: Verdict)
  {
    v.Warned? || v.LockedOut?
  }

  /**
   * A violation is counted exactly when the page is neither locked nor paused
   * and the type's cooldown has run out; then the count rises by one, only
   * that type's timestamp moves to `now`, the exam locks iff the count
   * reached the maximum, and otherwise the warning shows the positive
   * remaining allowance. Anything else leaves the tally as it was.
   */
  lemma AdmitEffect(g: Tally, paused: bool, t: string, now: int, cooldowns: map<string, int>, maxViolations: int)
    ensures var (g', v) := Admit(g, paused, t, now, cooldowns, maxViolations);
            && (Counted(v) <==> !g.locked && !paused && now - LastSeen(g.timestamps, t) >= EffectiveCooldown(cooldowns, t))
            && (v == Ignored <==> g.locked || paused)
            && (!Counted(v) ==> g' == g)
            && (Counted(v) ==>
                  && g'.count == g.count + 1
                  && g'.timestamps.Keys == g.timestamps.Keys + {t}
                  && g'.timestamps[t] == now
                  && (forall u :: u in g.timestamps && u != t ==> g'.timestamps[u] == g.timestamps[u])
                  && (g'.locked <==> g'.count >= maxViolations)
                  && (v.Warned? ==> v.remaining == maxViolations - g'.count && v.remaining > 0))
  {
  }

  /** Right after a type is counted, the same type is dropped until its cooldown has passed. */
  lemma CooldownSpacesSameType(g: Tally, t: string, now: int, later: int, cooldowns: map<string, int>,
                               maxViolations: int)
    requires Counted(Admit(g, false, t, now, cooldowns, maxViolations).1)
    requires later - now < EffectiveCooldown(cooldowns, t)
    ensures var g' := Admit(g, false, t, now, cooldowns, maxViolations).0;
            !Counted(Admit(g', false, t, later, cooldowns, maxViolations).1)
  {
  }

  /** One reported violation: its type, when, and whether the page was paused. */
  datatype Event = Event(violationType: string, at: int, paused: bool)

  /** A sequence of violations applied in order. */
  function Run(g: Tally, events: seq<Event>, cooldowns: map<string, int>, maxViolations: int): Tally
    decreases |events|
  {
    if events == [] then g
    else
      var e := events[0];
      Run(Admit(g, e.paused, e.violationType, e.at, cooldowns, maxViolations).0, events[1..], cooldowns,
          maxViolations)
  }

  /** Once the exam is locked every later violation is ignored: nothing changes again. */
  lemma {:induction false} LockIsFinal(g: Tally, events: seq<Event>, cooldowns: map<string, int>, maxViolations: int)
    requires g.locked
    ensures Run(g, events, cooldowns, maxViolations) == g
    decreases |events|
  {
    if events != [] {
      LockIsFinal(g, events[1..], cooldowns, maxViolations);
    }
  }

  /** The tally a page starting below the maximum can be in: unlocked below it, or locked at it. */
  predicate BelowOrLockedAt(g: Tally, maxViolations: int)
  {
    (!g.locked && g.count < maxViolations) || (g.locked && g.count == maxViolations)
  }

  /**
   * A page that starts unlocked below the maximum never counts past it: the
   * violation that reaches the maximum locks the exam, and the lock is final.
   */
  lemma {:induction false} CountNeverPassesMaximum(g: Tally, events: seq<Event>, cooldowns: map<string, int>,
                                                   maxViolations: int)
    requires BelowOrLockedAt(g, maxViolations)
    ensures var g' := Run(g, events, cooldowns, maxViolations);
            BelowOrLockedAt(g', maxViolations) && g'.count >= g.count && (g.locked ==> g' == g)
    decreases |events|
  {
    if events != [] {
      var e := events[0];
      var next := Admit(g, e.paused, e.violationType, e.at, cooldowns, maxViolations).0;
      AdmitEffect(g, e.paused, e.violationType, e.at, cooldowns, maxViolations);
      assert BelowOrLockedAt(next, maxViolations);
      CountNeverPassesMaximum(next, events[1..], cooldowns, maxViolations);
    }
  }

  // ---------------------------------------------------------------------------
  // The one-hour submission lock (`submittedForms`)
  // ---------------------------------------------------------------------------

  /** How long a submitted form stays locked: one hour. */
  const SUBMISSION_LOCK_MS: int := 3_600_000

  /** `submittedForms[k]` is set (truthy). */
  predicate HasSubmission(forms: map<string, int>, k: string)
  {
    k in forms && forms[k] != 0
  }

  /**
   * `isFormUrlSubmitted(k)` on a readable store: whether the form is still
   * locked, and the dictionary afterwards, from which an expired entry has
   * been removed.
   */
  function CheckSubmitted(forms: map<string, int>, k: string, now: int): (r: (bool, map<string, int>))
    ensures r.0 <==> HasSubmission(forms, k) && now - forms[k] < SUBMISSION_LOCK_MS
    ensures r.0 || !HasSubmission(forms, k) ==> r.1 == forms
    ensures !r.0 && HasSubmission(forms, k) ==> r.1 == forms - {k}
  {
    if HasSubmission(forms, k) then
      if now - forms[k] < SUBMISSION_LOCK_MS then (true, forms) else (false, forms - {k})
    else (false, forms)
  }

  /** Marking a form locks it for exactly the next hour and touches no other form. */
  lemma MarkLocksForAnHour(forms: map<string, int>, k: string, marked: int, now: int, other: string)
    requires marked != 0 && other != k
    ensures CheckSubmitted(forms[k := marked], k, now).0 <==> now - marked < SUBMISSION_LOCK_MS
    ensures CheckSubmitted(forms[k := marked], other, now).0 == CheckSubmitted(forms, other, now).0
  {
  }

  /** A check that finds the lock expired leaves the form unlocked for every later check. */
  lemma ExpiredStaysExpired(forms: map<string, int>, k: string, now: int, later: int)
    requires HasSubmission(forms, k) && !CheckSubmitted(forms, k, now).0
    ensures var after := CheckSubmitted(forms, k, now).1;
            !HasSubmission(after, k) && CheckSubmitted(after, k, later) == (false, after)
  {
  }
}
