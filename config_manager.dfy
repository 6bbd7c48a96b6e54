/**
 * The extension's configuration service (config.js): a configuration cache
 * with a five-minute lifetime over `chrome.storage.local`, defaults merged
 * under the stored settings, the three-attempt logging loop, the clearance
 * query that never throws, and the `action`-discriminated request listener.
 *
 * A configuration is a JavaScript object whose top-level keys are all that
 * the shallow spread `{ ...DEFAULT_CONFIG, ...stored }` looks at, so it is a
 * map from key to value. Network answers are inputs: `send(i)` is what the
 * i-th `fetch` yields.
 */
module ConfigManager {
  import opened Common

  /** A JSON value as far as the configuration needs one. */
  datatype Value = Bool(b: bool) | Num(n: int) | Text(s: string) | Object(fields: map<string, Value>)

  type Config = map<string, Value>

  /** `CONFIG_CACHE_TTL`: five minutes. */
  const CONFIG_CACHE_TTL: int := 300_000

  /** `DEFAULT_CONFIG` (config.js:2-18). */
  const DEFAULT_CONFIG: Config := map[
    "allowAllGoogleForms" := Bool(true),
    "maxViolations" := Num(4),
    "cooldownMinutes" := Num(5),
    "warningCountdown" := Num(30),
    "adminEmailGroup" := Text("reformer.ejembi@iworldnetworks.net"),
    "googleSheetsWebhookUrl" := Text("https://script.google.com/macros/s/AKfycbxKQ6uSav6EqA97vRTao6ZnElUO_6MiaH0G9xLgqOeNMVVD-5RNUkF95X5FaVvFPwilcw/exec"),
    "enableRemoteConfig" := Bool(false),
    "violationCooldowns" := Object(map[
      "visibilitychange" := Num(1500),
      "window-blur" := Num(1500),
      "keyboard" := Num(1500),
      "mouse" := Num(1500),
      "clipboard" := Num(1500),
      "devtools" := Num(1500)])]

  /** `{ ...defaults, ...stored }`: every key of either, the stored value winning. */
  function Merge(defaults: Config, stored: Config): (c: Config)
    ensures c.Keys == defaults.Keys + stored.Keys
    ensures forall k :: k in stored ==> c[k] == stored[k]
    ensures forall k :: k in defaults && k !in stored ==> c[k] == defaults[k]
  {
    defaults + stored
  }

  // ---------------------------------------------------------------------------
  // The cache, as a value
  // ---------------------------------------------------------------------------

  /** `configCache` (`None` for `null`), `lastConfigFetch`, and the stored `config` entry. */
  datatype CacheState = CacheState(cache: Option<Config>, lastConfigFetch: int, stored: Option<Config>)

  /** A cache hit: a cached object younger than the lifetime. */
  predicate Fresh(st: CacheState, now: int)
  {
    st.cache.Some? && now - st.lastConfigFetch < CONFIG_CACHE_TTL
  }

  /** What `getConfig` returns and the state it leaves; `readOk` is whether the storage read succeeds. */
  function GetConfigStep(st: CacheState, now: int, readOk: bool): (Config, CacheState)
  {
    if Fresh(st, now) then (st.cache.value, st)
    else if readOk && st.stored.Some? then
      var merged := Merge(DEFAULT_CONFIG, st.stored.value);
      (merged, st.(cache := Some(merged), lastConfigFetch := now))
    else (DEFAULT_CONFIG, st)
  }

  /** What `saveConfig` returns and the state it leaves; `writeOk` is whether the storage write succeeds. */
  function SaveConfigStep(st: CacheState, newConfig: Config, now: int, writeOk: bool): (bool, CacheState)
  {
    if writeOk then (true, CacheState(Some(Merge(DEFAULT_CONFIG, newConfig)), now, Some(newConfig)))
    else (false, st)
  }

  /** Merging the defaults in again changes nothing. */
  lemma MergeIdempotent(stored: Config)
    ensures Merge(DEFAULT_CONFIG, Merge(DEFAULT_CONFIG, stored)) == Merge(DEFAULT_CONFIG, stored)
  {
    var once := Merge(DEFAULT_CONFIG, stored);
    assert forall k :: k in once ==> Merge(DEFAULT_CONFIG, once)[k] == once[k];
  }

  /** Every configuration the cache can hold carries every default key. */
  predicate CacheComplete(st: CacheState)
  {
    st.cache.Some? ==> DEFAULT_CONFIG.Keys <= st.cache.value.Keys
  }

  /**
   * `getConfig` keeps the cache complete and always hands out a configuration
   * with every default key, whether from the cache, the stored merge or the
   * defaults themselves.
   */
  lemma GetConfigComplete(st: CacheState, now: int, readOk: bool)
    requires CacheComplete(st)
    ensures var (c, st') := GetConfigStep(st, now, readOk);
            DEFAULT_CONFIG.Keys <= c.Keys && CacheComplete(st')
  {
  }

  /** `saveConfig` keeps the cache complete. */
  lemma SaveConfigComplete(st: CacheState, newConfig: Config, now: int, writeOk: bool)
    requires CacheComplete(st)
    ensures CacheComplete(SaveConfigStep(st, newConfig, now, writeOk).1)
  {
  }

  /** A cache hit reads nothing: the answer is the cached object whatever storage holds or does. */
  lemma CacheHitIgnoresStorage(st: CacheState, now: int, readOk: bool, other: Option<Config>, readOk': bool)
    requires Fresh(st, now)
    ensures GetConfigStep(st, now, readOk).0 == GetConfigStep(st.(stored := other), now, readOk').0 == st.cache.value
    ensures GetConfigStep(st, now, readOk).1 == st
  {
  }

  /**
   * A successful save is what every `getConfig` within the next five minutes
   * returns, merged over the defaults, without reading storage; a failed save
   * changes nothing.
   */
  lemma SaveThenGet(st: CacheState, newConfig: Config, saved: int, now: int, readOk: bool, writeOk: bool)
    requires now - saved < CONFIG_CACHE_TTL
    ensures var (ok, st') := SaveConfigStep(st, newConfig, saved, writeOk);
            && ok == writeOk
            && (ok ==> GetConfigStep(st', now, readOk) == (Merge(DEFAULT_CONFIG, newConfig), st'))
            && (!ok ==> st' == st)
  {
  }

  /** With nothing stored (or an unreadable store) and no fresh cache, the defaults come back and nothing is cached. */
  lemma MissWithoutStoredConfig(st: CacheState, now: int, readOk: bool)
    requires !Fresh(st, now) && (!readOk || st.stored.None?)
    ensures GetConfigStep(st, now, readOk) == (DEFAULT_CONFIG, st)
  {
  }

  class ConfigService {
    /** `configCache`. */
    var configCache: Option<Config>
    /** `lastConfigFetch`. */
    var lastConfigFetch: int
    /** The `config` entry of `chrome.storage.local`. */
    var storedConfig: Option<Config>

    function State(): CacheState
      reads this
    {
      CacheState(configCache, lastConfigFetch, storedConfig)
    }

    /** A worker that has not read its configuration yet. */
    constructor (stored: Option<Config>)
      ensures State() == CacheState(None, 0, stored)
    {
      configCache := None;
      lastConfigFetch := 0;
      storedConfig := stored;
    }

    /** `getConfig`. */
    method GetConfig(now: int, readOk: bool) returns (config: Config)
      modifies this
      ensures (config, State()) == GetConfigStep(old(State()), now, readOk)
    {
      if configCache.Some? && now - lastConfigFetch < CONFIG_CACHE_TTL {
        return configCache.value;
      }
      if readOk && storedConfig.Some? {
        configCache := Some(Merge(DEFAULT_CONFIG, storedConfig.value));
        lastConfigFetch := now;
        return configCache.value;
      }
      config := DEFAULT_CONFIG;
    }

    /** `saveConfig`. */
    method SaveConfig(newConfig: Config, now: int, writeOk: bool) returns (ok: bool)
      modifies this
      ensures (ok, State()) == SaveConfigStep(old(State()), newConfig, now, writeOk)
    {
      if !writeOk {
        return false;
      }
      storedConfig := Some(newConfig);
      configCache := Some(Merge(DEFAULT_CONFIG, newConfig));
      lastConfigFetch := now;
      ok := true;
    }
  }

  // ---------------------------------------------------------------------------
  // Network answers, logging with retries, clearance query
  // ---------------------------------------------------------------------------

  /** What one `fetch` to the webhook comes to: a parsed JSON body, a non-OK status, or a thrown error. */
  datatype Delivery = Delivered(body: string) | HttpStatus(status: nat) | Thrown(message: string)

  /** The message of the error a failed delivery raises. */
  function FailureMessage(d: Delivery): string
    requires !d.Delivered?
  {
    match d
    case HttpStatus(status) => "HTTP error! status: " + DecimalText(status)
    case Thrown(message) => message
  }

  const MAX_LOG_ATTEMPTS: nat := 3

  datatype LogResult = Logged(body: string) | GaveUp(error: string)

  /**
   * The loop of `logViolationToGoogleSheets`: at most three attempts; after a
   * failed attempt n that is not the last it waits 2^n seconds.
   */
  method LogViolationWithRetry(send: nat -> Delivery) returns (result: LogResult, calls: nat, waits: seq<nat>)
    ensures 1 <= calls <= MAX_LOG_ATTEMPTS
    ensures forall i :: 1 <= i < calls ==> !send(i).Delivered?
    ensures result.Logged? ==> send(calls) == Delivered(result.body)
    ensures result.GaveUp? ==>
              calls == MAX_LOG_ATTEMPTS && !send(calls).Delivered? && result.error == FailureMessage(send(calls))
    ensures |waits| == if result.Logged? then calls - 1 else MAX_LOG_ATTEMPTS - 1
    ensures forall i :: 0 <= i < |waits| ==> waits[i] == Pow2(i + 1) * 1000
  {
    var attempt := 0;
    var lastError := "";
    waits := [];
    calls := 0;
    while attempt < MAX_LOG_ATTEMPTS
      invariant 0 <= attempt <= MAX_LOG_ATTEMPTS && calls == attempt
      invariant forall i :: 1 <= i <= attempt ==> !send(i).Delivered?
      invariant attempt > 0 ==> lastError == FailureMessage(send(attempt))
      invariant |waits| == if attempt == MAX_LOG_ATTEMPTS then attempt - 1 else attempt
      invariant forall i :: 0 <= i < |waits| ==> waits[i] == Pow2(i + 1) * 1000
    {
      calls := calls + 1;
      var delivery := send(attempt + 1);
      if delivery.Delivered? {
        return Logged(delivery.body), calls, waits;
      }
      attempt := attempt + 1;
      lastError := FailureMessage(delivery);
      if attempt < MAX_LOG_ATTEMPTS {
        waits := waits + [Pow2(attempt) * 1000];
      }
    }
    result := GaveUp(lastError);
  }

  /** The reply of `checkClearStatus`: the webhook's JSON, or `{ success: false, error }`. */
  datatype ClearReply = WebhookAnswer(body: string) | ClearFailure(error: string)

  /** `checkClearStatus`: one attempt, every failure turned into a failure reply. */
  function CheckClearStatus(delivery: Delivery): (r: ClearReply)
    ensures r.WebhookAnswer? <==> delivery.Delivered?
    ensures r.WebhookAnswer? ==> r.body == delivery.body
    ensures delivery.Thrown? ==> r == ClearFailure(delivery.message)
    ensures delivery.HttpStatus? ==> r.ClearFailure? && |r.error| > 20 && r.error[..20] == "HTTP error! status: "
  {
    if delivery.Delivered? then WebhookAnswer(delivery.body) else ClearFailure(FailureMessage(delivery))
  }

  /** The status code can be read back from a failure reply. */
  lemma ClearFailureNamesStatus(status: nat)
    ensures var r := CheckClearStatus(HttpStatus(status));
            r.ClearFailure? && DigitsValue(r.error[20..]) == status
  {
    var r := CheckClearStatus(HttpStatus(status));
    assert r.error[20..] == DecimalText(status);
    DecimalTextRoundTrip(status);
  }

  // ---------------------------------------------------------------------------
  // The `action` listener
  // ---------------------------------------------------------------------------

  /** What the listener sends back. */
  datatype Reply =
    | LogReply(body: string)
    | ClearStatusReply(reply: ClearReply)
    | ConfigReply(config: Config)
    | SaveReply(success: bool)
    | SessionCleared(cleared: bool, clearError: Option<string>)
    | Failure(error: string)

  /** The actions the listener recognises. */
  predicate IsAction(action: string)
  {
    action in {"logViolation", "checkClearStatus", "clearExamSession", "getConfig", "saveConfig"}
  }

  /**
   * The `chrome.runtime.onMessage` listener of config.js. `tabId` is the
   * sender tab's id (`None` with no tab); `clearResult` stands for what
   * `clearExamSessionState` returns, which this model does not cover.
   */
  method OnMessage(svc: ConfigService, action: string, now: int, readOk: bool, writeOk: bool,
                   send: nat -> Delivery, tabId: Option<int>, clearResult: Reply, newConfig: Config)
    returns (reply: Reply)
    modifies svc
    ensures !IsAction(action) ==> reply == Failure("Unknown action") && svc.State() == old(svc.State())
    ensures action == "clearExamSession" && (tabId.None? || tabId.value == 0) ==>
              reply == Failure("No tab ID provided for clearing session") && svc.State() == old(svc.State())
    ensures action == "clearExamSession" && tabId.Some? && tabId.value != 0 ==>
              reply == clearResult && svc.State() == old(svc.State())
    ensures action == "getConfig" ==>
              var (c, st) := GetConfigStep(old(svc.State()), now, readOk);
              reply == ConfigReply(c) && svc.State() == st
    ensures action == "saveConfig" ==>
              var (ok, st) := SaveConfigStep(old(svc.State()), newConfig, now, writeOk);
              reply == SaveReply(ok) && svc.State() == st
    ensures action == "checkClearStatus" ==>
              reply == ClearStatusReply(CheckClearStatus(send(1)))
              && svc.State() == GetConfigStep(old(svc.State()), now, readOk).1
    ensures action == "logViolation" ==>
              svc.State() == GetConfigStep(old(svc.State()), now, readOk).1
              && (reply.LogReply? || reply.Failure?)
              && (reply.LogReply? ==>
                    exists i :: 1 <= i <= MAX_LOG_ATTEMPTS && send(i) == Delivered(reply.body)
                                && forall j :: 1 <= j < i ==> !send(j).Delivered?)
              && (reply.Failure? ==> (forall i :: 1 <= i <= MAX_LOG_ATTEMPTS ==> !send(i).Delivered?)
                                     && reply.error == FailureMessage(send(MAX_LOG_ATTEMPTS)))
  {
    match action
    case "logViolation" =>
      var _ := svc.GetConfig(now, readOk);
      var result, calls, _ := LogViolationWithRetry(send);
      if result.Logged? {
        reply := LogReply(result.body);
      } else {
        reply := Failure(result.error);
      }
    case "checkClearStatus" =>
      var _ := svc.GetConfig(now, readOk);
      reply := ClearStatusReply(CheckClearStatus(send(1)));
    case "clearExamSession" =>
      if tabId.None? || tabId.value == 0 {
        reply := Failure("No tab ID provided for clearing session");
      } else {
        reply := clearResult;
      }
    case "getConfig" =>
      var config := svc.GetConfig(now, readOk);
      reply := ConfigReply(config);
    case "saveConfig" =>
      var ok := svc.SaveConfig(newConfig, now, writeOk);
      reply := SaveReply(ok);
    case _ =>
      reply := Failure("Unknown action");
  }
}
