/** Trap events: their types and severities, the ONU key, how an SNMP answer re-classifies
    an event, and what the handler does with a trap. */
module TrapEvents {
  import opened Text

  /** The event type strings the code distinguishes; Other holds any other text. */
  datatype EventType =
    | LOS | LOSi | LOFi | Offline | AuthFailed | PowerOff | Logging | Synchronization
    | HighRxPower | LowRxPower | DyingGasp | Online | Other(text: string)

  datatype Severity = Critical | High | Medium | Low | Unknown

  datatype Event = Event(
    board: int, pon: int, onuId: int,
    eventType: EventType, status: string,
    name: string, description: string, onuType: string, serialNumber: string,
    rxPower: string, lastOffline: string, lastOnline: string)

  /** What the fetcher answers about an ONU; id 0 means it was not found. */
  datatype Detail = Detail(
    id: int, name: string, description: string, onuType: string, serialNumber: string,
    rxPower: string, lastOffline: string, lastOnline: string, status: string, offlineReason: string)

  function EventSeverity(t: EventType): Severity {
    match t
    case LOS | LOSi | LOFi | Offline | AuthFailed | PowerOff => Critical
    case Logging | Synchronization => High
    case HighRxPower | LowRxPower => Medium
    case DyingGasp => Low
    case _ => Unknown
  }

  /** alertEventTypes */
  predicate IsAlert(t: EventType) {
    t in {LOS, DyingGasp, PowerOff, Offline, AuthFailed, LOSi, LOFi, Logging, Synchronization}
  }

  // ----- the ONU key

  function OnuKey(e: Event): string {
    Itoa(e.board) + "-" + Itoa(e.pon) + "-" + Itoa(e.onuId)
  }

  predicate SameOnu(e: Event, f: Event) {
    e.board == f.board && e.pon == f.pon && e.onuId == f.onuId
  }

  /** Text with no "-" after its first character can be told apart from what follows a "-". */
  lemma CutAfterDash(a: string, rest: string, a': string, rest': string)
    requires a != "" && a' != "" && Free(a[1..], '-') && Free(a'[1..], '-')
    requires a + ['-'] + rest == a' + ['-'] + rest'
    ensures a == a' && rest == rest'
  {
    var s := a + ['-'] + rest;
    assert s[1..] == a[1..] + ['-'] + rest;
    assert s[1..] == a'[1..] + ['-'] + rest';
    CutUnique(a[1..], rest, a'[1..], rest', '-');
    assert a == [s[0]] + a[1..] && a' == [s[0]] + a'[1..];
  }

  /** A number printed in front of a "-" can be told apart from what follows, minus sign or not. */
  lemma NumberThenDash(n: int, rest: string, m: int, rest': string)
    requires Itoa(n) + ['-'] + rest == Itoa(m) + ['-'] + rest'
    ensures n == m && rest == rest'
  {
    ItoaShape(n);
    ItoaShape(m);
    DigitsHaveNoDash(Itoa(n)[1..]);
    DigitsHaveNoDash(Itoa(m)[1..]);
    CutAfterDash(Itoa(n), rest, Itoa(m), rest');
    ItoaInjective(n, m);
  }

  lemma DigitsHaveNoDash(s: string)
    requires AllDigits(s)
    ensures Free(s, '-')
  {
  }

  /** Different ONUs have different keys. */
  lemma OnuKeyInjective(e: Event, f: Event)
    ensures OnuKey(e) == OnuKey(f) <==> SameOnu(e, f)
  {
    if OnuKey(e) == OnuKey(f) {
      var restE, restF := Itoa(e.pon) + ['-'] + Itoa(e.onuId), Itoa(f.pon) + ['-'] + Itoa(f.onuId);
      assert OnuKey(e) == Itoa(e.board) + ['-'] + restE;
      assert OnuKey(f) == Itoa(f.board) + ['-'] + restF;
      NumberThenDash(e.board, restE, f.board, restF);
      NumberThenDash(e.pon, Itoa(e.onuId), f.pon, Itoa(f.onuId));
      ItoaInjective(e.onuId, f.onuId);
    }
  }

  // ----- classification of an SNMP answer

  /** How the RX power text compares to the thresholds. */
  datatype RxLevel = Unparsable | Normal | TooHigh | TooLow

  /** Library calls the classification depends on: lower-casing, and parsing and comparing RX power. */
  datatype Lib = Lib(lower: string -> string, rxLevel: string -> RxLevel)

  predicate Contains(s: string, part: string)
    decreases |s|
  {
    part <= s || (s != "" && Contains(s[1..], part))
  }

  function NormalizeOfflineReason(lib: Lib, reason: string): EventType {
    var r := lib.lower(reason);
    if Contains(r, "losi") then LOSi
    else if Contains(r, "lofi") then LOFi
    else if Contains(r, "los") then LOS
    else if Contains(r, "dyinggasp") || Contains(r, "dying") then DyingGasp
    else if Contains(r, "poweroff") || Contains(r, "power") then PowerOff
    else if Contains(r, "authfail") || Contains(r, "auth") then AuthFailed
    else Offline
  }

  function ResolveEventType(lib: Lib, status: string, offlineReason: string): EventType {
    var s := lib.lower(status);
    if Contains(s, "online") then Online
    else if Contains(s, "dying") then DyingGasp
    else if Contains(s, "los") then LOS
    else if Contains(s, "power") then PowerOff
    else if Contains(s, "auth") then AuthFailed
    else if Contains(s, "logging") then Logging
    else if Contains(s, "sync") then Synchronization
    else if Contains(s, "offline") then
      if offlineReason != "" then NormalizeOfflineReason(lib, offlineReason) else Offline
    else Online
  }

  /** Every resolved type is either an alert with a severity other than Medium and Unknown, or Online. */
  lemma ResolvedIsAlertOrOnline(lib: Lib, status: string, offlineReason: string)
    ensures var t := ResolveEventType(lib, status, offlineReason);
      && (IsAlert(t) <==> t != Online)
      && (IsAlert(t) ==> EventSeverity(t) !in {Medium, Unknown})
  {
  }

  /** The answer says nothing usable: the fetch failed or the ONU was not found. */
  predicate NoAnswer(answer: Option<Detail>) {
    answer.None? || answer.value.id == 0
  }

  /** The event with the fields the flush copies from the answer. */
  function Refreshed(e: Event, d: Detail, t: EventType): Event {
    e.(eventType := t, status := d.status, rxPower := d.rxPower, lastOffline := d.lastOffline,
       lastOnline := d.lastOnline, serialNumber := d.serialNumber,
       name := if d.name != "" then d.name else e.name,
       description := if d.description != "" then d.description else e.description)
  }

  /** Re-verification at flush time: the event to send, or None when the ONU recovered,
      changed severity, or could not be read. */
  function Reverify(lib: Lib, sev: Severity, e: Event, answer: Option<Detail>): Option<Event> {
    if NoAnswer(answer) then None
    else
      var d := answer.value;
      if sev == Medium then
        match lib.rxLevel(d.rxPower)
        case Unparsable => None
        case Normal => None
        case TooHigh => Some(Refreshed(e, d, HighRxPower))
        case TooLow => Some(Refreshed(e, d, LowRxPower))
      else
        var t := ResolveEventType(lib, d.status, d.offlineReason);
        if !IsAlert(t) || EventSeverity(t) != sev then None else Some(Refreshed(e, d, t))
  }

  /** Re-verification keeps the ONU and the severity, and outside Medium the result is an alert. */
  lemma ReverifyKeepsOnu(lib: Lib, sev: Severity, e: Event, answer: Option<Detail>)
    requires Reverify(lib, sev, e, answer).Some?
    ensures var f := Reverify(lib, sev, e, answer).value;
      && SameOnu(e, f) && OnuKey(f) == OnuKey(e)
      && EventSeverity(f.eventType) == sev
      && (sev != Medium ==> IsAlert(f.eventType))
  {
  }

  // ----- the handler

  /** What HandleEvent does with a trap. */
  datatype Action = Ignore | RemoveFromBatch(event: Event) | AddToBatch(event: Event) | SendNow(event: Event)

  function HandleEvent(lib: Lib, hasFetcher: bool, hasBatcher: bool, event: Event, answer: Option<Detail>): Action {
    if event.board == 0 || event.pon == 0 || event.onuId == 0 then Ignore
    else if hasFetcher && NoAnswer(answer) then Ignore
    else
      var e := if hasFetcher then
                 var d := answer.value;
                 Refreshed(event, d, ResolveEventType(lib, d.status, d.offlineReason)).(onuType := d.onuType)
               else event;
      if !IsAlert(e.eventType) then (if hasBatcher then RemoveFromBatch(e) else Ignore)
      else if hasBatcher then AddToBatch(e)
      else SendNow(e)
  }

  /** The handler queues or sends only alerts about the trap's own ONU, never RX-power events; with a
      fetcher it removes the ONU from the batch exactly when the verified status is online. */
  lemma HandlerDispatch(lib: Lib, hasFetcher: bool, hasBatcher: bool, event: Event, answer: Option<Detail>)
    ensures var a := HandleEvent(lib, hasFetcher, hasBatcher, event, answer);
      && (!a.Ignore? ==> SameOnu(a.event, event) && event.board != 0 && event.pon != 0 && event.onuId != 0)
      && (a.AddToBatch? || a.SendNow? ==>
            IsAlert(a.event.eventType) && EventSeverity(a.event.eventType) !in {Medium, Unknown})
      && (a.RemoveFromBatch? ==> !IsAlert(a.event.eventType))
      && (hasFetcher && hasBatcher && !NoAnswer(answer) && event.board != 0 && event.pon != 0 && event.onuId != 0 ==>
            (a.RemoveFromBatch? <==>
               ResolveEventType(lib, answer.value.status, answer.value.offlineReason) == Online))
  {
    if hasFetcher && !NoAnswer(answer) {
      ResolvedIsAlertOrOnline(lib, answer.value.status, answer.value.offlineReason);
    }
  }

  // ----- what the classification means

  /** Every alert has a severity other than RX power's, and every other type with a severity is an alert. */
  lemma AlertSeverities(t: EventType)
    ensures IsAlert(t) <==> EventSeverity(t) in {Critical, High, Low}
    ensures EventSeverity(t) == Critical <==> t in {LOS, LOSi, LOFi, Offline, AuthFailed, PowerOff}
    ensures EventSeverity(t) == High <==> t in {Logging, Synchronization}
    ensures EventSeverity(t) == Medium <==> t in {HighRxPower, LowRxPower}
    ensures EventSeverity(t) == Low <==> t == DyingGasp
  {
  }

  /** A complete trap is acted on exactly when there is no fetcher or it found the ONU: with a batcher an alert is
      queued and anything else removed; without one an alert is sent, and anything else ignored. */
  lemma HandlerExact(lib: Lib, hasFetcher: bool, hasBatcher: bool, event: Event, answer: Option<Detail>)
    requires event.board != 0 && event.pon != 0 && event.onuId != 0
    ensures var a := HandleEvent(lib, hasFetcher, hasBatcher, event, answer);
      var verified := if hasFetcher && answer.Some?
                      then ResolveEventType(lib, answer.value.status, answer.value.offlineReason) else event.eventType;
      if hasFetcher && (answer.None? || answer.value.id == 0) then a == Ignore
      else
        && (a.AddToBatch? <==> hasBatcher && IsAlert(verified))
        && (a.RemoveFromBatch? <==> hasBatcher && !IsAlert(verified))
        && (a.SendNow? <==> !hasBatcher && IsAlert(verified))
        && (!a.Ignore? ==> a.event.eventType == verified)
        && (!a.Ignore? && !hasFetcher ==> a.event == event)
        && (!a.Ignore? && hasFetcher ==> a.event.status == answer.value.status && a.event.onuType == answer.value.onuType)
  {
  }

  /** An incomplete trap is ignored. */
  lemma IncompleteIgnored(lib: Lib, hasFetcher: bool, hasBatcher: bool, event: Event, answer: Option<Detail>)
    requires event.board == 0 || event.pon == 0 || event.onuId == 0
    ensures HandleEvent(lib, hasFetcher, hasBatcher, event, answer) == Ignore
  {
  }
}
