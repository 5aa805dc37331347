/** Which event type the device's own status and offline-reason texts stand for. */
module TrapStatuses {
  import opened TrapEvents

  const ALERT_WORDS := ["dying", "los", "power", "auth", "logging", "sync", "offline"]

  /** A status counts as online exactly when it says so or says nothing that is known. */
  lemma OnlineExactly(lib: Lib, status: string, offlineReason: string)
    ensures ResolveEventType(lib, status, offlineReason) == Online <==>
      || Contains(lib.lower(status), "online")
      || forall i :: 0 <= i < |ALERT_WORDS| ==> !Contains(lib.lower(status), ALERT_WORDS[i])
  {
    assert ALERT_WORDS[0] == "dying" && ALERT_WORDS[1] == "los" && ALERT_WORDS[2] == "power" && ALERT_WORDS[3] == "auth";
    assert ALERT_WORDS[4] == "logging" && ALERT_WORDS[5] == "sync" && ALERT_WORDS[6] == "offline";
  }

  /** Text without one of a word's letters does not contain the word. */
  lemma {:induction false} LacksLetter(s: string, part: string, c: char)
    requires c in part && c !in s
    ensures !Contains(s, part)
    decreases |s|
  {
    if s == "" {
    } else {
      LacksLetter(s[1..], part, c);
    }
  }

  lemma StartsWith(s: string, part: string)
    requires part <= s
    ensures Contains(s, part)
  {
  }

  /** Neither "offline" nor anything shorter after its first letter contains "online". */
  lemma OfflineIsNotOnline(s: string)
    requires s == "offline"
    ensures !Contains(s, "online")
  {
    assert s[1] == 'f' && s[1..][0] == 'f';
    LacksLetter(s[1..], "online", 'o');
  }

  /** The statuses the device reports, lower-cased, and the event types they stand for. */
  lemma DeviceStatuses(lib: Lib, reason: string)
    requires lib.lower("Logging") == "logging" && lib.lower("LOS") == "los"
    requires lib.lower("Synchronization") == "synchronization" && lib.lower("Online") == "online"
    requires lib.lower("Dying Gasp") == "dying gasp" && lib.lower("Auth Failed") == "auth failed"
    requires lib.lower("Unknown") == "unknown"
    ensures ResolveEventType(lib, "Logging", reason) == Logging
    ensures ResolveEventType(lib, "LOS", reason) == LOS
    ensures ResolveEventType(lib, "Synchronization", reason) == Synchronization
    ensures ResolveEventType(lib, "Online", reason) == Online
    ensures ResolveEventType(lib, "Dying Gasp", reason) == DyingGasp
    ensures ResolveEventType(lib, "Auth Failed", reason) == AuthFailed
    ensures ResolveEventType(lib, "Unknown", reason) == Online
  {
    LoggingStatus(lib, "Logging", reason);
    LosStatus(lib, "LOS", reason);
    SyncStatus(lib, "Synchronization", reason);
    OnlineStatus(lib, "Online", reason);
    DyingGaspStatus(lib, "Dying Gasp", reason);
    AuthFailedStatus(lib, "Auth Failed", reason);
    UnknownStatus(lib, "Unknown", reason);
  }

  /** The first known word decides. */
  lemma FirstWord(lib: Lib, status: string, reason: string)
    ensures var s, t := lib.lower(status), ResolveEventType(lib, status, reason);
      if Contains(s, "online") then t == Online
      else if Contains(s, "dying") then t == DyingGasp
      else if Contains(s, "los") then t == LOS
      else if Contains(s, "power") then t == PowerOff
      else if Contains(s, "auth") then t == AuthFailed
      else if Contains(s, "logging") then t == Logging
      else if Contains(s, "sync") then t == Synchronization
      else if Contains(s, "offline") then t == if reason == "" then Offline else NormalizeOfflineReason(lib, reason)
      else t == Online
  {
  }

  lemma OnlineStatus(lib: Lib, status: string, reason: string)
    requires lib.lower(status) == "online"
    ensures ResolveEventType(lib, status, reason) == Online
  {
    StartsWith(lib.lower(status), "online");
    FirstWord(lib, status, reason);
  }

  lemma LoggingWords1(s: string)
    requires s == "logging"
    ensures !Contains(s, "online") && !Contains(s, "dying") && !Contains(s, "los")
  {
    LacksLetter(s, "online", 'e');
    LacksLetter(s, "dying", 'd');
    LacksLetter(s, "los", 's');
  }

  lemma LoggingWords2(s: string)
    requires s == "logging"
    ensures !Contains(s, "power") && !Contains(s, "auth")
  {
    LacksLetter(s, "power", 'p');
    LacksLetter(s, "auth", 'a');
  }

  lemma LoggingWords(s: string)
    requires s == "logging"
    ensures !Contains(s, "online") && !Contains(s, "dying") && !Contains(s, "los")
    ensures !Contains(s, "power") && !Contains(s, "auth")
    ensures Contains(s, "logging")
  {
    LoggingWords1(s);
    LoggingWords2(s);
    StartsWith(s, "logging");
  }

  lemma LoggingStatus(lib: Lib, status: string, reason: string)
    requires lib.lower(status) == "logging"
    ensures ResolveEventType(lib, status, reason) == Logging
  {
    LoggingWords(lib.lower(status));
    FirstWord(lib, status, reason);
  }

  lemma LosWords(s: string)
    requires s == "los"
    ensures !Contains(s, "online") && !Contains(s, "dying")
    ensures Contains(s, "los")
  {
    LacksLetter(s, "online", 'n');
    LacksLetter(s, "dying", 'd');
    StartsWith(s, "los");
  }

  lemma LosStatus(lib: Lib, status: string, reason: string)
    requires lib.lower(status) == "los"
    ensures ResolveEventType(lib, status, reason) == LOS
  {
    LosWords(lib.lower(status));
    FirstWord(lib, status, reason);
  }

  lemma SyncWords1(s: string)
    requires s == "synchronization"
    ensures !Contains(s, "online") && !Contains(s, "dying") && !Contains(s, "los")
  {
    LacksLetter(s, "online", 'l');
    LacksLetter(s, "dying", 'd');
    LacksLetter(s, "los", 'l');
  }

  lemma SyncWords2(s: string)
    requires s == "synchronization"
    ensures !Contains(s, "power") && !Contains(s, "auth") && !Contains(s, "logging")
  {
    LacksLetter(s, "power", 'p');
    LacksLetter(s, "auth", 'u');
    LacksLetter(s, "logging", 'l');
  }

  lemma SyncWords(s: string)
    requires s == "synchronization"
    ensures !Contains(s, "online") && !Contains(s, "dying") && !Contains(s, "los")
    ensures !Contains(s, "power") && !Contains(s, "auth") && !Contains(s, "logging")
    ensures Contains(s, "sync")
  {
    SyncWords1(s);
    SyncWords2(s);
    StartsWith(s, "sync");
  }

  lemma SyncStatus(lib: Lib, status: string, reason: string)
    requires lib.lower(status) == "synchronization"
    ensures ResolveEventType(lib, status, reason) == Synchronization
  {
    SyncWords(lib.lower(status));
    FirstWord(lib, status, reason);
  }

  lemma DyingGaspWords(s: string)
    requires s == "dying gasp"
    ensures !Contains(s, "online")
    ensures Contains(s, "dying")
  {
    LacksLetter(s, "online", 'o');
    StartsWith(s, "dying");
  }

  lemma DyingGaspStatus(lib: Lib, status: string, reason: string)
    requires lib.lower(status) == "dying gasp"
    ensures ResolveEventType(lib, status, reason) == DyingGasp
  {
    DyingGaspWords(lib.lower(status));
    FirstWord(lib, status, reason);
  }

  lemma AuthFailedWords1(s: string)
    requires s == "auth failed"
    ensures !Contains(s, "online") && !Contains(s, "dying") && !Contains(s, "los")
  {
    LacksLetter(s, "online", 'o');
    LacksLetter(s, "dying", 'y');
    LacksLetter(s, "los", 'o');
  }

  lemma AuthFailedWords2(s: string)
    requires s == "auth failed"
    ensures !Contains(s, "power")
  {
    LacksLetter(s, "power", 'p');
  }

  lemma AuthFailedWords(s: string)
    requires s == "auth failed"
    ensures !Contains(s, "online") && !Contains(s, "dying") && !Contains(s, "los")
    ensures !Contains(s, "power")
    ensures Contains(s, "auth")
  {
    AuthFailedWords1(s);
    AuthFailedWords2(s);
    StartsWith(s, "auth");
  }

  lemma AuthFailedStatus(lib: Lib, status: string, reason: string)
    requires lib.lower(status) == "auth failed"
    ensures ResolveEventType(lib, status, reason) == AuthFailed
  {
    AuthFailedWords(lib.lower(status));
    FirstWord(lib, status, reason);
  }

  lemma OfflineWords1(s: string)
    requires s == "offline"
    ensures !Contains(s, "online") && !Contains(s, "dying") && !Contains(s, "los")
  {
    OfflineIsNotOnline(s);
    LacksLetter(s, "dying", 'd');
    LacksLetter(s, "los", 's');
  }

  lemma OfflineWords2(s: string)
    requires s == "offline"
    ensures !Contains(s, "power") && !Contains(s, "auth") && !Contains(s, "logging")
  {
    LacksLetter(s, "power", 'p');
    LacksLetter(s, "auth", 'a');
    LacksLetter(s, "logging", 'g');
  }

  lemma OfflineWords3(s: string)
    requires s == "offline"
    ensures !Contains(s, "sync")
  {
    LacksLetter(s, "sync", 's');
  }

  lemma OfflineWords(s: string)
    requires s == "offline"
    ensures !Contains(s, "online") && !Contains(s, "dying") && !Contains(s, "los")
    ensures !Contains(s, "power") && !Contains(s, "auth") && !Contains(s, "logging")
    ensures !Contains(s, "sync")
    ensures Contains(s, "offline")
  {
    OfflineWords1(s);
    OfflineWords2(s);
    OfflineWords3(s);
    StartsWith(s, "offline");
  }

  /** Offline is told apart further by its reason, if there is one. */
  lemma OfflineStatus(lib: Lib, status: string, reason: string)
    requires lib.lower(status) == "offline"
    ensures ResolveEventType(lib, status, reason) == if reason == "" then Offline else NormalizeOfflineReason(lib, reason)
  {
    OfflineWords(lib.lower(status));
    FirstWord(lib, status, reason);
  }

  lemma UnknownWords1(s: string)
    requires s == "unknown"
    ensures !Contains(s, "online") && !Contains(s, "dying") && !Contains(s, "los")
  {
    LacksLetter(s, "online", 'l');
    LacksLetter(s, "dying", 'd');
    LacksLetter(s, "los", 'l');
  }

  lemma UnknownWords2(s: string)
    requires s == "unknown"
    ensures !Contains(s, "power") && !Contains(s, "auth") && !Contains(s, "logging")
  {
    LacksLetter(s, "power", 'p');
    LacksLetter(s, "auth", 'a');
    LacksLetter(s, "logging", 'l');
  }

  lemma UnknownWords3(s: string)
    requires s == "unknown"
    ensures !Contains(s, "sync") && !Contains(s, "offline")
  {
    LacksLetter(s, "sync", 's');
    LacksLetter(s, "offline", 'f');
  }

  lemma UnknownWords(s: string)
    requires s == "unknown"
    ensures !Contains(s, "online") && !Contains(s, "dying") && !Contains(s, "los")
    ensures !Contains(s, "power") && !Contains(s, "auth") && !Contains(s, "logging")
    ensures !Contains(s, "sync") && !Contains(s, "offline")
  {
    UnknownWords1(s);
    UnknownWords2(s);
    UnknownWords3(s);
  }

  lemma UnknownStatus(lib: Lib, status: string, reason: string)
    requires lib.lower(status) == "unknown"
    ensures ResolveEventType(lib, status, reason) == Online
  {
    UnknownWords(lib.lower(status));
    FirstWord(lib, status, reason);
  }

  /** The first known word of the reason decides. */
  lemma FirstReason(lib: Lib, reason: string)
    ensures var r, t := lib.lower(reason), NormalizeOfflineReason(lib, reason);
      if Contains(r, "losi") then t == LOSi
      else if Contains(r, "lofi") then t == LOFi
      else if Contains(r, "los") then t == LOS
      else if Contains(r, "dyinggasp") || Contains(r, "dying") then t == DyingGasp
      else if Contains(r, "poweroff") || Contains(r, "power") then t == PowerOff
      else if Contains(r, "authfail") || Contains(r, "auth") then t == AuthFailed
      else t == Offline
  {
  }

  lemma LosiReasonWords(r: string)
    requires r == "losi"
    ensures Contains(r, "losi")
  {
    StartsWith(r, "losi");
  }

  lemma LofiReasonWords(r: string)
    requires r == "lofi"
    ensures !Contains(r, "losi")
    ensures Contains(r, "lofi")
  {
    LacksLetter(r, "losi", 's');
    StartsWith(r, "lofi");
  }

  lemma LosReasonWords(r: string)
    requires r == "los"
    ensures !Contains(r, "losi") && !Contains(r, "lofi")
    ensures Contains(r, "los")
  {
    LacksLetter(r, "losi", 'i');
    LacksLetter(r, "lofi", 'f');
    StartsWith(r, "los");
  }

  lemma PowerOffReasonWords1(r: string)
    requires r == "poweroff"
    ensures !Contains(r, "losi") && !Contains(r, "lofi") && !Contains(r, "los")
  {
    LacksLetter(r, "losi", 'l');
    LacksLetter(r, "lofi", 'l');
    LacksLetter(r, "los", 'l');
  }

  lemma PowerOffReasonWords2(r: string)
    requires r == "poweroff"
    ensures !Contains(r, "dyinggasp") && !Contains(r, "dying")
  {
    LacksLetter(r, "dyinggasp", 'd');
    LacksLetter(r, "dying", 'd');
  }

  lemma PowerOffReasonWords(r: string)
    requires r == "poweroff"
    ensures !Contains(r, "losi") && !Contains(r, "lofi") && !Contains(r, "los")
    ensures !Contains(r, "dyinggasp") && !Contains(r, "dying")
    ensures Contains(r, "poweroff")
  {
    PowerOffReasonWords1(r);
    PowerOffReasonWords2(r);
    StartsWith(r, "poweroff");
  }

  lemma AuthFailReasonWords1(r: string)
    requires r == "authfail"
    ensures !Contains(r, "losi") && !Contains(r, "lofi") && !Contains(r, "los")
  {
    LacksLetter(r, "losi", 'o');
    LacksLetter(r, "lofi", 'o');
    LacksLetter(r, "los", 'o');
  }

  lemma AuthFailReasonWords2(r: string)
    requires r == "authfail"
    ensures !Contains(r, "dyinggasp") && !Contains(r, "dying") && !Contains(r, "poweroff")
  {
    LacksLetter(r, "dyinggasp", 'd');
    LacksLetter(r, "dying", 'd');
    LacksLetter(r, "poweroff", 'p');
  }

  lemma AuthFailReasonWords3(r: string)
    requires r == "authfail"
    ensures !Contains(r, "power")
  {
    LacksLetter(r, "power", 'p');
  }

  lemma AuthFailReasonWords(r: string)
    requires r == "authfail"
    ensures !Contains(r, "losi") && !Contains(r, "lofi") && !Contains(r, "los")
    ensures !Contains(r, "dyinggasp") && !Contains(r, "dying") && !Contains(r, "poweroff")
    ensures !Contains(r, "power")
    ensures Contains(r, "authfail")
  {
    AuthFailReasonWords1(r);
    AuthFailReasonWords2(r);
    AuthFailReasonWords3(r);
    StartsWith(r, "authfail");
  }

  /** The offline reasons the device reports, lower-cased, that have an event type of their own. */
  lemma OfflineReasons(lib: Lib, reason: string)
    ensures lib.lower(reason) == "losi" ==> NormalizeOfflineReason(lib, reason) == LOSi
    ensures lib.lower(reason) == "lofi" ==> NormalizeOfflineReason(lib, reason) == LOFi
    ensures lib.lower(reason) == "los" ==> NormalizeOfflineReason(lib, reason) == LOS
    ensures lib.lower(reason) == "poweroff" ==> NormalizeOfflineReason(lib, reason) == PowerOff
    ensures lib.lower(reason) == "authfail" ==> NormalizeOfflineReason(lib, reason) == AuthFailed
  {
    var r := lib.lower(reason);
    FirstReason(lib, reason);
    if r == "losi" {
      LosiReasonWords(r);
    } else if r == "lofi" {
      LofiReasonWords(r);
    } else if r == "los" {
      LosReasonWords(r);
    } else if r == "poweroff" {
      PowerOffReasonWords(r);
    } else if r == "authfail" {
      AuthFailReasonWords(r);
    }
  }
}
