/**
 * The session lock manager (`SecurityManager`): who is locked when, the single
 * auto-lock timeout re-armed by user activity, lock notifications and the
 * `localStorage` entries it reads and writes.
 *
 * The clock is the `now` argument of each operation. The browser's pending
 * timeouts are the map `timers` from handle to due time; a timeout runs when the
 * environment calls `Fire`. Lock callbacks are identified by number and their
 * invocations are appended to `notified`. DOM listeners are the list of event
 * types that have one attached.
 */
module Lock {
  import opened JsBuiltins
  import opened PinEnvelope

  /** Five minutes of inactivity, in milliseconds. */
  const InactivityTimeout: int := 5 * 60 * 1000

  const PinTestKey: string := "financeiq_pin_test"
  const SessionActiveKey: string := "financeiq_session_active"
  const LastActivityKey: string := "financeiq_last_activity"

  const ActivityEvents: seq<string> :=
    ["mousedown", "mousemove", "keypress", "scroll", "touchstart", "click", "focus"]

  /** A `localStorage` value, seen through `JSON.parse`: the serialisation of an
      envelope, or any other text. */
  datatype Stored = EnvelopeJson(envelope: EncryptedData) | Text(text: string)

  type CallbackId = nat
  type TimerHandle = nat

  /** The pending timeouts once the one with handle `h`, if any, is cancelled. */
  function Cancel(timers: map<TimerHandle, int>, h: Option<TimerHandle>): (r: map<TimerHandle, int>)
    ensures h.None? ==> r == timers
    ensures h.Some? ==> r == timers - {h.value}
  {
    if h.Some? then timers - {h.value} else timers
  }

  /** The number of listeners attached for one event type. */
  function Count(listeners: seq<string>, event: string): nat {
    if listeners == [] then 0
    else Count(listeners[..|listeners| - 1], event) + (if listeners[|listeners| - 1] == event then 1 else 0)
  }

  lemma {:induction false} CountPositive(listeners: seq<string>, event: string)
    ensures Count(listeners, event) > 0 <==> event in listeners
  {
    if listeners != [] {
      var init := listeners[..|listeners| - 1];
      CountPositive(init, event);
      assert listeners == init + [listeners[|listeners| - 1]];
    }
  }

  /** Cancelling a timeout just armed under a handle that was free, then arming another,
      leaves only the second. */
  lemma RearmReplaces(pending: map<TimerHandle, int>, h: TimerHandle, due: int, h2: TimerHandle, due2: int)
    requires h !in pending
    ensures Cancel(pending[h := due], Some(h))[h2 := due2] == pending[h2 := due2]
  {
    assert pending[h := due] - {h} == pending;
  }

  /** The timestamp `checkAutoLock` reads back: `parseInt` of a non-empty stored text. */
  function StoredLastActivity(store: map<string, Stored>): Option<int> {
    if LastActivityKey !in store then None
    else match store[LastActivityKey]
      case Text(s) => if s == [] then None else ParseInt(s, Ten)
      case EnvelopeJson(_) => None  // JSON text of an object: parseInt gives NaN
  }

  /** `checkAutoLock` locks: the stored last activity is more than the timeout ago. */
  predicate ResumesStale(store: map<string, Stored>, now: int) {
    var last := StoredLastActivity(store);
    last.Some? && now - last.value > InactivityTimeout
  }

  /** What `unlock` accepts: a stored envelope that the PIN opens. */
  predicate Accepts(kdf: Kdf, store: map<string, Stored>, pin: string) {
    PinTestKey in store && store[PinTestKey].EnvelopeJson? && VerifyPin(kdf, pin, store[PinTestKey].envelope)
  }

  class SecurityManager {
    const kdf: Kdf
    var isUnlocked: bool
    var lastActivity: int
    /** The handle recorded in the session (`session.autoLockTimer`). */
    var autoLockTimer: Option<TimerHandle>
    /** The browser's pending timeouts, each of which runs `lock()` when due. */
    var timers: map<TimerHandle, int>
    var nextHandle: TimerHandle
    var activityListeners: seq<string>
    var onLockCallbacks: seq<CallbackId>
    var notified: seq<CallbackId>
    var store: map<string, Stored>

    /** Handles are positive and issued once, in increasing order. */
    ghost predicate Valid()
      reads this
    {
      && nextHandle >= 1
      && (forall h :: h in timers ==> 1 <= h < nextHandle)
      && (autoLockTimer.Some? ==> autoLockTimer.value < nextHandle)
    }

    /** The session's intended timer discipline: the only pending timeout is the one the
        session records, it exists only while unlocked, and it is due exactly
        `InactivityTimeout` after the last activity. */
    ghost predicate TimersFresh()
      reads this
    {
      && (autoLockTimer.None? ==> timers == map[])
      && (autoLockTimer.Some? ==>
            && timers.Keys == {autoLockTimer.value}
            && timers[autoLockTimer.value] == lastActivity + InactivityTimeout
            && isUnlocked)
    }

    constructor (kdf: Kdf, storage: map<string, Stored>, now: int)
      ensures Valid() && TimersFresh()
      ensures this.kdf == kdf && store == storage
      ensures !isUnlocked && lastActivity == now && autoLockTimer.None? && nextHandle == 1
      ensures activityListeners == [] && onLockCallbacks == [] && notified == []
    {
      this.kdf := kdf;
      isUnlocked := false;
      lastActivity := now;
      autoLockTimer := None;
      timers := map[];
      nextHandle := 1;
      activityListeners := [];
      onLockCallbacks := [];
      notified := [];
      store := storage;
    }

    method IsUnlocked() returns (b: bool)
      ensures b == isUnlocked
    {
      b := isUnlocked;
    }

    method HasStoredPin() returns (b: bool)
      ensures b <==> PinTestKey in store
    {
      b := PinTestKey in store;
    }

    method OnLock(callback: CallbackId)
      modifies this`onLockCallbacks
      ensures onLockCallbacks == old(onLockCallbacks) + [callback]
    {
      onLockCallbacks := onLockCallbacks + [callback];
    }

    method ClearLockCallbacks()
      modifies this`onLockCallbacks
      ensures onLockCallbacks == []
    {
      onLockCallbacks := [];
    }

    method ClearAutoLockTimer()
      requires Valid()
      modifies this`autoLockTimer, this`timers
      ensures Valid()
      ensures autoLockTimer.None? && timers == Cancel(old(timers), old(autoLockTimer))
    {
      if autoLockTimer.Some? {
        timers := timers - {autoLockTimer.value};
        autoLockTimer := None;
      }
    }

    /** Cancels the recorded timeout and, only while unlocked, arms a new one due
        `InactivityTimeout` after `now`. */
    method ResetAutoLockTimer(now: int)
      requires Valid()
      modifies this`autoLockTimer, this`timers, this`nextHandle
      ensures Valid()
      ensures isUnlocked ==>
        && autoLockTimer == Some(old(nextHandle)) && nextHandle == old(nextHandle) + 1
        && timers == Cancel(old(timers), old(autoLockTimer))[old(nextHandle) := now + InactivityTimeout]
      ensures !isUnlocked ==>
        autoLockTimer.None? && nextHandle == old(nextHandle) && timers == Cancel(old(timers), old(autoLockTimer))
      ensures old(TimersFresh()) && lastActivity == now ==> TimersFresh()
    {
      ClearAutoLockTimer();
      if isUnlocked {
        timers := timers[nextHandle := now + InactivityTimeout];
        autoLockTimer := Some(nextHandle);
        nextHandle := nextHandle + 1;
      }
    }

    /** Locks, cancels the recorded timeout and runs every callback once, in order. */
    method Lock()
      requires Valid()
      modifies this`isUnlocked, this`autoLockTimer, this`timers, this`notified
      ensures Valid()
      ensures !isUnlocked && autoLockTimer.None? && timers == Cancel(old(timers), old(autoLockTimer))
      ensures notified == old(notified) + onLockCallbacks
      ensures old(TimersFresh()) ==> TimersFresh()
    {
      isUnlocked := false;
      ClearAutoLockTimer();
      var i := 0;
      while i < |onLockCallbacks|
        modifies this`notified
        invariant 0 <= i <= |onLockCallbacks|
        invariant notified == old(notified) + onLockCallbacks[..i]
      {
        notified := notified + [onLockCallbacks[i]];
        i := i + 1;
      }
    }

    /** The browser runs the timeout `handle` at time `now`, if it is pending and due. */
    method Fire(handle: TimerHandle, now: int) returns (fired: bool)
      requires Valid()
      modifies this`isUnlocked, this`autoLockTimer, this`timers, this`notified
      ensures Valid()
      ensures fired <==> handle in old(timers) && old(timers)[handle] <= now
      ensures fired ==>
        && !isUnlocked && autoLockTimer.None?
        && timers == Cancel(old(timers) - {handle}, old(autoLockTimer))
        && notified == old(notified) + onLockCallbacks
      ensures !fired ==>
        && isUnlocked == old(isUnlocked) && autoLockTimer == old(autoLockTimer)
        && timers == old(timers) && notified == old(notified)
      ensures old(TimersFresh()) ==> TimersFresh()
      ensures old(TimersFresh()) && fired ==> old(isUnlocked) && now >= lastActivity + InactivityTimeout
    {
      fired := handle in timers && timers[handle] <= now;
      if fired {
        timers := timers - {handle};
        Lock();
      }
    }

    /** The `updateActivity` listener body. */
    method UpdateActivity(now: int)
      requires Valid()
      modifies this`lastActivity, this`autoLockTimer, this`timers, this`nextHandle
      ensures Valid()
      ensures !isUnlocked ==>
        && lastActivity == old(lastActivity) && autoLockTimer == old(autoLockTimer)
        && timers == old(timers) && nextHandle == old(nextHandle)
      ensures isUnlocked ==>
        && lastActivity == now && autoLockTimer == Some(old(nextHandle)) && nextHandle == old(nextHandle) + 1
        && timers == Cancel(old(timers), old(autoLockTimer))[old(nextHandle) := now + InactivityTimeout]
      ensures old(TimersFresh()) ==> TimersFresh()
    {
      if isUnlocked {
        lastActivity := now;
        ResetAutoLockTimer(now);
      }
    }

    /** A DOM event of type `event` reaches the document at time `now`: every listener
        attached for that type runs `updateActivity` once. */
    method Activity(event: string, now: int)
      requires Valid()
      modifies this`lastActivity, this`autoLockTimer, this`timers, this`nextHandle
      ensures Valid()
      ensures !isUnlocked || event !in activityListeners ==>
        && lastActivity == old(lastActivity) && autoLockTimer == old(autoLockTimer)
        && timers == old(timers) && nextHandle == old(nextHandle)
      ensures isUnlocked && event in activityListeners ==>
        && lastActivity == now
        && nextHandle == old(nextHandle) + Count(activityListeners, event)
        && autoLockTimer == Some(nextHandle - 1)
        && timers == Cancel(old(timers), old(autoLockTimer))[nextHandle - 1 := now + InactivityTimeout]
      ensures old(TimersFresh()) ==> TimersFresh()
    {
      var i := 0;
      while i < |activityListeners|
        invariant 0 <= i <= |activityListeners|
        invariant Valid()
        invariant old(TimersFresh()) ==> TimersFresh()
        invariant !isUnlocked || event !in activityListeners[..i] ==>
          && lastActivity == old(lastActivity) && autoLockTimer == old(autoLockTimer)
          && timers == old(timers) && nextHandle == old(nextHandle)
        invariant isUnlocked && event in activityListeners[..i] ==>
          && lastActivity == now
          && nextHandle == old(nextHandle) + Count(activityListeners[..i], event)
          && autoLockTimer == Some(nextHandle - 1)
          && timers == Cancel(old(timers), old(autoLockTimer))[nextHandle - 1 := now + InactivityTimeout]
      {
        assert activityListeners[..i + 1] == activityListeners[..i] + [activityListeners[i]];
        CountPositive(activityListeners[..i], event);
        if activityListeners[i] == event {
          ghost var before := timers;
          UpdateActivity(now);
          if isUnlocked && event in activityListeners[..i] {
            // The timeout armed by the previous listener is the one this run cancels.
            RearmReplaces(Cancel(old(timers), old(autoLockTimer)), nextHandle - 2, before[nextHandle - 2],
              nextHandle - 1, now + InactivityTimeout);
          }
        }
        i := i + 1;
      }
      assert activityListeners[..i] == activityListeners;
    }

    /** `startActivityMonitoring`: one listener per activity event type. */
    method StartActivityMonitoring()
      modifies this`activityListeners
      ensures activityListeners == old(activityListeners) + ActivityEvents
    {
      activityListeners := activityListeners + ActivityEvents;
    }

    method StopActivityMonitoring()
      modifies this`activityListeners
      ensures activityListeners == []
    {
      activityListeners := [];
    }

    /** `checkAutoLock`: lock at start-up when the stored last activity is stale. */
    method CheckAutoLock(now: int)
      requires Valid()
      modifies this`isUnlocked, this`autoLockTimer, this`timers, this`notified
      ensures Valid()
      ensures ResumesStale(store, now) ==>
        && !isUnlocked && autoLockTimer.None? && timers == Cancel(old(timers), old(autoLockTimer))
        && notified == old(notified) + onLockCallbacks
      ensures !ResumesStale(store, now) ==>
        && isUnlocked == old(isUnlocked) && autoLockTimer == old(autoLockTimer)
        && timers == old(timers) && notified == old(notified)
      ensures old(TimersFresh()) ==> TimersFresh()
    {
      var last := StoredLastActivity(store);
      if last.Some? && now - last.value > InactivityTimeout {
        Lock();
      }
    }

    /** Unlocked exactly when no PIN is stored, then locked anyway if the stored last
        activity is more than five minutes old. */
    method Initialize(now: int)
      requires Valid()
      modifies this`isUnlocked, this`activityListeners, this`autoLockTimer, this`timers, this`notified
      ensures Valid()
      ensures activityListeners == old(activityListeners) + ActivityEvents
      ensures ResumesStale(store, now) ==>
        && !isUnlocked && autoLockTimer.None? && timers == Cancel(old(timers), old(autoLockTimer))
        && notified == old(notified) + onLockCallbacks
      ensures !ResumesStale(store, now) ==>
        && (isUnlocked <==> PinTestKey !in store)
        && autoLockTimer == old(autoLockTimer) && timers == old(timers) && notified == old(notified)
      ensures old(TimersFresh()) && old(autoLockTimer).None? ==> TimersFresh()
    {
      var hasExistingPin := HasStoredPin();
      isUnlocked := !hasExistingPin;
      StartActivityMonitoring();
      CheckAutoLock(now);
    }

    /** Stores a fresh test envelope for a 4 to 6 digit PIN and unlocks; any other PIN
        is rejected (`ok` false) with nothing changed. */
    method SetupPin(pin: string, salt: seq<byte>, iv: seq<byte>, now: nat) returns (ok: bool)
      requires Valid()
      modifies this`store, this`isUnlocked, this`lastActivity, this`autoLockTimer, this`timers, this`nextHandle
      ensures Valid()
      ensures ok <==> IsPinFormat(pin)
      ensures !ok ==>
        && store == old(store) && isUnlocked == old(isUnlocked) && lastActivity == old(lastActivity)
        && autoLockTimer == old(autoLockTimer) && timers == old(timers) && nextHandle == old(nextHandle)
      ensures ok ==>
        && store == old(store)[PinTestKey := EnvelopeJson(GeneratePinTestData(kdf, pin, salt, iv, now).value)]
        && isUnlocked && lastActivity == now
        && autoLockTimer == Some(old(nextHandle)) && nextHandle == old(nextHandle) + 1
        && timers == Cancel(old(timers), old(autoLockTimer))[old(nextHandle) := now + InactivityTimeout]
      ensures ok ==> Accepts(kdf, store, pin)
      ensures old(TimersFresh()) ==> TimersFresh()
    {
      if !IsPinFormat(pin) {
        return false;
      }
      var testData := GeneratePinTestData(kdf, pin, salt, iv, now);
      store := store[PinTestKey := EnvelopeJson(testData.value)];
      isUnlocked := true;
      lastActivity := now;
      ResetAutoLockTimer(now);
      ok := true;
      VerifyGenerated(kdf, pin, salt, iv, now);
    }

    /** Unlocks exactly when the stored test envelope opens under `pin`; otherwise
        returns false and changes nothing. */
    method Unlock(pin: string, now: int) returns (ok: bool)
      requires Valid()
      modifies this`isUnlocked, this`lastActivity, this`autoLockTimer, this`timers, this`nextHandle
      ensures Valid()
      ensures ok <==> Accepts(kdf, store, pin)
      ensures !ok ==>
        && isUnlocked == old(isUnlocked) && lastActivity == old(lastActivity)
        && autoLockTimer == old(autoLockTimer) && timers == old(timers) && nextHandle == old(nextHandle)
      ensures ok ==>
        && isUnlocked && lastActivity == now
        && autoLockTimer == Some(old(nextHandle)) && nextHandle == old(nextHandle) + 1
        && timers == Cancel(old(timers), old(autoLockTimer))[old(nextHandle) := now + InactivityTimeout]
      ensures old(TimersFresh()) ==> TimersFresh()
    {
      if PinTestKey !in store {
        return false;  // 'Aucun PIN configuré'
      }
      match store[PinTestKey]
      case Text(_) =>
        return false;  // empty, or not the JSON of an envelope
      case EnvelopeJson(testData) =>
        if VerifyPin(kdf, pin, testData) {
          isUnlocked := true;
          lastActivity := now;
          ResetAutoLockTimer(now);
          return true;
        }
        return false;
    }

    /** `resetComplete` as written: the stored entries are removed and the session
        object is replaced before `clearAutoLockTimer` runs, so the pending timeout is
        forgotten but never cancelled. */
    method ResetComplete(now: int)
      requires Valid()
      modifies this`store, this`isUnlocked, this`lastActivity, this`autoLockTimer, this`timers
      ensures Valid()
      ensures timers == old(timers)
      ensures store == old(store) - {PinTestKey, SessionActiveKey, LastActivityKey}
      ensures PinTestKey !in store
      ensures isUnlocked && lastActivity == now && autoLockTimer.None?
    {
      store := store - {PinTestKey, SessionActiveKey, LastActivityKey};
      isUnlocked := true;
      lastActivity := now;
      autoLockTimer := None;
      ClearAutoLockTimer();  // the new session has no handle: nothing is cancelled
    }

    /** `resetComplete` with `clearAutoLockTimer` run before the session is replaced. */
    method ResetCompleteCorrected(now: int)
      requires Valid()
      modifies this`store, this`isUnlocked, this`lastActivity, this`autoLockTimer, this`timers
      ensures Valid()
      ensures store == old(store) - {PinTestKey, SessionActiveKey, LastActivityKey}
      ensures PinTestKey !in store
      ensures isUnlocked && lastActivity == now && autoLockTimer.None?
      ensures timers == Cancel(old(timers), old(autoLockTimer))
      ensures old(TimersFresh()) ==> TimersFresh()
    {
      ClearAutoLockTimer();
      store := store - {PinTestKey, SessionActiveKey, LastActivityKey};
      isUnlocked := true;
      lastActivity := now;
      autoLockTimer := None;
    }

    /** Detaches the activity listeners, cancels the recorded timeout and drops every
        lock callback. */
    method Destroy()
      requires Valid()
      modifies this`activityListeners, this`autoLockTimer, this`timers, this`onLockCallbacks
      ensures Valid()
      ensures activityListeners == [] && onLockCallbacks == []
      ensures autoLockTimer.None? && timers == Cancel(old(timers), old(autoLockTimer))
      ensures old(TimersFresh()) ==> TimersFresh()
    {
      StopActivityMonitoring();
      ClearAutoLockTimer();
      ClearLockCallbacks();
    }
  }

  /** The state machine walk-through: first run, PIN setup, lock, a wrong PIN, the
      right PIN. */
  method LockUnlockScenario(kdf: Kdf, salt: seq<byte>, iv: seq<byte>)
    returns (openAtStart: bool, wrongAccepted: bool, rightAccepted: bool, openAtEnd: bool)
    requires kdf("0000", salt) != kdf("1234", salt)
    ensures openAtStart && !wrongAccepted && rightAccepted && openAtEnd
  {
    var m := new SecurityManager(kdf, map[], 0);
    m.Initialize(0);
    assert m.store == map[] && !ResumesStale(m.store, 0);
    openAtStart := m.IsUnlocked();
    assert IsPinFormat("1234");
    var ok := m.SetupPin("1234", salt, iv, 10);
    assert ok;
    WrongPinRejected(kdf, "1234", "0000", salt, iv, 10);
    wrongAccepted, rightAccepted, openAtEnd := LockAndRetry(m, "1234", "0000");
  }

  /** Locks, then offers a PIN the stored envelope rejects and one it accepts. */
  method LockAndRetry(m: SecurityManager, right: string, wrong: string)
    returns (wrongAccepted: bool, rightAccepted: bool, openAtEnd: bool)
    requires m.Valid() && Accepts(m.kdf, m.store, right) && !Accepts(m.kdf, m.store, wrong)
    modifies m
    ensures !wrongAccepted && rightAccepted && openAtEnd
  {
    m.Lock();
    wrongAccepted := m.Unlock(wrong, 20);
    rightAccepted := m.Unlock(right, 30);
    openAtEnd := m.IsUnlocked();
  }

  /** Five idle minutes after unlocking, the timeout locks the session and each
      registered callback runs exactly once. */
  method AutoLockScenario(kdf: Kdf, salt: seq<byte>, iv: seq<byte>)
    returns (fired: bool, openAfter: bool, calls: seq<CallbackId>)
    ensures fired && !openAfter && calls == [7, 8]
  {
    var m := new SecurityManager(kdf, map[], 0);
    m.Initialize(0);
    assert m.store == map[] && !ResumesStale(m.store, 0);
    m.OnLock(7);
    m.OnLock(8);
    assert IsPinFormat("4821");
    var ok := m.SetupPin("4821", salt, iv, 0);
    assert ok && m.timers == map[1 := InactivityTimeout] && m.onLockCallbacks == [7, 8];
    fired, openAfter, calls := RelockAfterIdle(m, "4821");
  }

  /** From a session unlocked at time 0 with PIN `pin` (timeout 1 pending): lock,
      unlock at 1000, then let both timeouts come due. */
  method RelockAfterIdle(m: SecurityManager, pin: string)
    returns (fired: bool, openAfter: bool, calls: seq<CallbackId>)
    requires m.Valid() && Accepts(m.kdf, m.store, pin)
    requires m.timers == map[1 := InactivityTimeout] && m.autoLockTimer == Some(1) && m.nextHandle == 2
    modifies m
    ensures fired && !openAfter && calls == old(m.onLockCallbacks)
  {
    m.Lock();
    assert m.timers == map[];
    var ok := m.Unlock(pin, 1000);
    assert ok && m.timers == map[2 := 1000 + InactivityTimeout];
    fired := m.Fire(1, 1000 + InactivityTimeout);
    assert !fired;  // handle 1 was cancelled by lock()
    var before := |m.notified|;
    fired := m.Fire(2, 1000 + InactivityTimeout);
    openAfter := m.IsUnlocked();
    calls := m.notified[before..];
  }

  /** The defect of `resetComplete`: a timeout armed before the reset is still
      pending afterwards and locks a session whose user was active one second
      earlier, with no PIN left to unlock it. */
  method StaleTimerAfterReset(kdf: Kdf, salt: seq<byte>, iv: seq<byte>)
    returns (fired: bool, openAfter: bool, idle: int, pinStored: bool)
    ensures fired && !openAfter && idle < InactivityTimeout && !pinStored
  {
    var m := new SecurityManager(kdf, map[], 0);
    m.Initialize(0);
    assert m.store == map[] && !ResumesStale(m.store, 0);
    assert IsPinFormat("1234");
    var ok := m.SetupPin("1234", salt, iv, 0);  // timeout 1 due at 300 000
    assert ok && m.timers == map[1 := InactivityTimeout];
    fired, openAfter, idle, pinStored := ResetThenIdle(m);
  }

  /** With timeout 1 pending for 300 000: `resetComplete` at 1000, a click at
      299 000, and the browser's turn at 300 000. */
  method ResetThenIdle(m: SecurityManager) returns (fired: bool, openAfter: bool, idle: int, pinStored: bool)
    requires m.Valid() && m.timers == map[1 := InactivityTimeout] && m.activityListeners == ActivityEvents
    modifies m
    ensures fired && !openAfter && idle < InactivityTimeout && !pinStored
  {
    m.ResetComplete(1000);
    assert m.activityListeners[5] == "click" && 1 in m.timers && m.nextHandle >= 2;
    CountPositive(m.activityListeners, "click");
    m.Activity("click", 299000);               // timeout 2 due at 599 000
    assert 1 in m.timers && m.timers[1] == InactivityTimeout;
    fired := m.Fire(1, 300000);
    openAfter := m.IsUnlocked();
    idle := 300000 - m.lastActivity;
    pinStored := m.HasStoredPin();
  }

  /** The same walk with the corrected reset: the old timeout is gone and the session
      stays open. */
  method StaleTimerAfterResetCorrected(kdf: Kdf, salt: seq<byte>, iv: seq<byte>)
    returns (fired: bool, openAfter: bool)
    ensures !fired && openAfter
  {
    var m := new SecurityManager(kdf, map[], 0);
    m.Initialize(0);
    var ok := m.SetupPin("1234", salt, iv, 0);
    m.ResetCompleteCorrected(1000);
    m.Activity("click", 299000);
    fired := m.Fire(1, 300000);
    openAfter := m.IsUnlocked();
  }
}
