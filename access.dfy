/** The PIN lock screen: the screen opens locked, a correct PIN unlocks it,
    five wrong PINs in a row halt the system until the master reset code is
    entered, and the halt survives reloads through one flag in the device's
    local storage. */
module Access {
  import opened Wrappers

  const SecretPin: string := "9812"
  const MasterResetCode: string := "159753"
  const MaxAttempts: int := 5
  /** The local-storage key of the persisted halt flag. */
  const HaltKey: string := "gb_system_halted"

  /** The lock screen's state together with the device's local storage. */
  datatype Session = Session(
    isLocked: bool,
    pinInput: string,
    failedAttempts: int,
    isSystemHalted: bool,
    storage: map<string, string>)

  /** The messages the screen shows after a submission. */
  datatype Alert = ResetSuccessful | InvalidMasterCode | IncorrectPin(remaining: int)

  datatype Outcome = Outcome(next: Session, alert: Option<Alert>)

  /** `localStorage.getItem(HaltKey) === 'true'` */
  predicate StoredHalt(storage: map<string, string>)
  {
    HaltKey in storage && storage[HaltKey] == "true"
  }

  /** What holds of every session the screen can reach: the counter is
      bounded, reaching the limit means halted, halted means locked, and the
      in-memory halt flag agrees with the persisted one. */
  predicate Invariant(s: Session)
  {
    && 0 <= s.failedAttempts <= MaxAttempts
    && (s.failedAttempts == MaxAttempts ==> s.isSystemHalted)
    && (s.isSystemHalted ==> s.isLocked)
    && (s.isSystemHalted <==> StoredHalt(s.storage))
  }

  /** The initial state followed by the start-up restore of the halt flag. */
  function Startup(storage: map<string, string>): (s: Session)
    ensures s.isLocked && s.failedAttempts == 0 && s.pinInput == "" && s.storage == storage
    ensures s.isSystemHalted <==> StoredHalt(storage)
    ensures Invariant(s)
  {
    Session(true, "", 0, StoredHalt(storage), storage)
  }

  /** Submitting the PIN form with the typed `pinInput`. */
  function Submit(s: Session): (r: Outcome)
    // every submission clears the typed code
    ensures r.next.pinInput == ""
    // halted: the master code clears the halt in memory and in storage and
    // resets the counter, but the screen stays locked
    ensures s.isSystemHalted && s.pinInput == MasterResetCode ==>
      && r.next == s.(pinInput := "", isSystemHalted := false, failedAttempts := 0)
                    .(storage := s.storage - {HaltKey})
      && !StoredHalt(r.next.storage) && r.next.isLocked == s.isLocked
      && r.alert == Some(ResetSuccessful)
    // halted: anything else, the operational PIN included, changes nothing
    // but the typed code
    ensures s.isSystemHalted && s.pinInput != MasterResetCode ==>
      r.next == s.(pinInput := "") && r.alert == Some(InvalidMasterCode)
    // not halted, correct PIN: unlocked, counter reset, halt flag untouched
    ensures !s.isSystemHalted && s.pinInput == SecretPin ==>
      && !r.next.isLocked && r.next.failedAttempts == 0
      && r.next.isSystemHalted == s.isSystemHalted && r.next.storage == s.storage
      && r.alert == None
    // not halted, wrong PIN: one more failure; halted and persisted exactly
    // when the count reaches the limit, otherwise the remaining tries are shown
    ensures !s.isSystemHalted && s.pinInput != SecretPin ==>
      && r.next.failedAttempts == s.failedAttempts + 1
      && r.next.isLocked == s.isLocked
      && (r.next.isSystemHalted <==> r.next.failedAttempts >= MaxAttempts)
      && (r.next.isSystemHalted ==> r.next.storage == s.storage[HaltKey := "true"] && r.alert == None)
      && (!r.next.isSystemHalted ==>
            r.next.storage == s.storage
            && r.alert == Some(IncorrectPin(MaxAttempts - r.next.failedAttempts)))
  {
    if s.isSystemHalted then
      if s.pinInput == MasterResetCode then
        Outcome(s.(isSystemHalted := false, failedAttempts := 0, storage := s.storage - {HaltKey}, pinInput := ""),
                Some(ResetSuccessful))
      else
        Outcome(s.(pinInput := ""), Some(InvalidMasterCode))
    else if s.pinInput == SecretPin then
      Outcome(s.(isLocked := false, failedAttempts := 0, pinInput := ""), None)
    else
      var attempts := s.failedAttempts + 1;
      if attempts >= MaxAttempts then
        Outcome(s.(failedAttempts := attempts, pinInput := "", isSystemHalted := true,
                   storage := s.storage[HaltKey := "true"]), None)
      else
        Outcome(s.(failedAttempts := attempts, pinInput := ""), Some(IncorrectPin(MaxAttempts - attempts)))
  }

  /** The user-triggered lock. */
  function Lock(s: Session): (t: Session)
    ensures t.isLocked
    ensures Invariant(s) ==> Invariant(t)
  {
    s.(isLocked := true)
  }

  /** What the user can do on the screens: type into the PIN field, submit
      the PIN form, press the lock button. */
  datatype Event = Type(text: string) | SubmitPin | LockButton

  /** One event. The PIN form is rendered only while the screen is locked,
      so a submission while unlocked cannot happen and changes nothing. */
  function Apply(s: Session, e: Event): (r: Session)
    ensures Invariant(s) ==> Invariant(r)
    // only the operational PIN opens the screen, and never while halted
    ensures s.isLocked && !r.isLocked ==>
      e.SubmitPin? && s.pinInput == SecretPin && !s.isSystemHalted
    // only the master code leaves a halt
    ensures s.isSystemHalted && !r.isSystemHalted ==>
      e.SubmitPin? && s.pinInput == MasterResetCode
    // a submission while unlocked changes nothing
    ensures e.SubmitPin? && !s.isLocked ==> r == s
  {
    match e
    case Type(text) => s.(pinInput := text)
    case SubmitPin => if s.isLocked then Submit(s).next else s
    case LockButton => Lock(s)
  }

  function Run(s: Session, events: seq<Event>): Session
    decreases |events|
  {
    if events == [] then s else Run(Apply(s, events[0]), events[1..])
  }

  /** The invariant holds across any sequence of typing, submissions and locks. */
  lemma {:induction false} RunKeepsInvariant(s: Session, events: seq<Event>)
    requires Invariant(s)
    ensures Invariant(Run(s, events))
    decreases |events|
  {
    if events != [] {
      RunKeepsInvariant(Apply(s, events[0]), events[1..]);
    }
  }

  /** After any use of the screens, a reload comes back halted exactly when
      the screen was halted. */
  lemma RestartRestoresHalt(storage: map<string, string>, events: seq<Event>)
    ensures Startup(Run(Startup(storage), events).storage).isSystemHalted
         == Run(Startup(storage), events).isSystemHalted
  {
    RunKeepsInvariant(Startup(storage), events);
  }

  /** Typing each code in turn into the PIN field and submitting it. */
  function EnterAll(s: Session, codes: seq<string>): Session
    decreases |codes|
  {
    if codes == [] then s else EnterAll(Apply(Apply(s, Type(codes[0])), SubmitPin), codes[1..])
  }

  /** None of the codes is the operational PIN. */
  predicate NoPin(codes: seq<string>)
  {
    forall i :: 0 <= i < |codes| ==> codes[i] != SecretPin
  }

  /** None of the codes from position `from` on is the master code. */
  predicate NoMasterFrom(codes: seq<string>, from: int)
  {
    forall i :: 0 <= i < |codes| && from <= i ==> codes[i] != MasterResetCode
  }

  /** While halted, codes other than the master code, the operational PIN
      included, change nothing but the typed input. */
  lemma {:induction false} HaltedIgnoresCodes(s: Session, codes: seq<string>)
    requires s.isSystemHalted && s.isLocked && NoMasterFrom(codes, 0)
    ensures EnterAll(s, codes) == if codes == [] then s else s.(pinInput := "")
    decreases |codes|
  {
    if |codes| > 1 {
      HaltedIgnoresCodes(s.(pinInput := ""), codes[1..]);
    }
  }

  /** Consecutive wrong PINs: the screen halts exactly when the failures
      reach the limit, and not before; the counter stops at the limit. The
      master code counts as a wrong PIN until the halt; after it, only the
      master code would change anything. */
  lemma {:induction false} ConsecutiveFailures(s: Session, codes: seq<string>)
    requires Invariant(s) && s.isLocked && !s.isSystemHalted
    requires NoPin(codes) && NoMasterFrom(codes, MaxAttempts - s.failedAttempts)
    ensures EnterAll(s, codes).isLocked
    ensures EnterAll(s, codes).isSystemHalted <==> s.failedAttempts + |codes| >= MaxAttempts
    ensures EnterAll(s, codes).failedAttempts
         == if s.failedAttempts + |codes| >= MaxAttempts then MaxAttempts else s.failedAttempts + |codes|
    decreases |codes|
  {
    if codes != [] {
      var t := Apply(Apply(s, Type(codes[0])), SubmitPin);
      if t.isSystemHalted {
        HaltedIgnoresCodes(t, codes[1..]);
      } else {
        ConsecutiveFailures(t, codes[1..]);
      }
    }
  }

  /** From a fresh start with no stored halt, four wrong PINs leave the
      screen usable and the fifth halts it. */
  lemma FifthFailureHalts(storage: map<string, string>, codes: seq<string>)
    requires !StoredHalt(storage) && NoPin(codes) && NoMasterFrom(codes, MaxAttempts)
    ensures |codes| < MaxAttempts ==> !EnterAll(Startup(storage), codes).isSystemHalted
    ensures |codes| >= MaxAttempts ==>
      EnterAll(Startup(storage), codes).isSystemHalted
      && StoredHalt(EnterAll(Startup(storage), codes).storage)
  {
    ConsecutiveFailures(Startup(storage), codes);
    EnterAllKeepsInvariant(Startup(storage), codes);
  }

  /** The failure counter is not persisted: after fewer than five wrong
      PINs, a reload starts counting from 0 again, so fewer than five wrong
      PINs per page load never halt, however many there are in all. */
  lemma ReloadResetsCount(storage: map<string, string>, before: seq<string>, after: seq<string>)
    requires !StoredHalt(storage) && NoPin(before) && NoPin(after)
    requires |before| < MaxAttempts && |after| < MaxAttempts
    ensures var t := EnterAll(Startup(EnterAll(Startup(storage), before).storage), after);
      !t.isSystemHalted && t.isLocked && t.failedAttempts == |after|
  {
    var s := EnterAll(Startup(storage), before);
    ConsecutiveFailures(Startup(storage), before);
    EnterAllKeepsInvariant(Startup(storage), before);
    ConsecutiveFailures(Startup(s.storage), after);
  }

  lemma {:induction false} EnterAllKeepsInvariant(s: Session, codes: seq<string>)
    requires Invariant(s)
    ensures Invariant(EnterAll(s, codes))
    decreases |codes|
  {
    if codes != [] {
      EnterAllKeepsInvariant(Apply(Apply(s, Type(codes[0])), SubmitPin), codes[1..]);
    }
  }

  /** Leaving a halt takes the master code and then the operational PIN. */
  lemma MasterThenPinUnlocks(s: Session)
    requires Invariant(s) && s.isSystemHalted
    ensures !EnterAll(s, [MasterResetCode]).isSystemHalted
    ensures EnterAll(s, [MasterResetCode]).isLocked
    ensures var t := EnterAll(s, [MasterResetCode, SecretPin]);
      !t.isLocked && !t.isSystemHalted && t.failedAttempts == 0 && !StoredHalt(t.storage)
  {
    var reset := Apply(Apply(s, Type(MasterResetCode)), SubmitPin);
    assert EnterAll(s, [MasterResetCode]) == EnterAll(reset, []) == reset;
    assert [MasterResetCode, SecretPin][1..] == [SecretPin];
    var open := Apply(Apply(reset, Type(SecretPin)), SubmitPin);
    assert EnterAll(reset, [SecretPin]) == EnterAll(open, []) == open;
  }

  /** The lock screen as the component holds it: its four state variables
      and the device's local storage. */
  class LockScreen {
    var isLocked: bool
    var pinInput: string
    var failedAttempts: int
    var isSystemHalted: bool
    var storage: map<string, string>

    function State(): Session
      reads this
    {
      Session(isLocked, pinInput, failedAttempts, isSystemHalted, storage)
    }

    predicate Valid()
      reads this
    {
      Invariant(State())
    }

    /** The initial state, then the start-up effect that restores the halt flag. */
    constructor (stored: map<string, string>)
      ensures State() == Startup(stored)
      ensures Valid()
    {
      isLocked := true;
      pinInput := "";
      failedAttempts := 0;
      isSystemHalted := false;
      storage := stored;
      new;
      var halted := if HaltKey in storage then Some(storage[HaltKey]) else None;
      if halted == Some("true") {
        isSystemHalted := true;
      }
    }

    /** The PIN field's change handler. */
    method TypePin(text: string)
      requires Valid()
      modifies this`pinInput
      ensures Valid()
      ensures State() == old(State()).(pinInput := text)
    {
      pinInput := text;
    }

    /** `handlePinSubmit`, reachable only from the lock screen. */
    method SubmitPin() returns (alert: Option<Alert>)
      requires Valid() && isLocked
      modifies this
      ensures Valid()
      ensures Outcome(State(), alert) == Submit(old(State()))
    {
      if isSystemHalted {
        if pinInput == MasterResetCode {
          isSystemHalted := false;
          failedAttempts := 0;
          storage := storage - {HaltKey};
          alert := Some(ResetSuccessful);
          pinInput := "";
        } else {
          alert := Some(InvalidMasterCode);
          pinInput := "";
        }
        return;
      }

      if pinInput == SecretPin {
        isLocked := false;
        failedAttempts := 0;
        pinInput := "";
        alert := None;
      } else {
        var newAttempts := failedAttempts + 1;
        failedAttempts := newAttempts;
        pinInput := "";
        if newAttempts >= MaxAttempts {
          isSystemHalted := true;
          storage := storage[HaltKey := "true"];
          alert := None;
        } else {
          alert := Some(IncorrectPin(MaxAttempts - newAttempts));
        }
      }
    }

    /** The header's lock button. */
    method LockNow()
      requires Valid()
      modifies this`isLocked
      ensures Valid()
      ensures State() == Lock(old(State()))
    {
      isLocked := true;
    }
  }
}
