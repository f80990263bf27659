/** The PIN lock: a failed-attempt counter with a timed lockout, the stored PIN hash,
    and the `pinLockEnabled` / `isPinLocked` flags kept by the application store.
    Times are milliseconds supplied by the caller. */
module Pin {
  import opened Types
  import opened AppStore

  const MaxAttempts: int := 3
  /** Five minutes, in milliseconds. */
  const LockoutDuration: int := 5 * 60 * 1000

  /** The PIN "hash" is a reversible text encoding (base64) together with its decoding.
      The model relies only on decoding undoing encoding, which makes the encoding
      injective, and on the encoding mapping exactly the empty string to the empty string. */
  datatype PinCodec = PinCodec(encode: string -> string, decode: string -> string)

  type PinEncoder = c: PinCodec
    | (forall s :: c.decode(c.encode(s)) == s) && (forall s :: c.encode(s) == "" <==> s == "")
    witness PinCodec(s => s, s => s)

  // ---------------------------------------------------------------------------
  // The attempt state and its reducer

  /** `lockoutTime` is the deadline of the current lockout, or none. */
  datatype PinState = PinState(pinAttempts: int, lockoutTime: Option<int>)

  const InitialPinState: PinState := PinState(0, None)

  datatype PinAction =
    | SetAttempts(attempts: int)
    | SetLockoutTime(deadline: Option<int>)
    | ResetSecurity

  /** Each action replaces the field it names; the reset restores the initial state. */
  function PinReducer(state: PinState, action: PinAction): (r: PinState)
    ensures action.SetAttempts? ==> r.pinAttempts == action.attempts && r.lockoutTime == state.lockoutTime
    ensures action.SetLockoutTime? ==> r.lockoutTime == action.deadline && r.pinAttempts == state.pinAttempts
    ensures action.ResetSecurity? ==> r == InitialPinState
  {
    match action
    case SetAttempts(attempts) => state.(pinAttempts := attempts)
    case SetLockoutTime(deadline) => state.(lockoutTime := deadline)
    case ResetSecurity => PinState(0, None)
  }

  /** Setting the counter twice keeps only the later value. */
  lemma SetAttemptsLastWins(state: PinState, a: int, b: int)
    ensures PinReducer(PinReducer(state, SetAttempts(a)), SetAttempts(b)) == PinReducer(state, SetAttempts(b))
  {
  }

  /** The counter and the deadline are independent: their updates commute. */
  lemma SetAttemptsAndLockoutCommute(state: PinState, a: int, d: Option<int>)
    ensures PinReducer(PinReducer(state, SetAttempts(a)), SetLockoutTime(d)) ==
      PinReducer(PinReducer(state, SetLockoutTime(d)), SetAttempts(a))
  {
  }

  // ---------------------------------------------------------------------------
  // Lockout queries

  /** The deadline read as a JavaScript truth value: present and not zero. */
  predicate LockoutArmed(state: PinState)
  {
    state.lockoutTime.Some? && state.lockoutTime.value != 0
  }

  /** The guard that refuses verification outright. */
  predicate RefusesDuringLockout(state: PinState, now: int)
  {
    LockoutArmed(state) && now < state.lockoutTime.value
  }

  /** The `isLockedOut` flag the hook exposes; it compares against null, not truthiness. */
  function IsLockedOut(state: PinState, now: int): (locked: bool)
    ensures state.lockoutTime.None? ==> !locked
    ensures LockoutArmed(state) ==> (locked <==> RemainingLockoutTime(state, now) > 0)
  {
    state.lockoutTime.Some? && now < state.lockoutTime.value
  }

  function RemainingLockoutTime(state: PinState, now: int): (r: int)
    ensures r >= 0
    ensures !LockoutArmed(state) ==> r == 0
    ensures LockoutArmed(state) && now < state.lockoutTime.value ==> now + r == state.lockoutTime.value
    ensures LockoutArmed(state) && now >= state.lockoutTime.value ==> r == 0
  {
    if !LockoutArmed(state) then 0
    else if state.lockoutTime.value - now > 0 then state.lockoutTime.value - now
    else 0
  }

  /** For a non-zero deadline the flag the hook exposes and the guard that refuses
      verification agree. */
  lemma LockedOutIffRefuses(state: PinState, now: int)
    requires state.lockoutTime.Some? && state.lockoutTime.value != 0
    ensures IsLockedOut(state, now) <==> RefusesDuringLockout(state, now)
  {
  }

  /** A lockout started at `t` leaves at most the full duration, and nothing once it
      has run out. */
  lemma RemainingWithinDuration(state: PinState, t: int, now: int)
    requires t >= 0 && state.lockoutTime == Some(t + LockoutDuration)
    requires now >= t
    ensures RemainingLockoutTime(state, now) <= LockoutDuration
    ensures RemainingLockoutTime(state, now) == 0 <==> now >= t + LockoutDuration
  {
  }

  // ---------------------------------------------------------------------------
  // Verification

  /** What one verification attempt answers and the attempt state it leaves. */
  datatype Verification = Verification(accepted: bool, state: PinState)

  /** One verification attempt against the stored hash, as a value. */
  function VerifyStep(state: PinState, storedHash: Option<string>, hash: PinEncoder, pin: string, now: int): (v: Verification)
    ensures v.accepted <==>
      !RefusesDuringLockout(state, now) && pin != "" && storedHash == Some(hash.encode(pin))
    ensures v.accepted ==> v.state == InitialPinState
    ensures RefusesDuringLockout(state, now) ==> v.state == state
    ensures storedHash.None? ==> v.state == state
  {
    if RefusesDuringLockout(state, now) then Verification(false, state)
    else if storedHash.None? || storedHash.value == "" then Verification(false, state)
    else if hash.encode(pin) == storedHash.value then Verification(true, PinReducer(state, ResetSecurity))
    else
      var newAttempts := state.pinAttempts + 1;
      var counted := PinReducer(state, SetAttempts(newAttempts));
      if newAttempts >= MaxAttempts then
        Verification(false, PinReducer(counted, SetLockoutTime(Some(now + LockoutDuration))))
      else
        Verification(false, counted)
  }

  /** Only the PIN whose hash is stored is ever accepted. */
  lemma OnlyStoredPinAccepted(state: PinState, hash: PinEncoder, stored: string, pin: string, now: int)
    requires VerifyStep(state, Some(hash.encode(stored)), hash, pin, now).accepted
    ensures pin == stored
  {
  }

  /** The PIN that was stored is accepted whenever no lockout is running. */
  lemma StoredPinAccepted(state: PinState, hash: PinEncoder, pin: string, now: int)
    requires |pin| == 4
    requires !RefusesDuringLockout(state, now)
    ensures VerifyStep(state, Some(hash.encode(pin)), hash, pin, now).accepted
  {
  }

  /** A wrong PIN, outside a lockout and with a hash stored, counts exactly one more
      failure, and arms a fresh five-minute lockout once the count reaches three. */
  lemma WrongPinCounted(state: PinState, storedHash: Option<string>, hash: PinEncoder, pin: string, now: int)
    requires !RefusesDuringLockout(state, now)
    requires storedHash.Some? && storedHash.value != "" && storedHash.value != hash.encode(pin)
    ensures VerifyStep(state, storedHash, hash, pin, now).state.pinAttempts == state.pinAttempts + 1
    ensures state.pinAttempts + 1 >= MaxAttempts ==>
      VerifyStep(state, storedHash, hash, pin, now).state.lockoutTime == Some(now + LockoutDuration)
    ensures state.pinAttempts + 1 < MaxAttempts ==>
      VerifyStep(state, storedHash, hash, pin, now).state.lockoutTime == state.lockoutTime
  {
  }

  /** Three wrong PINs in a row from the initial state lock the PIN out for five minutes
      from the third, and during that time even the right PIN is refused. */
  lemma ThreeFailuresLockOut(hash: PinEncoder, stored: string, p1: string, p2: string, p3: string,
                             t1: int, t2: int, t3: int, later: int)
    requires stored != ""
    requires p1 != stored && p2 != stored && p3 != stored
    requires 0 <= t3 <= later < t3 + LockoutDuration
    ensures
      var v1 := VerifyStep(InitialPinState, Some(hash.encode(stored)), hash, p1, t1);
      var v2 := VerifyStep(v1.state, Some(hash.encode(stored)), hash, p2, t2);
      var v3 := VerifyStep(v2.state, Some(hash.encode(stored)), hash, p3, t3);
      !v1.accepted && !v2.accepted && !v3.accepted &&
      IsLockedOut(v3.state, later) &&
      !VerifyStep(v3.state, Some(hash.encode(stored)), hash, stored, later).accepted
  {
    var h := Some(hash.encode(stored));
    WrongPinCounted(InitialPinState, h, hash, p1, t1);
    var v1 := VerifyStep(InitialPinState, h, hash, p1, t1);
    assert v1.state == PinState(1, None);
    WrongPinCounted(v1.state, h, hash, p2, t2);
    var v2 := VerifyStep(v1.state, h, hash, p2, t2);
    assert v2.state == PinState(2, None);
    WrongPinCounted(v2.state, h, hash, p3, t3);
  }

  /** The counter is not reset when a lockout runs out, so after three failures every
      further wrong PIN starts a new lockout at once. */
  lemma ExpiredLockoutRelocksOnFailure(state: PinState, storedHash: Option<string>, hash: PinEncoder, pin: string, now: int)
    requires state.pinAttempts >= MaxAttempts
    requires !RefusesDuringLockout(state, now)
    requires storedHash.Some? && storedHash.value != "" && storedHash.value != hash.encode(pin)
    ensures IsLockedOut(VerifyStep(state, storedHash, hash, pin, now).state, now)
  {
    WrongPinCounted(state, storedHash, hash, pin, now);
  }

  // ---------------------------------------------------------------------------
  // PIN format and preference patches

  /** The pattern `^\d+$`: one or more ASCII digits and nothing else. */
  predicate AllDigits(pin: string)
  {
    |pin| >= 1 && forall i :: 0 <= i < |pin| ==> '0' <= pin[i] <= '9'
  }

  /** A PIN is accepted for storage when it has four characters, all digits. */
  function PinFormatOk(pin: string): (ok: bool)
    ensures ok <==> |pin| == 4 && forall i :: 0 <= i < 4 ==> '0' <= pin[i] <= '9'
  {
    !(|pin| != 4 || !AllDigits(pin))
  }

  /** `{ pinLockEnabled: true, privacyPin: pin }` */
  function EnablePinPatch(pin: string): (patch: PreferencesPatch)
    ensures forall p :: MergePreferences(p, patch) == p.(pinLockEnabled := true, privacyPin := Some(pin))
  {
    EmptyPatch.(pinLockEnabled := Some(true), privacyPin := Some(Some(pin)))
  }

  /** `{ pinLockEnabled: false, privacyPin: undefined }` */
  function DisablePinPatch(): (patch: PreferencesPatch)
    ensures forall p :: MergePreferences(p, patch) == p.(pinLockEnabled := false, privacyPin := None)
  {
    EmptyPatch.(pinLockEnabled := Some(false), privacyPin := Some(None))
  }

  // ---------------------------------------------------------------------------
  // The hook

  class PinLock {
    var pinState: PinState
    /** The browser-storage entry that holds the PIN hash. */
    var storedHash: Option<string>
    const hash: PinEncoder
    const store: Store

    constructor(store: Store, hash: PinEncoder, storedHash: Option<string>)
      ensures pinState == InitialPinState
      ensures this.storedHash == storedHash && this.hash == hash && this.store == store
    {
      pinState := InitialPinState;
      this.storedHash := storedHash;
      this.hash := hash;
      this.store := store;
    }

    /** Stores the hash of a well-formed PIN and enables the lock; a malformed PIN is
        refused and nothing changes. */
    method SetPin(pin: string) returns (ok: bool)
      modifies this`storedHash, store`preferences
      ensures ok <==> PinFormatOk(pin)
      ensures ok ==> storedHash == Some(hash.encode(pin))
      ensures ok ==> store.preferences == old(store.preferences).(pinLockEnabled := true, privacyPin := Some(pin))
      ensures !ok ==> storedHash == old(storedHash) && store.preferences == old(store.preferences)
    {
      if |pin| != 4 || !AllDigits(pin) {
        return false;
      }
      var hashedPin := hash.encode(pin);
      storedHash := Some(hashedPin);
      store.UpdatePreferences(EnablePinPatch(pin));
      return true;
    }

    /** One verification attempt at time `now`; success also unlocks the application. */
    method VerifyPin(pin: string, now: int) returns (ok: bool)
      modifies this`pinState, store`isPinLocked
      ensures Verification(ok, pinState) == VerifyStep(old(pinState), storedHash, hash, pin, now)
      ensures ok ==> !store.isPinLocked
      ensures !ok ==> store.isPinLocked == old(store.isPinLocked)
    {
      ghost var expected := VerifyStep(pinState, storedHash, hash, pin, now);
      if pinState.lockoutTime.Some? && pinState.lockoutTime.value != 0 && now < pinState.lockoutTime.value {
        assert RefusesDuringLockout(pinState, now);
        return false;
      }
      assert !RefusesDuringLockout(pinState, now);
      if storedHash.None? || storedHash.value == "" {
        assert expected == Verification(false, pinState);
        return false;
      }
      var inputHash := hash.encode(pin);
      if inputHash == storedHash.value {
        assert expected == Verification(true, InitialPinState);
        pinState := PinReducer(pinState, ResetSecurity);
        store.SetPinLocked(false);
        return true;
      }
      var newAttempts := pinState.pinAttempts + 1;
      pinState := PinReducer(pinState, SetAttempts(newAttempts));
      if newAttempts >= MaxAttempts {
        pinState := PinReducer(pinState, SetLockoutTime(Some(now + LockoutDuration)));
      }
      assert expected == Verification(false, pinState);
      return false;
    }

    /** Forgets the stored hash, disables the lock and unlocks the application. */
    method DisablePin()
      modifies this`storedHash, store`preferences, store`isPinLocked
      ensures storedHash == None
      ensures store.preferences == old(store.preferences).(pinLockEnabled := false, privacyPin := None)
      ensures !store.isPinLocked
    {
      storedHash := None;
      store.UpdatePreferences(DisablePinPatch());
      store.SetPinLocked(false);
    }
  }

  /** Once the PIN is disabled no attempt is accepted and the counter is left alone. */
  lemma DisabledPinRejectsAll(state: PinState, hash: PinEncoder, pin: string, now: int)
    ensures !VerifyStep(state, None, hash, pin, now).accepted
    ensures VerifyStep(state, None, hash, pin, now).state == state
  {
  }
}
