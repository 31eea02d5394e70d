// The passcode gate in front of a container (modules/auth/components/
// PasscodeGuard.tsx): a code of at least four characters is looked up,
// upper-cased, among the active containers; a miss on the code `PUBLIC`
// opens the public container instead.
//
// The `containers` table is an input. Whether the lookup returns an error,
// or throws, is an input as well. `onSuccess` calls are recorded in
// `unlockedWith`.

module PasscodeGuard {
  import opened Common

  datatype Container = Container(id: string, passcode: string, isActive: bool, isPublic: bool)

  const PublicContainerId := "00000000-0000-0000-0000-000000000000"
  const TooShortMessage := "Passcode must be at least 4 characters"
  const InvalidMessage := "Invalid passcode. Please try again or browse the public gallery."
  const ErrorMessage := "An error occurred. Please try again."
  const MaxInputLength := 20

  /** `.eq('passcode', code).eq('is_active', true)`. */
  function ActiveWithCode(containers: seq<Container>, code: string): (r: seq<Container>)
    ensures forall c :: c in r <==> c in containers && c.passcode == code && c.isActive
    ensures IsFilter(r, containers, (c: Container) => c.passcode == code && c.isActive)
  {
    if |containers| == 0 then []
    else
      var rest := ActiveWithCode(containers[1..], code);
      FilterCons((c: Container) => c.passcode == code && c.isActive, containers, rest);
      assert forall c :: c in containers <==> c == containers[0] || c in containers[1..];
      if containers[0].passcode == code && containers[0].isActive then [containers[0]] + rest else rest
  }

  /** `.single()`: the container when exactly one row matches. */
  function Lookup(containers: seq<Container>, code: string, lookupFails: bool): (r: Option<Container>)
    ensures r.Some? ==> r.value in containers && r.value.passcode == code && r.value.isActive
    ensures r.Some? <==> !lookupFails && |ActiveWithCode(containers, code)| == 1
  {
    var rows := ActiveWithCode(containers, code);
    if !lookupFails && |rows| == 1 then
      assert rows[0] in rows;
      Some(rows[0])
    else None
  }

  class PasscodeGuardState {
    var passcode: string
    var isLoading: bool
    var error: Option<string>
    var isUnlocked: bool
    /** The container ids passed to `onSuccess`, in order. */
    var unlockedWith: seq<string>

    constructor (initialPasscode: Option<string>)
      ensures passcode == (if initialPasscode.Some? then initialPasscode.value else "")
      ensures !isLoading && error.None? && !isUnlocked && unlockedWith == []
    {
      passcode := if initialPasscode.Some? then initialPasscode.value else "";
      isLoading := false;
      error := None;
      isUnlocked := false;
      unlockedWith := [];
    }

    /** The input's change handler: at most twenty typed characters, upper-cased; the error clears. */
    method Type(value: string)
      modifies this
      ensures passcode == Upper(value[..Min(MaxInputLength, |value|)])
      ensures |passcode| <= MaxInputLength
      ensures error.None?
      ensures isLoading == old(isLoading) && isUnlocked == old(isUnlocked) && unlockedWith == old(unlockedWith)
    {
      passcode := Upper(value[..Min(MaxInputLength, |value|)]);
      error := None;
    }

    /**
     * `handleSubmit`: a code under four characters is refused without a
     * lookup. A found container unlocks with its id; a miss on `PUBLIC`
     * unlocks the public container; any other miss, or a thrown lookup,
     * shows an error and ends loading. After an unlock, loading stays on.
     */
    method HandleSubmit(containers: seq<Container>, lookupFails: bool, lookupThrows: bool)
      modifies this
      ensures passcode == old(passcode)
      ensures |passcode| < 4 ==>
        error == Some(TooShortMessage) && isLoading == old(isLoading) && isUnlocked == old(isUnlocked)
        && unlockedWith == old(unlockedWith)
      ensures |passcode| >= 4 && lookupThrows ==>
        error == Some(ErrorMessage) && !isLoading && isUnlocked == old(isUnlocked) && unlockedWith == old(unlockedWith)
      ensures |passcode| >= 4 && !lookupThrows ==>
        var found := Lookup(containers, Upper(passcode), lookupFails);
        if found.Some? then
          isUnlocked && isLoading && error.None? && unlockedWith == old(unlockedWith) + [found.value.id]
        else if Upper(passcode) == "PUBLIC" then
          isUnlocked && isLoading && error.None? && unlockedWith == old(unlockedWith) + [PublicContainerId]
        else
          error == Some(InvalidMessage) && !isLoading && isUnlocked == old(isUnlocked) && unlockedWith == old(unlockedWith)
    {
      if |passcode| < 4 {
        error := Some(TooShortMessage);
        return;
      }
      isLoading := true;
      error := None;
      if lookupThrows {
        error := Some(ErrorMessage);
        isLoading := false;
        return;
      }
      var found := Lookup(containers, Upper(passcode), lookupFails);
      if found.None? {
        if Upper(passcode) == "PUBLIC" {
          isUnlocked := true;
          unlockedWith := unlockedWith + [PublicContainerId];
          return;
        }
        error := Some(InvalidMessage);
        isLoading := false;
        return;
      }
      isUnlocked := true;
      unlockedWith := unlockedWith + [found.value.id];
    }

    /**
     * The mount effect: an initial code of four or more characters is
     * submitted once, with the outcome `handleSubmit` gives that code.
     */
    method AutoSubmit(initialPasscode: Option<string>, containers: seq<Container>, lookupFails: bool, lookupThrows: bool)
      modifies this
      ensures !(initialPasscode.Some? && initialPasscode.value != "" && !old(isUnlocked) && !old(isLoading)
                && |old(passcode)| >= 4) ==>
        passcode == old(passcode) && isLoading == old(isLoading) && error == old(error)
        && isUnlocked == old(isUnlocked) && unlockedWith == old(unlockedWith)
      ensures initialPasscode.Some? && initialPasscode.value != "" && !old(isUnlocked) && !old(isLoading)
              && |old(passcode)| >= 4 ==>
        && passcode == old(passcode)
        && (lookupThrows ==> error == Some(ErrorMessage) && !isLoading && !isUnlocked && unlockedWith == old(unlockedWith))
        && (!lookupThrows ==>
          var found := Lookup(containers, Upper(passcode), lookupFails);
          if found.Some? then
            isUnlocked && isLoading && error.None? && unlockedWith == old(unlockedWith) + [found.value.id]
          else if Upper(passcode) == "PUBLIC" then
            isUnlocked && isLoading && error.None? && unlockedWith == old(unlockedWith) + [PublicContainerId]
          else
            error == Some(InvalidMessage) && !isLoading && !isUnlocked && unlockedWith == old(unlockedWith))
      ensures |unlockedWith| <= |old(unlockedWith)| + 1
    {
      if initialPasscode.Some? && initialPasscode.value != "" && !isUnlocked && !isLoading && |passcode| >= 4 {
        HandleSubmit(containers, lookupFails, lookupThrows);
      }
    }
  }

  /** A code shorter than four characters can never unlock, whatever the table holds. */
  method ShortCodeNeverUnlocks(code: string, containers: seq<Container>, lookupFails: bool, lookupThrows: bool)
    returns (unlocked: bool)
    requires |code| < 4
    ensures !unlocked
  {
    var guard := new PasscodeGuardState(Some(code));
    guard.HandleSubmit(containers, lookupFails, lookupThrows);
    unlocked := guard.isUnlocked;
  }

  /** `public`, typed in any case, opens the public container when no container claims it. */
  method PublicFallback(containers: seq<Container>) returns (ids: seq<string>)
    requires |ActiveWithCode(containers, "PUBLIC")| == 0
    ensures ids == [PublicContainerId]
  {
    var guard := new PasscodeGuardState(None);
    guard.Type("public");
    UpperPublic();
    assert "public"[..Min(MaxInputLength, 6)] == "public";
    assert Lookup(containers, "PUBLIC", false).None?;
    guard.HandleSubmit(containers, false, false);
    ids := guard.unlockedWith;
  }

  /** Upper-casing `public`, and upper-casing again, gives `PUBLIC`. */
  lemma UpperPublic()
    ensures Upper("public") == "PUBLIC" && Upper("PUBLIC") == "PUBLIC"
  {
    var u := Upper("public");
    assert u == [UpperChar('p'), UpperChar('u'), UpperChar('b'), UpperChar('l'), UpperChar('i'), UpperChar('c')];
    var v := Upper("PUBLIC");
    assert v == [UpperChar('P'), UpperChar('U'), UpperChar('B'), UpperChar('L'), UpperChar('I'), UpperChar('C')];
  }
}
