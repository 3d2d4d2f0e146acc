/** The passcode gate of the page: five pieces of component state and the
    three handlers that change them. Each handler runs to completion as one
    step; `handleSubmit` is split at its `await` into BeginSubmit (before the
    verifier is called) and Settle (after it has answered), because the key
    pad stays usable while the verifier is pending. */
module Gate {
  import opened Keypad

  datatype Option<T> = None | Some(value: T)

  datatype Status = Locked | Unlocked

  /** How the external verifier answered: a truthy result whose `data` field
      is the configuration (None when that field is null or missing), a falsy
      result, or a thrown error. */
  datatype Outcome<Config> = Truthy(data: Option<Config>) | Falsy | Throws

  /** The message shown when the verifier throws ("an error occurred"). */
  const FailureText: string := "\U{0E40}\U{0E01}\U{0E34}\U{0E14}\U{0E02}\U{0E49}\U{0E2D}\U{0E1C}\U{0E34}\U{0E14}\U{0E1E}\U{0E25}\U{0E32}\U{0E14}"

  class PasscodeGate<Config> {
    var status: Status
    var configData: Option<Config>
    var inputValue: string
    var isLoading: bool
    var errorMsg: string

    /** What every reachable state satisfies: the code is at most MaxLength
        digits; the only error text is FailureText; nothing is stored before
        the unlock; a pending verification happens on the locked page and
        with no error shown. */
    ghost predicate Valid()
      reads this
    {
      && |inputValue| <= MaxLength
      && IsDigits(inputValue)
      && (errorMsg == "" || errorMsg == FailureText)
      && (status == Locked ==> configData == None)
      && (isLoading ==> status == Locked && errorMsg == "")
    }

    /** The initial `useState` values. */
    constructor ()
      ensures Valid()
      ensures status == Locked && configData == None
      ensures inputValue == "" && !isLoading && errorMsg == ""
    {
      status := Locked;
      configData := None;
      inputValue := "";
      isLoading := false;
      errorMsg := "";
    }

    /** `handleNumClick`: appends the digit and clears the error only while the
        code is shorter than MaxLength; on a full code nothing changes, so a
        shown error stays. */
    method NumClick(num: int)
      requires Valid() && IsKey(num)
      modifies this
      ensures Valid()
      ensures inputValue == Appended(old(inputValue), num)
      ensures |old(inputValue)| < MaxLength ==> inputValue == old(inputValue) + [DigitChar(num)] && errorMsg == ""
      ensures |old(inputValue)| >= MaxLength ==> inputValue == old(inputValue) && errorMsg == old(errorMsg)
      ensures status == old(status) && configData == old(configData) && isLoading == old(isLoading)
    {
      EditsKeepCodeWellFormed(inputValue, num);
      if |inputValue| < MaxLength {
        inputValue := inputValue + [DigitChar(num)];
        errorMsg := "";
      }
    }

    /** `handleDelete`: drops the last character, if any, and always clears
        the error. */
    method Delete()
      requires Valid()
      modifies this
      ensures Valid()
      ensures inputValue == Deleted(old(inputValue))
      ensures old(inputValue) != [] ==> inputValue == old(inputValue)[..|old(inputValue)| - 1]
      ensures old(inputValue) == [] ==> inputValue == []
      ensures errorMsg == ""
      ensures status == old(status) && configData == old(configData) && isLoading == old(isLoading)
    {
      EditsKeepCodeWellFormed(inputValue, 0);
      inputValue := Slice(inputValue, 0, -1);
      errorMsg := "";
    }

    /** `handleSubmit` up to its `await`: marks the gate as loading, clears the
        error and hands the current code, possibly empty, to the verifier. The
        enter button is only on the locked page and is disabled while
        loading. */
    method BeginSubmit() returns (code: string)
      requires Valid() && status == Locked && !isLoading
      modifies this
      ensures Valid()
      ensures code == inputValue
      ensures isLoading && errorMsg == ""
      ensures status == old(status) && configData == old(configData) && inputValue == old(inputValue)
    {
      isLoading := true;
      errorMsg := "";
      code := inputValue;
    }

    /** `handleSubmit` after its `await`: a truthy result unlocks the page and
        stores its data, a falsy one changes nothing, a thrown error shows
        FailureText; loading ends on every path. The code is never cleared. */
    method Settle(outcome: Outcome<Config>)
      requires Valid() && isLoading
      modifies this
      ensures Valid()
      ensures !isLoading
      ensures inputValue == old(inputValue)
      ensures outcome.Truthy? ==> status == Unlocked && configData == outcome.data && errorMsg == ""
      ensures outcome.Falsy? ==> status == Locked && configData == None && errorMsg == ""
      ensures outcome.Throws? ==> status == Locked && configData == None && errorMsg == FailureText
    {
      match outcome {
        case Truthy(data) =>
          configData := data;
          status := Unlocked;
        case Falsy =>
        case Throws =>
          errorMsg := FailureText;
      }
      isLoading := false;
    }

    /** `handleSubmit` with the verifier answering at once. The code sent is
        the code on screen; only a truthy result leaves the locked state. */
    method Submit(outcome: Outcome<Config>) returns (code: string)
      requires Valid() && status == Locked && !isLoading
      modifies this
      ensures Valid()
      ensures code == old(inputValue) && inputValue == old(inputValue)
      ensures !isLoading
      ensures (status == Unlocked) <==> outcome.Truthy?
      ensures outcome.Truthy? ==> configData == outcome.data && errorMsg == ""
      ensures !outcome.Truthy? ==> configData == None
      ensures outcome.Falsy? ==> errorMsg == ""
      ensures outcome.Throws? ==> errorMsg == FailureText
    {
      code := BeginSubmit();
      Settle(outcome);
    }

    /** The keypad screen is rendered while the page is locked. */
    predicate ShowsKeypad()
      reads this
    {
      status == Locked
    }

    /** The unlocked screen is rendered only when a configuration is stored. */
    predicate ShowsApp()
      reads this
    {
      status == Unlocked && configData.Some?
    }

    /** The indicator dots of the keypad display for the current code. */
    function Indicator(): (dots: seq<bool>)
      reads this
      requires Valid()
      ensures FilledCount(dots) == |inputValue|
    {
      FilledDotsMatchLength(inputValue);
      Dots(inputValue)
    }
  }

  /** A truthy verifier result whose `data` is null or missing unlocks the
      page without a configuration, so neither screen is rendered. No handler
      sets the status back to locked, and the enter button is gone, so the
      page stays blank. */
  method NullDataLeavesBlankPage<Config>() returns (g: PasscodeGate<Config>)
    ensures g.Valid()
    ensures g.status == Unlocked && g.configData == None
    ensures !g.ShowsKeypad() && !g.ShowsApp()
  {
    g := new PasscodeGate<Config>();
    var code := g.Submit(Truthy(None));
  }
}
