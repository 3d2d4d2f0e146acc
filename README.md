# Passcode gate of the greeting-card page

This project models the passcode gate that guards the greeting-card page
(`app/page.tsx`). The gate holds five pieces of component state: the lock
status, the unlocked configuration, the typed code, a loading flag and an
error message. Three handlers change that state:

- the numeric keys append one digit to a code of at most six characters;
- the delete key drops the last character;
- the enter key sends the code to an external verifier and unlocks the page
  when the verifier answers with a truthy result.

A row of six dots shows how many characters have been typed.

The model is written in two modules:

- `Keypad` (`keypad.dfy`) holds the value-level rules. `Appended` and
  `Deleted` say what a key press does to the code, and `Slice` models
  JavaScript's `String.prototype.slice` on integer bounds, negative bounds
  included, counting characters (the code holds only ASCII digits). `Typed`
  folds a sequence of key presses, and `Dots` gives the indicator. The
  lemmas about them are here.
- `Gate` (`gate.dfy`) holds the class `PasscodeGate`, whose fields are the
  five `useState` variables. Its methods are the handlers. `Valid()` is the
  invariant that every handler keeps:
  - the code has at most six digits;
  - the error text is empty or the fixed failure text;
  - no configuration is stored while locked;
  - a pending verification happens only on the locked page, with no error
    shown.

`handleSubmit` is cut at its `await` into `BeginSubmit` and `Settle`. The
keypad buttons are not disabled while the verifier is pending, so a caller
can interleave `NumClick` and `Delete` between the two steps. `Submit` is
the two steps run back to back. The verifier is not modelled. Its answer is
an `Outcome` parameter of `Settle` and `Submit`: `Truthy(data)`, `Falsy` or
`Throws`.

Some behaviours of the code that the model follows:

- A successful unlock does not clear the typed code (`app/page.tsx:43-46`).
- The status is only locked or unlocked. A pending verification is shown by
  the `isLoading` flag alone.
- A truthy result whose `data` field is null or missing still unlocks, and it
  stores no configuration. `Truthy(None)` models this case. The locked screen
  needs the locked status (`app/page.tsx:60`) and the unlocked screen needs a
  configuration (`app/page.tsx:168`), so the page then renders neither, and no
  handler ever sets the status back to locked. Whether the verifier can
  answer this way is not known from this code.
- Pressing a key on a full code does not clear a shown error, because the
  code clears the error inside the length check (`app/page.tsx:22-25`).

## Model

| member | source | states |
|---|---|---|
| `Gate.PasscodeGate.constructor` | app/page.tsx:13-18 | The initial state is locked, with no configuration, an empty code, loading off and no error. It satisfies the gate invariant. |
| `Gate.PasscodeGate.NumClick` | app/page.tsx:21-26 | Below six characters the code becomes the old code plus the digit, and the error is cleared. On a full code, the code and the error (possibly a stale one) stay as they were. Status, configuration and loading never change, and the invariant (at most six digits) is kept. |
| `Gate.PasscodeGate.Delete` | app/page.tsx:29-32 | The code loses exactly its last character, and an empty code stays empty. The error is always cleared. Nothing else changes. |
| `Gate.PasscodeGate.BeginSubmit` | app/page.tsx:35-41 | Loading is set and the error is cleared. The code handed to the verifier is the current code, which may be empty. Status, configuration and code are unchanged. |
| `Gate.PasscodeGate.Settle` | app/page.tsx:41-52 | Truthy: unlocked, and the configuration is the result's data. Falsy: still locked, with no configuration and no error. Throws: still locked, with the fixed failure text. Loading is off on every path, and the code is never cleared. |
| `Gate.PasscodeGate.Submit` | app/page.tsx:35-53 | The code sent is the code on screen. The page is unlocked afterwards iff the outcome is truthy. The configuration and error follow the outcome as in Settle. Loading ends false and the code is unchanged. |
| `Gate.PasscodeGate.Indicator` | app/page.tsx:102-106 | The number of filled dots on the display equals the length of the current code. |
| `Gate.NullDataLeavesBlankPage` | app/page.tsx:43-46 | From the initial state, a truthy result with null data leaves the page unlocked with no configuration, so neither the keypad (line 60) nor the unlocked screen (line 168) is rendered. |
| `Keypad.DigitChar` | app/page.tsx:23 | The character appended for key `d` is a decimal digit whose value is `d`. |
| `Keypad.DigitsText` | app/page.tsx:23 | The text of a key sequence has one digit character per key, in order. |
| `Keypad.SliceSplit` | app/page.tsx:30 | For any cut point `k` in the string, `slice(0, k)` followed by `slice(k, len)` gives the string back. |
| `Keypad.SliceFromEnd` | app/page.tsx:30 | `slice(0, -j)` with `j > 0` drops the last `j` characters, or all of them when the string is shorter. `slice(0, 0)` is empty. |
| `Keypad.Appended` | app/page.tsx:21-26 | Below six characters, one character is added, the old code is kept as a prefix, and the new last character is the digit. At six or more, the code is unchanged. |
| `Keypad.Deleted` | app/page.tsx:29-31 | `slice(0, -1)` removes exactly the last character of a non-empty code and leaves an empty code empty. |
| `Keypad.DeleteUndoesAppend` | app/page.tsx:21-31 | Appending a digit to a code shorter than six and then deleting gives back the original code. |
| `Keypad.EditsKeepCodeWellFormed` | app/page.tsx:21-31 | Appending and deleting both keep the code at most six characters long and made only of digits. |
| `Keypad.TypedKeepsPrefix` | app/page.tsx:21-26 | Any sequence of key presses leaves the first `min(len + N, 6)` characters of old code followed by typed digits. Presses on a full code are dropped. |
| `Keypad.TypedFromEmpty` | app/page.tsx:21-26 | From an empty code, N key presses leave exactly `min(N, 6)` characters: the first keys pressed, in order. |
| `Keypad.Dots` | app/page.tsx:102-106 | There are six dots, and dot `i` is filled iff `i` is less than the code's length. |
| `Keypad.FilledPrefixCount` | app/page.tsx:102-106 | A row of dots filled from the left up to `k` has `min(k, row length)` filled dots. |
| `Keypad.FilledDotsMatchLength` | app/page.tsx:102-106 | The indicator shows `min(length, 6)` filled dots. |

No handler ever sets the status back to locked once it is unlocked.
`NumClick`, `Delete` and `BeginSubmit` leave the status unchanged. `Settle`
requires a pending verification, and the invariant places that on the locked
page, so the only transition it makes is from locked to unlocked.

## Left out

- `verifyAndGetConfig` (`./action`) is not part of this model. Its answer is the `Outcome` parameter, and how codes are checked is not modelled.
- A pending `await` is modelled as the gap between `BeginSubmit` and `Settle`. React's batching of state updates and its render scheduling are not modelled.
- The UI guards are preconditions. The enter button is disabled while loading and is only rendered on the locked page (`app/page.tsx:60`, `app/page.tsx:155`), so `BeginSubmit` and `Submit` require a locked page with loading off.
- `Gate.PasscodeGate.NumClick`: it requires a key value from 0 to 9, the only values its callers pass (`app/page.tsx:118`, `app/page.tsx:144`). A multi-digit number would append several characters, and that case is not modelled.
- The conditional rendering is presentation. Which screen shows (`app/page.tsx:60`, `app/page.tsx:168`) is kept only as the two conditions `ShowsKeypad` and `ShowsApp`. The error paragraph, the delete button's visibility (`app/page.tsx:131`), the animations, styles and icons are not modelled.
- `console.error` (`app/page.tsx:48`) is logging output.
- `ValentineApp` and its stage sequencer (`@/component/valentine`) are not part of this model. `app/layout.tsx` holds only fonts, metadata and the HTML shell.
