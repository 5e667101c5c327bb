# Password generator — a Dafny model

This project models the logic of a single-screen React Native app that makes
random passwords (`App.tsx`). The app has these parts:

- **Alphabet builder** (`generatePasswordString`). It starts from `""` and appends
  a fixed class string for each enabled checkbox, always in the order lower
  case, upper case, digits, symbols. The upper-case class is written with 25
  letters; `Z` is missing.
- **Sampler** (`createPassword`). It makes `passwordLength` passes. Each pass
  appends `charAt(Math.round(Math.random() * n))` of the alphabet, where `n` is
  the alphabet's length. Because the draw is rounded, the index can equal `n`.
  `charAt` then returns `""`, so the password comes out one character short.
- **Screen state**. There are six state cells: `password`, `isPassGenerated`
  and the four class flags. Generate, reset and the four checkbox toggles
  change them. The form validates the length (a number from 4 to 16, required)
  before it lets generation run.

Randomness is a parameter. The sampler gets the sequence of indices that the
rounding produced, one per pass, each in `[0, n]`. `Generator.RoundedIndex`
models `Math.round(x * n)` separately, in exact arithmetic, for a draw
`x = numer / denom` in `[0, 1)`. Lemmas prove that its result lies in `[0, n]`
and that `n` itself is reached. The model keeps both quirks as written: the
missing `Z` and the rounded index. Lemmas prove what follows from them.
A password can be shorter than requested, by one character for each draw that
rounds up to `n`. With no class selected the password is `""`.

Files:

- `wrappers.dfy`: `Option` and `Result`.
- `schema.dfy`: the length rule and the field validation.
- `generator.dfy`: the class strings, the alphabet, `charAt`, the rounding and the sampler.
- `screen.dfy`: the class holding the six state cells, and its handlers.

The password can be shorter than `passwordLength`; `Generator.SampleFullLength`
states exactly when.

## Model

| member | source | states |
|---|---|---|
| `Schema.ValidateLength` | App.tsx:14-19 | The length is accepted exactly when it is present and in [4, 16], and then it is passed on unchanged. An empty field gives the "required" error. Below 4 gives the "min" error and above 16 gives the "max" error. |
| `Generator.ClassSizes` | App.tsx:29-32 | The class strings have 26, 25, 10 and 30 characters, and the upper-case class has no `Z`. |
| `Generator.ClassesDisjoint` | App.tsx:29-32 | No character belongs to two of the four class strings. |
| `Generator.CharacterListLength` | App.tsx:34-47 | The alphabet has 26·[lower] + 25·[upper] + 10·[digits] + 30·[symbols] characters. |
| `Generator.CharacterListMembership` | App.tsx:34-47 | A character is in the alphabet if and only if it is in a class whose flag is on. |
| `Generator.CharacterListEmpty` | App.tsx:34-47 | The alphabet is `""` if and only if all four flags are off. |
| `Generator.CharAt` | App.tsx:57 | `charAt` gives at most one character. It gives `""` exactly when the position is out of range; otherwise it gives the character at that position. It never gives a character that is not in the string. |
| `Generator.RoundedIndexInRange` | App.tsx:56 | For any draw in [0, 1), the rounded index lies in [0, n], upper end included. |
| `Generator.RoundedIndexReachesLength` | App.tsx:56 | For n > 0, some draw rounds to exactly n, which is one past the last character. |
| `Generator.SampleLength` | App.tsx:53-59 | The result's length plus the number of out-of-range indices equals the number of passes. |
| `Generator.SampleFullLength` | App.tsx:53-59 | For indices in [0, n], the result is at most `passwordLength` long. It is exactly that long if and only if every index is below n. |
| `Generator.SampleMembership` | App.tsx:56-57 | Every character of the result is a character of the alphabet. An out-of-range index adds nothing foreign. |
| `Generator.SampleEmptyAlphabet` | App.tsx:52-59 | With an empty alphabet the result is `""` for any number of passes. |
| `Generator.BoundaryDrawShortens` | App.tsx:56-57 | One index that rounds up to n makes the password shorter than `passwordLength`. |
| `Generator.PasswordFromSelectedClasses` | App.tsx:34-57 | Every character of a generated password is in an enabled class and in no disabled class. |
| `Generator.DigitsOnlyExample` | App.tsx:42-59 | With digits only and six in-range draws, the password has six characters, all `0` to `9`. |
| `Generator.CreatePassword` | App.tsx:52-60 | The loop makes exactly `passwordLength` appends of `charAt` at the drawn index. Its result is `Sample` of the alphabet and the indices, so the lemmas above apply to it. |
| `Screen.PasswordScreen.constructor` | App.tsx:21-26 | Initial state: `password` is `""`, `isPassGenerated` is false, lower case is on and the other three flags are off. |
| `Screen.PasswordScreen.GeneratePasswordString` | App.tsx:28-51 | For a valid length, it builds the alphabet from the current flags by conditional appends in the fixed order. `password` then holds the sampler's result, `isPassGenerated` is true, and the four flags are unchanged. |
| `Screen.PasswordScreen.Submit` | App.tsx:72-77 | Generation runs if and only if the length field validates. On rejection, `password` and `isPassGenerated` keep their values. The flags never change. |
| `Screen.PasswordScreen.ResetPasswordState` | App.tsx:61-68 | Afterwards `password` is `""`, `isPassGenerated` is false, lower case is on and the other three flags are off. |
| `Screen.PasswordScreen.ToggleLowerCase` | App.tsx:109 | Negates `lowerCase` and changes no other state cell. |
| `Screen.PasswordScreen.ToggleUpperCase` | App.tsx:118 | Negates `upperCase` and changes no other state cell. |
| `Screen.PasswordScreen.ToggleNumbers` | App.tsx:127 | Negates `numbers` and changes no other state cell. |
| `Screen.PasswordScreen.ToggleSymbols` | App.tsx:136 | Negates `symbols` and changes no other state cell. |

## Left out

- `Math.random` is nondeterministic, so draws are parameters. `Math.round` is modelled in exact rational arithmetic. Floating-point rounding of the product `Math.random() * n` is not modelled.
- Text-to-number coercion (`Number(...)`, yup's number cast) is not modelled, and neither is the "must be a number" error for non-numeric text. The length field is an optional integer, where `None` is an empty field. One consequence is not captured: yup's cast drops all whitespace while `Number(...)` (App.tsx:76) only trims the ends, so a field such as "1 2" validates as 12 and the loop then runs zero times on `NaN`, giving `""`.
- Lengths that are not integers are not modelled. yup's `number()` rule accepts them, but the model uses integer lengths only.
- Formik's bookkeeping is not modelled: `touched`, `errors`, the `isValid` flag, and `handleReset`, which clears the length field. The message strings are reduced to the three `LengthError` cases.
- The Reset button is disabled when the form is invalid (App.tsx:148). The model does not capture that gate: `ResetPasswordState` can always be called.
- Rendering is not modelled: the JSX layout, the checkbox widgets, the result card shown when `isPassGenerated` is true, long-press copy, and the styles (App.tsx:69-266).
- React's `useState` update scheduling is not modelled. Setters are immediate field assignments.
