# IRS phase-shift calculator — a Dafny model

This project models the computing core of the IRS Phase Shift Visualizer. The
application computes the per-element phase shifts that steer an intelligent
reflecting surface. A wave arrives at the incident angle θi, and the surface
must redirect it toward the reflection angle θr. The model covers four parts
of the application class `IRSPhaseApp`:

- **Input validation** (`Validation`). The three entry texts are stripped the
  way Python's `str.strip()` strips them (`TextInput.Strip`). The checks then
  run in the order `compute` runs them: every field is filled, N is an integer under
  `int()`, N lies in [1, 10000], and the two angles parse under `float()`.
  Each failure is an `InputError` with the text of the dialog.
- **The phase ramp** (`Steering`). delta = sin(θr·π/180) − sin(θi·π/180), and
  phase[n] = −2π·delta·n for n in 0..N−1. The model works over `real`. Sine
  and π are parameters, so the proved properties hold for any sine function
  and any value of π, under the conditions each lemma states. The ramp is not wrapped modulo 2π.
- **The outputs** (`Output`). The results panel shows one line per element,
  `{i:04d} | Phase = {ph: .6f} rad`. `RenderLines` is the loop that builds
  these lines. The (index, phase) rows are shared by the plot and by the CSV
  export, whose columns are "Element Index" and "Phase (rad)".
- **The session** (`Session.IrsPhaseApp`). A class holds the entry texts,
  the results panel and the single result slot `last_phases`. Compute
  replaces the result only after validation passes. A refused compute leaves
  the result alone. Reset clears it. Both save actions refuse to run without
  a result.

The library routines are gathered in `Session.Numerics`: sine, π, `float()`
and the `.6f` float formatting. They are given to the model as values, not
defined by it. The chosen save path and the outcome of the file write are
parameters of the save methods.

A results line reads `0003 | Phase = ... rad` (main.py:113).

## Model

| member | source | states |
|---|---|---|
| TextInput.Strip | main.py:89-91 | the stripped field is empty exactly when the field is all whitespace (Python's `isspace` set), and otherwise it starts and ends with a non-whitespace character |
| TextInput.StripKeepsMiddle | main.py:89-91 | stripping removes only a blank prefix and a blank suffix; the rest of the text is kept unchanged |
| TextInput.StripIdempotent | main.py:89-91 | stripping an already stripped field changes nothing |
| TextInput.ParseInt | main.py:96 | `int()` accepts only a non-empty digit string, or a sign followed by a non-empty digit string |
| TextInput.ParseIntSignedDigits | main.py:96 | every non-empty digit string d is accepted as itself, as "+" + d and as "-" + d, with its value and sign; leading zeros are allowed |
| TextInput.ParseIntShowInt | main.py:96 | `int()` reads back every integer from its decimal text, negative ones included |
| TextInput.ShowNat | main.py:113 | the decimal text of n is non-empty, all digits, has no leading zero, and has value n |
| TextInput.ShowNatWidth | main.py:113 | a number below 10^k needs at most k digits |
| TextInput.LeadingZerosValue | main.py:113 | leading zeros do not change the value of a digit string |
| TextInput.ZeroPadded | main.py:113 | the `0<w>d` field is all digits, at least w characters wide, and has value n |
| TextInput.ZeroPaddedExact | main.py:113 | below 10^w the `0<w>d` field is exactly w characters, and `int()` reads it back as n |
| Validation.MessagesTellKindsApart | main.py:94-101 | error kinds that differ never share a dialog text, so the dialog tells which check failed |
| Validation.Validate | main.py:89-101 | an accepted request always has 1 <= N <= 10000 |
| Validation.MissingIffBlank | main.py:89-94 | "Fill all input fields." is the outcome exactly when some field is blank, whatever the other fields hold |
| Validation.CountParsedBeforeAngles | main.py:93-96 | when all fields are filled and N is not an integer, the error is about N, whatever the angle fields hold |
| Validation.RangeCheckedBeforeAngles | main.py:93-101 | when all fields are filled and N is an integer, the range error is reported exactly when N is outside [1, 10000], even if an angle is malformed |
| Validation.AngleParsedLast | main.py:100-101 | when all fields are filled and N is in range, a failing `float()` on an angle gives the angle error; the incident angle is parsed before the reflection angle |
| Validation.AcceptedIff | main.py:89-101 | a request is accepted with (N, θi, θr) exactly when N parses to a value in range and both angle fields are filled and parse to θi and θr |
| Validation.BoundaryLiterals | main.py:96 | `int()` reads "0", "1", "10000" and "10001" as those numbers |
| Validation.CountBoundariesRefused | main.py:97-98 | N = 0 and N = 10001 get the range error |
| Validation.CountBoundariesAccepted | main.py:97-101 | N = 1 and N = 10000 are accepted when the angles parse |
| Steering.Radians | main.py:103-104 | the degree-to-radian conversion takes 180° to π, 90° to π/2 and 0° to 0 |
| Steering.Delta | main.py:105 | equal angles give delta = 0 |
| Steering.SwappedAnglesMirror | main.py:103-108 | swapping the two angles negates delta and negates every phase of the ramp |
| Steering.Ramp | main.py:107-108 | the ramp has exactly N phases |
| Steering.RampStartsAtZero | main.py:107-108 | element 0 always gets phase 0 |
| Steering.RampLinear | main.py:107-108 | for N >= 2, phase[n] == n · phase[1] for every element |
| Steering.RampUniformStep | main.py:107-108 | neighbouring elements differ by the same step, phase[1] |
| Steering.RampFlatIff | main.py:103-108 | when π ≠ 0, every phase is 0 exactly when N <= 1 or delta = 0 |
| Steering.NoSteeringWhenAnglesEqual | main.py:103-108 | equal angles give delta = 0 and all-zero phases, for any N |
| Steering.SingleElementFlat | main.py:103-108 | N = 1 gives the single phase 0 for any angles |
| Steering.ThirtyDegreeScenario | main.py:103-108 | N = 4, θi = 0°, θr = 30°: given sin 0 = 0 and sin(π/6) = 1/2, delta = 1/2 and the phases are 0, −π, −2π, −3π |
| Output.ExportRows | main.py:162-165 | the table has one row per phase |
| Output.PhaseColumn | main.py:164 | the "Phase (rad)" column has one entry per row, and entry i is the phase of row i |
| Output.ExportRoundTrip | main.py:162-165 | reading the "Phase (rad)" column back from the exported rows gives the profile unchanged |
| Output.ExportIndicesAscending | main.py:162-165 | row i has index i, so indices rise strictly from 0 |
| Output.IndexField | main.py:113 | the index field is digits only, at least 4 wide, and has value i |
| Output.DisplayLine | main.py:113 | a results line ends in " rad" and a newline; if the formatted phase holds no line break, that newline is the line's only one |
| Output.DisplayLineIndex | main.py:112-113 | for i < 10000 the line opens with exactly four digits, then a space, and `int()` reads those digits as i |
| Output.RenderLines | main.py:111-113 | one line per element in index order, each the display line of its own element; with N <= 10000 each line opens with its 4-digit index |
| Session.Profile | main.py:103-108 | the profile of a geometry has N phases, and the first is 0 |
| Session.IrsPhaseApp.constructor | main.py:18 | a new window has empty entries, an empty panel and no result |
| Session.IrsPhaseApp.Enter | main.py:41-50 | typing into the entries changes only their text |
| Session.IrsPhaseApp.Compute | main.py:87-114 | a refused request shows "Input Error" with its message and leaves the result and the panel unchanged; an accepted one stores the profile of the validated geometry and shows N lines, line i carrying index i in 4 digits; either way the session invariant holds for the panel as the program writes it |
| Session.IrsPhaseApp.SavePng | main.py:129-151 | without a result it reports "Compute phase shifts first." and writes nothing; a cancelled dialog does nothing; otherwise it plots the held phases against the element index, with the title and axis labels of main.py:142-144 |
| Session.IrsPhaseApp.SaveCsv | main.py:153-169 | without a result it reports "Compute phase shifts first." and writes nothing; a cancelled dialog does nothing; otherwise the table has the two named columns and rows (i, phase[i]) whose phase column is the held result |
| Session.IrsPhaseApp.Reset | main.py:171-181 | the entries and the panel are emptied and no result is held |

## Left out

- The Tk window, its styling, layout and help text (main.py:12-85, 184-191): user-interface plumbing.
- The results panel (main.py:63) is an editable `tk.Text`. Text the user types into it is not modelled, so the panel clause of `Session.IrsPhaseApp.Valid` describes the panel as the program writes it.
- Rendering with matplotlib, on screen and to PNG (main.py:116-122, 139-148): the model keeps only the figure's title, axis labels and data points. The plot axes are not part of the session state.
- The file dialogs (main.py:133-135, 157-159): the chosen path is a parameter, and "" means the dialog was cancelled.
- The file writes of `savefig` and `to_csv` (main.py:147, 166): whether they fail, and with what message, is a parameter. The CSV text itself is not modelled, only the header and rows handed to the writer.
- IEEE-754 arithmetic in `np.radians`, `np.sin` and the ramp expression (main.py:103-108): the model works over exact reals. Sine and π are opaque parameters.
- Signed zero: in numpy, −2π·delta·0 is −0.0 whenever delta > 0 or delta is +0.0, so element 0 (and every element when the angles are equal) shows "-0.000000" and is written as "-0.0". The model's real 0.0 has no sign.
- The `{ph: .6f}` formatting (main.py:113): it is an opaque parameter `formatPhase`.
- Python's `float()` grammar (main.py:100-101): it is an opaque partial function `parseFloat`. Its results "nan" and "inf" are not real numbers and fall outside the model.
- TextInput.ParseInt: models `int()` as an optional sign followed by ASCII digits. It does not accept underscores between digits or non-ASCII decimal digits. It does not model the 4300-digit conversion limit of recent Python versions.
- Validation.Message: the `int()`/`float()` error texts quote the field in plain single quotes. Python's `repr` quoting and escaping is not reproduced. CPython also cuts the quoted text in the `int()` message at 200 characters; the model quotes the whole field.
- The generic `except Exception` branch (main.py:126-127): it catches only failures of the host libraries. If that branch fires after the result is stored, the panel may no longer match the result; the model does not cover this case.
