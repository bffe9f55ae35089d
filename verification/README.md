# kivytest2: aspect-ratio lock and screen flow

A verified Dafny model of the two pieces of `main.py` with exactly statable
behaviour:

- **The aspect-ratio lock** (`aspect.dfy`, module `Aspect`). The window's
  resize handler keeps the window at 400:600. A window that is too wide gets
  its width cut to the truncated 2:3 width of its height. A window that is too
  tall gets its height cut to the truncated 3:2 height of its width. An exact
  2:3 window is left alone. `Snap` returns the assigned size, or `None` when
  nothing is assigned.
- **The screen flow** (`screens.dfy`, module `Screens`). Class `SimpleApp`
  holds the screen manager's current screen and transition direction, the two
  login inputs, the error label's visibility, the welcome label's text, the
  shared user name and the background sound. Its methods are the login button
  (`Submit`), the main menu's entry hook (`Enter`), the volume slider
  (`SetVolume`) and the back button (`GoBack`). `Valid()` is the invariant
  every method keeps: on the login screen the welcome label is empty and no
  music plays.

`wrappers.dfy` holds the `Option` type.

Modelling assumptions:

- The handler compares `width / height` with `400 / 600` and multiplies in
  doubles. The model uses the exact integer forms: `3 * w > 2 * h`,
  `(2 * h) / 3` and `(3 * w) / 2`. For window-sized integers these agree.
  `h * (2/3)` is exact when `h` is a multiple of 3, and otherwise lies at least
  1/3 away from an integer, far beyond double rounding error. The same holds
  for `w / (2/3)` with 1/2. Python's `int()` truncates toward zero. `TruncDiv`
  writes that out; it differs from Dafny's `/` only for a negative width.
- `Enter` runs only when the main menu has become the current screen. The
  caller invokes it after the navigation that `Submit` performs; the
  framework does the same once the transition ends.
- The slider's current value is a parameter of `Enter`. The slider is a
  widget declared in the KV layout file, which is not part of this model.
- Loading the sound file is I/O. Its outcome is the constructor's `loaded`
  parameter, and a freshly loaded sound is not playing. The sound is a value
  held only by the app, so methods reassign the `sound` field.
- The error label's initial opacity and the welcome label's initial text are
  set in the KV file. The model starts the error label hidden and the welcome
  text empty; the invariant `Valid()` holds at startup because of the latter. The transition direction starts at the framework's default, left.
- `Settle` assumes that each `Window.size` assignment the handler makes is
  delivered back to the same handler through its `on_resize` binding
  (main.py:56). That feedback is framework behaviour that `main.py` does not
  show. `SettleReachesTarget`, `TallThenSettle` and `OddTallStep` rest on it.
- Volumes are `real`, so `value / 100.0` is exact.
- An empty submission still overwrites the shared user name with `""`
  (main.py:83), so a name remembered from an earlier login is lost. The model
  follows the code here: an empty submission does not leave an earlier name
  in place. `EmptyLoginRejected` shows it.

## Model

| member | source | states |
|---|---|---|
| `Aspect.TruncDiv` | main.py:46 | Python's `int(n / d)` for a positive divisor: the quotient rounded toward zero, bounded on both sides by `n` |
| `Aspect.Snap` | main.py:35-52 | No new size exactly when the size is 400:600. Too wide (`3w > 2h`): the height is kept and the width becomes the unique `w'` with `3w' <= 2h < 3w' + 3`, strictly smaller than before. Too tall (`3w < 2h`): the width is kept and the height becomes the truncation of `3w/2`, strictly smaller than before |
| `Aspect.Settle` | main.py:35-56 | The size the window ends at if every size the handler assigns comes back to it as a resize, for a bounded number of corrections; a size the handler leaves alone is final, so the result never exceeds the start in either dimension |
| `Aspect.SettleAtTarget` | main.py:44-52 | A 400:600 size is a fixed point: the handler assigns nothing, however often it runs |
| `Aspect.SettleReachesTarget` | main.py:35-56 | If every size the handler assigns comes back to it as a resize, any starting size of at least 2x3 reaches an exact 400:600 size within four corrections. That size is positive, no larger in either dimension, and then left alone |
| `Aspect.TallThenSettle` | main.py:47-49 | From a too-tall size whose width is at least 2, three corrections reach an exact 400:600 size below the starting height |
| `Aspect.SettleStep` | main.py:44-49 | When the handler changes a size, the window settles as it does from the size the handler assigned |
| `Aspect.OddTallStep` | main.py:44-49 | Width 2k+1 with its height truncated to 3k+1 needs two more corrections: the width becomes 2k, then the height becomes exactly 3k, which is then left alone |
| `Aspect.SnapExamples` | main.py:44-49 | 500x600 becomes 400x600, 300x600 becomes 300x450, and 400x600 is left alone |
| `Screens.UpperChar` | main.py:112 | ASCII lower-case letters map to their upper-case letter; every other character is kept; the result is never an ASCII lower-case letter |
| `Screens.Upper` | main.py:112 | Upper-casing keeps the length and maps every character through `UpperChar` |
| `Screens.UpperIdempotent` | main.py:112 | Upper-casing an upper-cased string changes nothing |
| `Screens.DisplayName` | main.py:110 | The greeted name is never empty: a non-empty user name as it is, the empty one replaced by "Guest" |
| `Screens.Welcome` | main.py:110-114 | The greeting is the greeted name upper-cased character by character, followed by "!". It is at least two characters long and contains no ASCII lower-case letter |
| `Screens.WelcomeIgnoresCase` | main.py:110-112 | Names that differ only in ASCII case get the same greeting |
| `Screens.WelcomeExamples` | main.py:110-114 | `""` is greeted as "GUEST!" and "ana" as "ANA!" |
| `Screens.Volume` | main.py:159 | The volume times 100 is the slider value, with no clamping. It lies in [0, 1] exactly when the slider value lies in [0, 100] |
| `Screens.VolumeExamples` | main.py:159 | Slider values 50, 0 and 100 give volumes 0.5, 0.0 and 1.0 |
| `Screens.SimpleApp.constructor` | main.py:189-209 | Startup: the login screen is current, the user name and inputs are empty, and the sound is whatever loading produced |
| `Screens.SimpleApp.Submit` | main.py:67-95 | The user name field is always copied into the shared user name. A non-empty name hides the error, clears both inputs, sets the direction to right and moves to the main menu. An empty name shows the error and changes nothing else. The greeting and the sound are untouched |
| `Screens.SimpleApp.Enter` | main.py:105-146 | Entering the main menu sets the welcome text to `Welcome(userName)`. A present sound becomes looping and playing at `Volume(slider)`; an absent sound stays absent. The screen, inputs, user name and error label are untouched |
| `Screens.SimpleApp.SetVolume` | main.py:148-159 | A present sound gets volume `Volume(value)` and keeps its playing and loop flags; an absent sound stays absent; nothing else changes |
| `Screens.SimpleApp.GoBack` | main.py:161-174 | The direction becomes left, the login screen becomes current and the welcome text is cleared. A present sound stops but keeps its loop flag and volume; an absent sound stays absent |
| `Screens.LoginRoundTrip` | main.py:67-174 | Login with a non-empty name, enter, go back. The menu greets `Welcome(name)` and plays exactly when the sound loaded. Back on the login screen the greeting is empty, the music stopped and the name still remembered |
| `Screens.EmptyLoginRejected` | main.py:80-95 | After an earlier login and a return, an empty submission stays on the login screen, shows the error, keeps the phone field and overwrites the remembered name with `""` |

## Left out

- The welcome label's entrance animation (main.py:115-137) and the card transition's timing (main.py:203). These are timed tweens run by the UI framework.
- The minimum window size (main.py:28-29). It is a pair of one-off float divisions.
- `Window.size` is assigned and the handler returns `True`. The model returns the assigned size instead, and it does not model the framework's default resize handling that `True` suppresses.
- Loading and decoding the sound file, and the audio output itself. Only presence and the `playing`, `loop` and `volume` fields are modelled.
- The diagnostic `print` calls (main.py:146, main.py:200) and the unused `output_label` lookup (main.py:76-78).
- The widget tree, `self.ids` lookups, `App.get_running_app()` and the KV layout file. They are replaced by the fields of `SimpleApp`.
- `Screens.Upper`: upper-cases ASCII letters only. Python's `str.upper` also maps other Unicode letters and can change the length (for example "ß" becomes "SS").
- `Screens.Volume`: uses exact reals, not the IEEE-754 rounding of `value / 100.0`.
- `Aspect.Snap`: uses exact integer arithmetic instead of the handler's double arithmetic. The two agree for window-sized integers, as argued above.
- `Aspect.Snap`: requires a positive height. At height 0 the handler raises ZeroDivisionError at main.py:44 (`width / height`); the model excludes that case, and `Aspect.Settle` stops there. The minimum window size (main.py:28-29) keeps real windows far from it.
