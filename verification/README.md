# Password generator page — a Dafny model

This project models the client-side logic of a small password-generator page
(`src/main.js`): the strength classifier and its bar meter, the generator that
draws characters from the enabled character classes, the page's event handlers
as a state machine (check boxes, slider, generate, save dialog, submit, close,
auto-close, panel switching), and the saved-password list with its per-row
show/hide toggle.

Modules, one per concern of the script:

- `Text` (`text.dfy`): JavaScript's `trim` and `toUpperCase`, as far as the page uses them.
- `Strength` (`strength.dfy`): `updateStrength` — the ordered guards, the upper-cased label, the bar row.
- `Charset` (`charset.dfy`): the four alphabets, the check boxes, the in-order charset and the class count.
- `Generator` (`generator.dfy`): `generatePassword`, with `Math.random` replaced by a sequence of draws.
- `Saved` (`saved.dfy`): stored entries, rendered rows, the show/hide toggle.
- `Ui` (`ui.dfy`): the page state, one transition function per handler, `Step` and `Run`.

The random source is a parameter: a generation is given one draw per
character, each draw being `floor(random * n)` for a charset of `n`
characters, so it lies in `[0, n)` when `n > 0` and is `0` when `n == 0`.
Timers are events: submitting schedules an auto-close, and the `TimerFires`
event delivers it. The markup of the page (initial boxes, slider value,
placeholder text, the strength bars, the dialog's initial visibility) and the
stored list read at start-up are the parameters of `Ui.Init`.

The password field returns to the placeholder as soon as a name is accepted
(src/main.js:178-179); only the dialog close and the re-render wait for the
5-second timer (src/main.js:169-172). The class count
of 1 at any length falls to "Too Weak!" through the `charTypes < 2` guard, and
a count above 4 matches no guard (empty label, level 0).

When no box is checked the charset is empty; `charset[0]` is then `undefined`
and the page appends the text `undefined` per character. `Generator.Generate`
models that case as written; the check-box handler prevents it once any box has
changed (`Ui.CheckBox`, `Ui.RunKeepsAClass`).

## Model

| member | source | states |
|---|---|---|
| Strength.Classify | src/main.js:245-267 | the label always belongs to the level; level in 0..4; level 0 exactly when more than four classes are claimed; 1..4 classes give a level in 1..4 |
| Strength.FourClassesStrong | src/main.js:249-251 | four classes rate Strong/4 at every length |
| Strength.ThreeClassesTable | src/main.js:249-263 | three classes: Strong/4 from 12 characters, Medium/3 for 8..11, Weak/2 below 8 |
| Strength.TwoClassesTable | src/main.js:252-263 | two classes: Medium/3 from 10 characters, Weak/2 below 10 |
| Strength.FewerThanTwoClassesTooWeak | src/main.js:264-266 | fewer than two classes (0 or 1) rate "Too Weak!"/1 whatever the length |
| Strength.MonotoneInLength | src/main.js:249-267 | with the same classes a longer password never rates a lower level |
| Strength.MonotoneInClasses | src/main.js:249-267 | up to four classes, more classes never rate a lower level at the same length |
| Strength.StrengthTexts | src/main.js:269 | the shown text is STRONG, MEDIUM, WEAK, TOO WEAK! or empty, by level |
| Strength.Meter | src/main.js:271-288 | every colour class is cleared, bar i below the level gets colour i, bars from the level on carry no colour, other classes are kept |
| Strength.MeterFillsLevelBars | src/main.js:286-288 | after an update exactly `level` bars are filled |
| Strength.UpdateBars | src/main.js:271-288 | the clear loop followed by the fill loop yields the meter above |
| Text.Trim | src/main.js:153 | the trimmed name is an infix of the input with only white space cut from both ends, and neither starts nor ends with white space |
| Text.TrimEmptyIffAllSpace | src/main.js:153-154 | the name is rejected exactly when every character is white space |
| Text.TrimIdempotent | src/main.js:153 | trimming twice is trimming once |
| Text.ToUpper | src/main.js:269 | the label is upper-cased character by character, length kept |
| Charset.CountEnabled | src/main.js:57-59 | the class count is at most 4; 0 exactly when no box is checked, 4 exactly when all are |
| Charset.CharsetOf | src/main.js:34-45 | the charset is empty exactly when no class is enabled; its length is the sum of the enabled alphabets' lengths |
| Charset.AlphabetMatchesClass | src/main.js:34-37 | each alphabet string holds exactly the characters of its class (A-Z, a-z, 0-9, the 24 symbols) |
| Charset.CharsetMembership | src/main.js:224-229 | a character is in the charset exactly when its class is enabled |
| Charset.TableFold | src/main.js:40-45 | folding the class table in its fixed order gives the concatenated charset and the class count |
| Charset.BuildCharset | src/main.js:221-229 | the forEach loop returns the in-order charset and the number of enabled classes |
| Generator.PickedFromCharset | src/main.js:231-235 | with a non-empty charset the password has one character per draw, character i being `charset[draw i]` |
| Generator.PickedFromEmpty | src/main.js:233-234 | with an empty charset every draw appends "undefined" |
| Generator.Generate | src/main.js:220-242 | returns the class count and the slider length; with a class enabled the password has exactly `length` characters, each the charset character at its draw; with none it is "undefined" repeated |
| Generator.GeneratedFromEnabledClasses | src/main.js:224-235 | every generated character belongs to an enabled class |
| Generator.GeneratePassword | src/main.js:220-242 | the two loops compute the generation above |
| Saved.RenderRow | src/main.js:304-308 | a rendered row starts masked, with the Show label |
| Saved.Render | src/main.js:299-314 | the panel has one masked row per stored entry, in stored order |
| Saved.ToggleRow | src/main.js:319-324 | a toggle flips the hidden flag; a hidden row then shows the literal password and "Hide", a shown row the mask and "Show" |
| Saved.ToggleTwice | src/main.js:319-324 | toggling twice restores the row |
| Saved.ToggleAt | src/main.js:317-324 | a toggle touches only its own row |
| Saved.ShownText | src/main.js:320-321 | a row's text is the mask when hidden and the literal password when shown |
| Ui.UpdateStrength | src/main.js:245-289 | the page shows the classifier's text and the bar row of `Strength.Meter` at its level, so exactly `level` filled bars with bar i in colour i; nothing else changes |
| Ui.RefreshActions | src/main.js:184-211 | copy and save are disabled exactly when the field is empty or shows the placeholder |
| Ui.Init | src/main.js:51-64 | page load keeps the markup's boxes, slider, text, placeholder flag and dialog and the stored list, has no auto-close pending, renders the list masked (the start-up render at src/main.js:340-341), shows the strength of the initial class count and slider length, picks the placeholder text (markup text, else "P4$5W0rD!") and gates copy/save |
| Ui.Slide | src/main.js:67-75 | the slider shows the new length; the strength text and the filled bars are those of the current class count at the new length; nothing else changes |
| Ui.CheckBox | src/main.js:78-91 | a change that would leave no class is reverted with the page unchanged; otherwise the flipped box stands, the strength is recomputed with the new count and nothing else changes; at least one class is enabled afterwards |
| Ui.GenerateClick | src/main.js:94-101 | the field shows the generated password, leaves the placeholder state, copy and save are enabled, the strength text and the filled bars are those of the class count and slider length; the rows, name field, panels, count text and pending auto-closes are unchanged |
| Ui.SaveClick | src/main.js:127-135 | in the placeholder state an alert and no change; otherwise the dialog opens on its form and nothing else changes |
| Ui.CloseModal | src/main.js:292-296 | overlay and success message hidden, form visible, nothing else changes |
| Ui.OverlayClick | src/main.js:143-147 | only a click on the overlay itself closes the dialog |
| Ui.Submit | src/main.js:150-182 | a name of only white space raises an alert and changes nothing; otherwise exactly one entry (trimmed name, shown password) is appended after the unchanged earlier ones, the field returns to the placeholder, copy and save are disabled, the input is cleared, the success message replaces the form inside the still-open overlay, an auto-close is scheduled; the strength indicator, boxes, slider, panels, rows and default placeholder are untouched |
| Ui.AutoClose | src/main.js:169-172 | the timer closes the dialog and renders the stored list again; nothing else changes |
| Ui.EnterName | src/main.js:152-153 | typing sets the profile-name input that the submit reads, and nothing else |
| Ui.ViewClick | src/main.js:192-196 | the saved panel is shown and rendered from the stored list |
| Ui.BackClick | src/main.js:199-202 | the generator panel is shown again |
| Ui.ShowHide | src/main.js:319-324 | the show/hide button toggles its own row only |
| Ui.Step | src/main.js:66-202 | every handler keeps the page invariant (slider range, copy/save gating, the form reachable only with a real password, consistent rows) |
| Ui.CloseIdempotent | src/main.js:292-296 | closing twice is closing once |
| Ui.GenerateEnablesActions | src/main.js:94-100 | after a generate the field is non-empty and copy and save are enabled |
| Ui.SubmitSavesRealPassword | src/main.js:158-161 | an accepted submit stores the shown password, never the placeholder |
| Ui.StepKeepsSaved | src/main.js:161 | no handler removes or rewrites a stored entry |
| Ui.StepKeepsAClass | src/main.js:80-89 | no handler disables the last enabled class |
| Ui.RunKeepsSaved | src/main.js:161 | over any session the stored list only grows at its end |
| Ui.RunKeepsAClass | src/main.js:80-89 | over any session at least one class stays enabled once one is |

## Left out

- `api/src/services/vaultService.js`: a pass-through to a cloud secret store's SDK with logging and re-throw; there is no logic of its own to model.
- The copy button and the per-row copy button: clipboard writes are asynchronous browser calls, and the 2-second "copied" indicator is presentation only.
- `updateSliderFill`: a floating-point percentage turned into a CSS gradient, presentation only.
- `localStorage` and JSON: the stored list is the in-memory sequence (`Page.saved`); the page rewrites the whole list on each save, so the store always equals it. A missing key reads as the empty list, which `Ui.Init` receives as its `stored` parameter.
- `Math.random`: replaced by the draws parameter described above; uniformity is not modelled.
- String-to-number coercion of the slider value: the length is an integer in 6..20, the slider's range.
- The HTML templating of rendered rows (names are inserted into markup unescaped) and listener registration: rows are modelled by their fields only.
- `alert` dialogs are returned as an `Alert` value rather than shown.
- Text.ToUpper: upper-cases ASCII letters only, because every label the page upper-cases is ASCII; full Unicode case mapping is not modelled.
- Ui.Init: requires the markup to start with the dialog's overlay hidden and with at least four strength bars, because the markup is not part of this model and the script indexes one bar per level.
- The form's submit event is only delivered while the form is visible in the open dialog, and the save button's click only while the button is enabled (`Ui.Allowed`), as a browser does; the handlers themselves do not test this, and `Ui.SaveClick` still models the alert branch of its handler.
