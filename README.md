# Dice roller: a Dafny model

A click-driven dice roller. A 10 by 10 window holds a "Dice" dropdown
offering "1" to "5", five die faces in a row, a "Roll Dice" button, a
"Total: …" text and a "Quit" button. Each mouse click is probed against
the quit button, then the roll button, then the dropdown. A roll reads N
from the dropdown, shows the first N dice with fresh values in [1, 6],
hides the other dice and writes the sum of the N values as the total.

The model keeps the program's own structure, one Dafny module per concern:

- `Text` (text.dfy): the decimal text of an integer, as an f-string writes
  it, and the reading of a digit string back into a number, as `int(...)`
  does for the dropdown's options. Reading back the text of a number gives
  that number.
- `Geometry` (geometry.dfy): points, closed boxes, and the box that
  `Button` builds around a centre.
- `Buttons` (buttons.dfy): the `Button` class, with a constant box and
  `active`, `text` and `drawn` fields, and the `Dropdown` class, with its
  main button, its option buttons that exist only while the menu is open,
  and a ghost footprint `Repr` of the buttons it owns. `Dropdown.Valid()`
  is the invariant every operation keeps. The function `Dropdown.Click`
  states what a click does to the abstract `Menu`, which is whether the
  menu is open and which option it shows. The `Clicked` method is proved
  to behave as `Click` says.
- `Die` (die.dfy): the `DieView` class, with seven pip fields (lit or not)
  and a hidden flag, the pip pattern of every value, and the pip layout.
- `Roller` (roller.dfy): the application. The window is set up by the
  `Roller` constructor. `Roll`, `Dispatch` and `Run` are the roll, one
  turn of the event loop, and the loop itself. They are proved against the
  functions `RollSpec`, `Dispatched`, `Step` and `RunSpec`, which work on
  the visible `Screen`: the menu, the hidden flags, the lit pips and the
  total text. The lemmas below them state what a quit click, a roll click
  and any other click do.

Behaviour of the code worth knowing, all of it modelled as written:

- The last branch of `setValue` is an `else`: it lights {1, 2, 3, 4, 5, 7}
  for 6 and also for 0, negative values and values above 6. Pip 6 is never
  lit.
- The code has no numeric text for values above 6, no number-of-sides
  dropdown and no construction-time validation.
- Option 0's top edge is the main button's top edge, so option 0 covers
  the main button exactly. The main button is tested first, so a click
  there on an open menu closes it, and option 0 can never be chosen by a
  click (`Buttons.ClickNeverSelectsOptionZero`).

## Model

| member | source | states |
|---|---|---|
| `Text.Decimal` | roller.py:68 | the text of a natural number is a non-empty digit string with no leading zero |
| `Text.IntToText` | roller.py:68 | the text of an int starts with a minus sign exactly when it is negative, reading back the digits after any sign gives its absolute value, and those digits have no leading zero |
| `Text.ParseDecimal` | buttons.py:137-139 | `int(...)` of an option succeeds exactly on non-empty digit strings |
| `Text.ParseDecimalOfDecimal` | buttons.py:137-139 | reading back the decimal text of n gives n |
| `Text.DigitsValueOfDecimal` | buttons.py:137-139 | the digit value of the decimal text of n is n |
| `Text.DecimalInjective` | roller.py:68 | two numbers have the same decimal text only when they are equal |
| `Text.ParseInvertsDecimal` | buttons.py:137-139 | the round trip, for every n at once |
| `Geometry.BoxAround` | buttons.py:9-13 | the box has the given width and height and is centred on the given point |
| `Geometry.BoxAroundContains` | buttons.py:25-31 | a point is in the box exactly when it is within half the width and half the height of the centre, edges included |
| `Buttons.Caption` | buttons.py:70 | the main button's text is the label, then `": "`, then the option |
| `Buttons.Button.constructor` | buttons.py:7-23 | a new button has the box `center ± width/2` by `center ± height/2`, the given text, is drawn, and starts inactive |
| `Buttons.Button.Activate` | buttons.py:37-41 | the button is active afterwards; only `active` may change, the box is constant |
| `Buttons.Button.Deactivate` | buttons.py:43-47 | the button is inactive afterwards; only `active` may change |
| `Buttons.Button.Undraw` | buttons.py:126-127 | the button's rectangle and label are off the window; only `drawn` may change |
| `Buttons.Button.Clicked` | buttons.py:25-31 | a click hits only an active button, and hits it exactly when the point is within half the box's width and height of the box's centre, edges included |
| `Buttons.InactiveNeverClicked` | buttons.py:25-31 | an inactive button is clicked at no point |
| `Buttons.ClickedNearCentre` | buttons.py:9-31 | a button is clicked at p exactly when it is active and p is within half its width and height of its centre |
| `Buttons.Dropdown.OptionCenter` | buttons.py:112-115 | option i is centred on the main button's x and, with `option_ymin` at the main button's top edge, i heights below the main button's centre |
| `Buttons.Dropdown.OptionBox` | buttons.py:112-117 | option i's box spans the main button's width and the i-th slot of one height below `option_ymin` |
| `Buttons.Dropdown.FirstHitFrom` | buttons.py:89-93 | the result is the lowest index from i on whose option box holds p, or none when no box from i on holds it |
| `Buttons.Dropdown.Click` | buttons.py:81-95 | a click keeps the option or picks one of the options, and an unhandled click changes nothing |
| `Buttons.Dropdown.constructor` | buttons.py:53-79 | a new dropdown is valid, closed, has no option buttons, shows `options[0]`, and its active main button reads "label: options[0]" |
| `Buttons.Dropdown.OpenOptions` | buttons.py:104-119 | the menu is open with the option unchanged, and the invariant gives exactly one active, drawn option button per option, button i labelled `options[i]` with the box centred at `option_ymin - i*height - height/2` |
| `Buttons.Dropdown.CloseOptions` | buttons.py:121-128 | the menu is closed with no option buttons, the option is unchanged and every button it owns other than the main button is undrawn, those of earlier closes included; the result does not depend on whether the menu was open, so closing twice is closing once |
| `Buttons.Dropdown.ToggleOptions` | buttons.py:97-102 | the open flag flips, the option is kept, and closing undraws the option buttons |
| `Buttons.Dropdown.SelectOption` | buttons.py:130-135 | the option becomes `options[index]`, the main button reads "label: options[index]", the menu is closed, and `GetValue` then reads `int(options[index])` |
| `Buttons.Dropdown.GetValue` | buttons.py:137-139 | the value is n whenever the option is the decimal text of n, and exists exactly when the option is a digit string |
| `Buttons.Dropdown.Clicked` | buttons.py:81-95 | a click on the main button toggles the menu and is handled; otherwise an open menu selects the lowest-index option button the click hits, closes and is handled; otherwise nothing changes and it is not handled (the state and the result are those of `Click`); a click that closes the menu takes the former option buttons off the window, an unhandled click leaves the option buttons and the footprint as they were, and (by the invariant) no button the dropdown owns is drawn unless it is the main button or a current option button |
| `Buttons.OptionZeroIsMainBox` | buttons.py:79-115 | option 0's box is the main button's box |
| `Buttons.OptionsStackDownwards` | buttons.py:110-115 | each option's top edge is the bottom edge of the option before it, starting from `option_ymin` |
| `Buttons.ClickNeverSelectsOptionZero` | buttons.py:79-115 | a click that hits option 0 of an open menu closes the menu and keeps the current option |
| `Buttons.ClickMainToggles` | buttons.py:84-86 | a click on the main button toggles the menu, keeps the option and is handled |
| `Buttons.ClickOpenSelectsLowest` | buttons.py:88-93 | off the main button, an open menu selects the lowest-index option hit, closes and is handled |
| `Buttons.ClickMissUnchanged` | buttons.py:88-95 | a click off the main button that hits no option, or any such click on a closed menu, changes nothing and is not handled |
| `Die.Pattern` | die.py:42-80 | every value lights only pips among 1..7 |
| `Die.PatternSize` | die.py:54-80 | value v lights v pips for v in 1..5 and six pips for every other value |
| `Die.PipSixNeverLit` | die.py:74-80 | pip 6 is lit by no value |
| `Die.ShownValueOfPattern` | die.py:54-80 | the lit pips read back as the value for 1..5 and as 6 for every other value |
| `Die.PatternDistinguishes` | die.py:54-80 | two values light the same pips exactly when they are equal or both lie outside 1..5 |
| `Die.FaceOfLit` | die.py:45-80 | a face's seven pip flags and its set of lit pips determine each other |
| `Die.PipLayout` | die.py:23-29 | seven pip centres, point-symmetric about the die's centre |
| `Die.PipsInsideFace` | die.py:12-29 | with radius `0.1*size` and offset `0.6*size/2`, every pip lies inside the face |
| `Die.PipsApart` | die.py:12-29 | no two pips overlap |
| `Die.DieView.constructor` | die.py:6-32 | a new die is visible and shows value 1, with radius `0.1*size`, offset `0.6*size/2`, the face box around the centre and the pip centres at `(±offset or 0, ±offset or 0)` in pip order |
| `Die.DieView.SetValue` | die.py:42-80 | exactly the pips of the value's pattern are lit and every other pip is unlit; the hidden flag is unchanged |
| `Die.DieView.Hide` | die.py:82-93 | the die is hidden and its lit pips are unchanged, whether or not it was hidden before |
| `Die.DieView.Show` | die.py:95-108 | the die is visible; a hidden die shows 1 afterwards and a visible one keeps its pips |
| `Roller.DiceCount` | roller.py:52 | the count read from the dropdown lies in 1..5 and is the position of the option plus one |
| `Roller.DiceOptionValues` | roller.py:14 | option i of the dice dropdown reads back as i + 1 |
| `Roller.RollSpec` | roller.py:50-68 | a roll keeps the screen well formed and does not touch the menu; what it does to the dice and the total is stated by `RollClick` |
| `Roller.ShowValue` | roller.py:57-62 | die i becomes visible and shows its draw; every other die keeps its hidden flag and its pips |
| `Roller.HideAt` | roller.py:63-65 | die i becomes hidden with its pips kept; every other die is unchanged |
| `Roller.RollDice` | roller.py:55-65 | dice below N are visible and show their draws, the others are hidden with their pips kept, and the total is the sum of the first N draws |
| `Roller.SumBounds` | roller.py:60-62 | N draws in [1, 6] sum to between N and 6N |
| `Roller.RolledValueShown` | roller.py:60-61 | a die set to a draw in [1, 6] reads back as that draw (6 as the six-pip face) |
| `Roller.RolledFacesAddUp` | roller.py:55-65 | after a roll, the values the first k rolled dice display add up to the sum of their draws |
| `Roller.DiceApartAndInWindow` | roller.py:21-29 | any two of the five die faces do not touch each other, and both lie inside the window |
| `Roller.QuitAndRollApart` | roller.py:36-44 | no point is on both the quit button and the roll button |
| `Roller.NewDiceMenu` | roller.py:14-15 | the dice dropdown is valid, offers "1" to "5" under the label "Dice", is centred at (2.5, 9) with size 2 by 0.8, and starts closed showing "1" |
| `Roller.NewActiveButton` | roller.py:36-45 | a new, drawn, active button with the given box and text |
| `Roller.NewControls` | roller.py:15-45 | the "Dice" dropdown and the Roll and Quit buttons are fresh, separate from the dropdown's footprint, active, drawn, with their boxes and captions, and the menu is closed on "1" |
| `Roller.DicePositions` | roller.py:21-25 | die i is centred at `(1.5 + 1.75*i, 7)` for i in 0..4 |
| `Roller.MakeDice` | roller.py:27-33 | five distinct new dice of size 1.5 at those centres, all showing 1, dice 0 and 1 visible and dice 2..4 hidden |
| `Roller.Roller.Dispatched` | roller.py:50-71 | one non-quit click keeps the screen well formed; what it does is stated by `RollClick`, `OtherClickKeepsDice` and `DropdownSeesEveryClick` |
| `Roller.Roller.Step` | roller.py:49-71 | one turn of the loop keeps the screen well formed; what it does is stated by `QuitClickChangesNothing` and the lemmas on `Dispatched` |
| `Roller.Roller.RunSpec` | roller.py:47-74 | the loop over a sequence of clicks keeps the screen well formed; its unfolding is `RunSpecStep` and its stop at the first quit click is `NothingAfterQuit` |
| `Roller.Roller.constructor` | roller.py:9-45 | the window starts with a closed "Dice: 1" dropdown, dice 0 and 1 visible showing 1, dice 2..4 hidden, active, drawn "Roll Dice" and "Quit" buttons, and "Total: 0"; the dice and every button of the dropdown are new objects |
| `Roller.Roller.Roll` | roller.py:50-68 | the screen after a roll is `RollSpec` of the screen before, and the total is the sum of the first N draws for the N selected before the roll |
| `Roller.Roller.Dispatch` | roller.py:50-71 | the screen after a non-quit click is `Dispatched` of the screen before: the roll when the roll button is hit, then the dropdown's handling of the same point |
| `Roller.Roller.Run` | roller.py:47-76 | the screen after the loop, and whether it ended on a quit click, are those of `RunSpec` over the clicks and draws; the dropdown gains only new buttons, so further clicks can follow |
| `Roller.Roller.RunSpecStep` | roller.py:48-74 | a quit click stops the loop with the screen unchanged; any other click is dispatched and the loop goes on with the rest |
| `Roller.Roller.RollClickMissesDropdown` | roller.py:15-36 | the roll button overlaps neither the main dropdown button nor any of the five option boxes |
| `Roller.Roller.QuitClickChangesNothing` | roller.py:48-49 | a quit click ends the loop before any roll or dropdown handling |
| `Roller.Roller.NothingAfterQuit` | roller.py:48-76 | the clicks after the first quit click never affect the result, and the loop ends on a quit |
| `Roller.Roller.RollClick` | roller.py:50-71 | on a roll click, with N the count selected before the click: dice below N are visible and show their draws, the others are hidden and keep their pips, the total is "Total: " and the sum of the N draws, which lies in [N, 6N] and equals the sum of the values the visible dice display, and the menu is unchanged |
| `Roller.Roller.OtherClickKeepsDice` | roller.py:50-71 | a click on neither the quit nor the roll button leaves the dice and the total unchanged; only the dropdown reacts |
| `Roller.Roller.DropdownSeesEveryClick` | roller.py:50-71 | every non-quit click reaches the dropdown, which sees the menu as it was before the click |
| `Roller.Roller.OpenMenuStep` | roller.py:50-71 | on the starting screen, a click at the dropdown's centre opens the menu and changes nothing else |
| `Roller.Roller.PickThreeStep` | roller.py:50-71 | on the open menu, a click at (2.5, 7.4) selects "3" and closes the menu |
| `Roller.Roller.RollThreeStep` | roller.py:50-68 | with "3" selected, a click on the roll button shows the first three draws, hides dice 4 and 5, and writes "Total: " and the decimal sum of the three draws |
| `Roller.Roller.PickThreeThenRoll` | roller.py:47-76 | the session open the menu, pick "3", roll ends with the menu closed on "3", the first three dice showing the draws, the last two hidden, and "Total: " and the sum of the three draws |
| `Roller.Session` | roller.py:9-76 | `main` from start to end of its clicks: a new valid window whose final screen, and whether it stopped on a quit click, are those of `RunSpec` from the starting screen |

## Left out

- Drawing is not modelled: the window, colours, line widths, text sizes and the coordinate setup. A button's rectangle and label are reduced to one `drawn` flag, a die's face and pips to its hidden flag, and a pip's fill to lit or unlit. The window handle passed to every constructor is dropped.
- Blocking mouse input is replaced by a finite sequence of click points. `Run` returns when the clicks run out, where the program would wait for the next click. Closing the window is not modelled.
- `randrange(1, 7)` is replaced by draws supplied with each click, a vector of five values in [1, 6], of which a roll uses the first N.
- Coordinates are exact reals, so floating-point rounding is not modelled.
- `Button.getLabel` is a plain accessor; the model reads the `text` field directly.
- Buttons.Dropdown.GetValue: models `int(...)` only on plain digit strings. Python also accepts surrounding whitespace, a sign and underscores, and other forms, such as decimal digits of other scripts ("٣" gives 3); here all of these give `None`. Every option of the application is a digit string.
- Text.ParseDecimal: the same restriction as `GetValue`.
- Buttons.Dropdown.constructor: requires a non-empty option list. On an empty list the source fails with an IndexError at `options[0]`.
- Buttons.Dropdown.SelectOption: takes a natural index below the number of options. Python's negative indices are not modelled; the only caller passes an index from `enumerate`.
- Buttons.Dropdown.OpenOptions: is modelled on a closed menu only, the one place its caller `toggle_options` opens it. Opening an already open menu would leave the earlier option buttons drawn and unowned.
- Buttons.Dropdown.Click: its own contract states only two facts: the option is kept or is one of the options, and an unhandled click changes nothing. The full case analysis is in the lemmas `ClickMainToggles`, `ClickOpenSelectsLowest`, `ClickMissUnchanged` and `ClickNeverSelectsOptionZero`.
- Roller.Roller.constructor: makes the dice before the dropdown, where `main` makes them second. None of these widgets reads another, so the finished window is the same; only the order of creation differs.
