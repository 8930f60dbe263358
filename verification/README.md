# GpioCalculator in Dafny

GpioCalculator is a small desktop tool. It converts between the GPIO pin names of three SoC families and Linux sysfs GPIO numbers. It also prints the shell commands that export a pin through `/sys/class/gpio`. This project models the tool's core and proves properties of that model:

- **Forward conversion.** A group, a port letter and an index become a flat GPIO number:
  - Rockchip: `group*32 + port*8 + index`
  - i.MX: `(group-1)*32 + index`
  - Allwinner: `port*32 + index`

  The port is the letter's offset from `A`. The group text loses every `GPIO` before it is parsed.
- **Backward conversion.** A number becomes a descriptor by floor division and modulo. The tool then prints a pin name:
  - Rockchip: `GPIO{g}_{L}{i}`
  - i.MX: `GPIO{g}_IO{i:02d}`
  - Allwinner: `P{L}{i}`
- **Command generator.** The last resolved number and the export mode produce one of four sysfs command texts.
- **State.** The calculator keeps the last resolved number, the command box and the two result labels. A forward conversion changes them only when every field it reads parses. A backward conversion stores the number as soon as the field parses, and updates the label and the command only when the name can be printed. Resetting the state clears them, and an export radio button rewrites the command.

Files:

- `wrappers.dfy`: the `Option` type. A Python exception that the tool swallows becomes `None`.
- `text.dfy` (module `Text`): the parts of Python text handling the tool uses. These are `int()`, `str()`, `format(n, "02d")`, `replace("GPIO", "")`, `ord` and `chr`. The module also proves that `int(str(n)) == n`.
- `numbering.dfy` (module `Numbering`): descriptors, the two conversions and the name printer. It also models the parsing of the three forward fields and the ranges the combo boxes offer.
- `commands.dfy` (module `Commands`): the export modes and the command text.
- `calculator.dfy` (module `Calculator`): the class `GpioCalculator`. Its methods update the state in place, as the tool's methods do.

## Behaviour the code does not guard

Neither conversion checks a range, and the model keeps that behaviour:

- The Rockchip descriptor `GPIO1`, `Z`, `3` converts to 235 (`Numbering.ForwardExamples`).
- The i.MX number -1 decodes to `GPIO0_IO31` (`Numbering.BackwardExamples`).
- Decoding accepts every integer. Re-encoding the result gives that integer back (`Numbering.DecodeThenEncode`).
- Encoding then decoding gives back exactly the canonical descriptors, whatever their group (`Numbering.EncodeThenDecode`). A descriptor is canonical when its index, and a Rockchip port, lie in the range the modulo produces.

Within the digit limit noted under "## Left out", the conversions fail only in these cases:

- `int()` on text that is not an integer.
- `ord()` on a port text that is not exactly one character.
- `chr()` on an Allwinner port whose letter would not be a character.

## Model

| member | source | states |
|---|---|---|
| `Text.NatToString` | GpioCalculator.py:257 | `str(n)` of a non-negative n is a non-empty digit string without a leading zero whose decimal value is n |
| `Text.IntToString` | GpioCalculator.py:272 | `str(n)` is the numeral `NatToString(n)` for a non-negative n, and `-` followed by the numeral of `-n` for a negative one, so it never has a leading zero; it starts with `-` exactly when n is negative |
| `Text.ParseInt` | GpioCalculator.py:245 | `int(text)` succeeds exactly on an optional `+` or `-` followed by at least one digit; its value is the digits' decimal value, negated after `-`, leading zeros allowed |
| `Text.ParseIntExamples` | GpioCalculator.py:245 | `int("007")` is 7, `int("+5")` is 5, `int("-12")` is -12, and `"-"`, `"5a"` and the empty text raise |
| `Text.ParseIntToString` | GpioCalculator.py:264 | `int(str(n)) == n` for every integer n (no digit limit; see "## Left out") |
| `Text.IntToStringInjective` | GpioCalculator.py:257 | two integers with the same printed form are equal |
| `Text.ZeroPad2` | GpioCalculator.py:276 | `format(n, "02d")` has width at least 2, exactly 2 digits for 0..99, and parses back to n |
| `Text.RemoveGpio` | GpioCalculator.py:243 | `replace("GPIO", "")` never lengthens the text and leaves a text without `G` unchanged |
| `Text.RemoveGpioPrefix` | GpioCalculator.py:243 | a leading `GPIO` is deleted and the rest is treated as on its own |
| `Text.Ord` | GpioCalculator.py:244 | `ord(text)` succeeds exactly on one-character texts and gives a code point |
| `Text.Chr` | GpioCalculator.py:280 | `chr(cp)` succeeds exactly on code points a character can hold, and the character has that code point |
| `Text.OrdChr` | GpioCalculator.py:252 | `ord` and `chr` are inverse to each other |
| `Numbering.ToNumber` | GpioCalculator.py:246-254 | a descriptor in the decoded range lands in the 32-number bank of its group (i.MX counting from 1, Allwinner by port) at offset `port*8 + index` (Rockchip) or `index` |
| `Numbering.InRange` | GpioCalculator.py:195-209 | every descriptor the combo boxes offer is in the decoded range and encodes into 0..Span-1 |
| `Numbering.Span` | GpioCalculator.py:195-209 | the offered descriptors of a family cover a whole, non-zero number of 32-number banks |
| `Numbering.FromNumber` | GpioCalculator.py:268-279 | decoding keeps the family; a Rockchip port is in 0..3 with index 0..7; every index is in 0..31; a non-negative number gives a non-negative group or port (i.MX group at least 1); no upper bound |
| `Numbering.DecodeThenEncode` | GpioCalculator.py:242-280 | for every family and every integer n, re-encoding the decoded descriptor gives n |
| `Numbering.EncodeThenDecode` | GpioCalculator.py:242-280 | decoding an encoded descriptor gives it back if and only if its index (and a Rockchip port) lies in the decoded range; the group is unbounded |
| `Numbering.OfferedNumbers` | GpioCalculator.py:191-209 | the descriptors the combo boxes offer encode into 0..Span-1 (256, 256, 832) and decode back, and every number in that interval decodes to an offered descriptor |
| `Numbering.PortLetter` | GpioCalculator.py:272 | `chr(ord('A') + port)` succeeds exactly when that code point is a character, and reading the letter back as a port field gives the port |
| `Numbering.PinName` | GpioCalculator.py:268-280 | printing a name fails exactly when a Rockchip or Allwinner port letter is not a character |
| `Numbering.BackwardName` | GpioCalculator.py:262-282 | Rockchip and i.MX numbers always get a name; an Allwinner number gets one exactly when `chr(ord('A') + n // 32)` succeeds |
| `Numbering.NameFormats` | GpioCalculator.py:268-280 | the names are `"GPIO"+str(n//32)+"_"+L+str(n%8)` with L in A..D, `"GPIO"+str(n//32+1)+"_IO"+` a 2-digit index, and `"P"+L+str(n%32)` |
| `Numbering.RockchipNameInjective` | GpioCalculator.py:272 | two numbers with the same Rockchip name are equal |
| `Numbering.ImxNameInjective` | GpioCalculator.py:276 | two numbers with the same i.MX name are equal |
| `Numbering.AllwinnerNameInjective` | GpioCalculator.py:280 | two numbers with the same printed Allwinner name are equal |
| `Numbering.ParseGroup` | GpioCalculator.py:243 | the group field fails when empty and is read as a plain integer when it contains no `G` |
| `Numbering.ParsePort` | GpioCalculator.py:244 | the port field parses exactly when it is one character, and `chr(ord('A') + port)` gives that character back |
| `Numbering.ParsePin` | GpioCalculator.py:238-254 | the parsed descriptor has the selected family; it fails when the index does not parse, when a family that reads the port gets a text that is not one character, or when a family that reads the group gets a group that does not parse |
| `Numbering.ForwardNumber` | GpioCalculator.py:238-256 | the forward conversion succeeds exactly when the index parses, the port is one character (Rockchip, Allwinner) and the group parses (Rockchip, i.MX); the number decodes back to the entered descriptor whenever that is in the decoded range |
| `Numbering.ForwardFormulas` | GpioCalculator.py:242-254 | with parsed group g, port character c and index i the three families give `g*32+(c-'A')*8+i`, `(g-1)*32+i` and `(c-'A')*32+i`, with no range check |
| `Numbering.UnreadFields` | GpioCalculator.py:247-254 | i.MX ignores the port field and Allwinner ignores the group field |
| `Numbering.ParseGroupChoice` | GpioCalculator.py:195 | the group text `"GPIO"+str(g)` of a combo box parses to g |
| `Numbering.ParseChoices` | GpioCalculator.py:195-209 | the combo box texts of a descriptor parse back to that descriptor |
| `Numbering.BackwardThenForward` | GpioCalculator.py:242-280 | entering the decoded group, port and index of n in the forward fields gives back n, for every number that has a name |
| `Numbering.OfferedChoices` | GpioCalculator.py:191-209 | every offered combination converts to its number, below the family's span, and that number decodes back to it |
| `Numbering.ForwardExamples` | GpioCalculator.py:242-254 | `GPIO1`,`B`,`3` gives 43; `GPIO5`,`10` gives 138; `C`,`7` gives 71; Rockchip port `Z` is accepted and gives 235 |
| `Numbering.BackwardExamples` | GpioCalculator.py:268-280 | 43 is `GPIO1_B3`, 138 is `GPIO5_IO10`, 71 is `PC7`, i.MX -1 is `GPIO0_IO31` |
| `Commands.ModeNamed` | GpioCalculator.py:296-308 | the mode texts `export`, `export low` and `export high` select their own commands, each exactly for that text, and every other text selects the read-value command |
| `Commands.ExportLine` | GpioCalculator.py:296-297 | the first line carries the printed number, and it can be read back between the 5-character `echo ` and the 25-character ` > /sys/class/gpio/export` |
| `Commands.FollowUp` | GpioCalculator.py:298-312 | mode `export` adds nothing; every other mode adds a newline and one more line whose sysfs directory `gpio{n}` holds the same printed number, at the position its template gives |
| `Commands.CommandText` | GpioCalculator.py:296-312 | the command starts with the export line; it is exactly that line in mode `export`, and otherwise a newline follows it |
| `Commands.CommandInjective` | GpioCalculator.py:296-312 | the command text determines both the GPIO number and the mode |
| `Commands.CommandExample` | GpioCalculator.py:303-307 | 17 in mode `export high` gives `echo 17 > /sys/class/gpio/export` and `echo high > /sys/class/gpio/gpio17/direction` |
| `Calculator.GpioCalculator.Valid` | GpioCalculator.py:157-170 | the invariant every method keeps: the command box is empty while no number is resolved |
| `Calculator.GpioCalculator.constructor` | GpioCalculator.py:43-53 | the variables as `create_vars` creates them: i.MX, empty fields, mode `export`, no resolved number, empty command and labels |
| `Calculator.GpioCalculator.ResetState` | GpioCalculator.py:157-170 | clears the fields, the labels and the command, forgets the number and selects `export`; the family is kept; like every method it keeps the invariant that the command box is empty while no number is resolved |
| `Calculator.GpioCalculator.UpdateExportCmd` | GpioCalculator.py:289-317 | without a resolved number the command is unchanged; otherwise it becomes the command of that number and mode; nothing else changes |
| `Calculator.GpioCalculator.SelectExportMode` | GpioCalculator.py:130-135 | an export radio button stores the mode and refreshes the command for it |
| `Calculator.GpioCalculator.CalcForward` | GpioCalculator.py:238-260 | if the fields do not parse, nothing changes; otherwise the number, the `GPIO = n` label and the command are updated |
| `Calculator.GpioCalculator.CalcBackward` | GpioCalculator.py:262-285 | if the field does not parse, nothing changes; otherwise the number is stored at once, and the label and the command follow only when the name can be printed |

## Left out

- The tkinter user interface is not modelled: frames, combo boxes, radio-button layout, `pack`, labels as widgets, `mainloop` and the footer. The labels and the command box are modelled only as the text they hold.
- `update_calc_mode` and the sequence inside `update_soc_ui` are not modelled. That sequence is: reset, pick the first offered value of each combo box, and fill in `0` in backward mode. Both are widget plumbing. The ranges the combo boxes offer are modelled as `Numbering.InRange`.
- `set_first_valid_values` is not modelled, because it reads widget value lists.
- The trace callbacks are not modelled. In the tool, writing a field calls `calc_forward` or `calc_backward`. `ResetState` therefore skips the conversions that the tool fires while clearing the fields. Those conversions cannot change the final state, because `reset_state` overwrites everything they write.
- `copy_cmd` is not modelled: it is a clipboard call.
- The constructor stops where `create_vars` stops. `__init__` then runs `update_soc_ui` and `update_calc_mode`, which fill in the first offered values; for i.MX the tool therefore starts showing number 0 and its command. That sequence is the unmodelled widget plumbing above.
- The digit limit of Python 3.11 and later is not modelled: `int()` raises on a text of more than 4300 digits, and `str(n)` and f-strings raise for such an n. `Text.ParseInt`, `Text.IntToString` and the conversions are unbounded. In `calc_forward` such a failure would come from the label after the number has been stored.
- `resource_path` and the icon loading are not modelled: they are file-system and packaging concerns.
- The SoC family and the export mode are enumerations. The tool dispatches on strings, and its `else` branches are kept: any other family name is Allwinner, and `Commands.ModeNamed` maps any other mode text to the read-value command.
- `Text.ParseInt` does not model all of Python's `int()`. It does not strip whitespace, and it rejects underscores between digits and non-ASCII digits. The tool would accept all three.
- `Text.Chr` treats the surrogate code points 0xD800..0xDFFF as a failure. A Dafny `char` cannot hold them, whereas Python's `chr` returns a lone surrogate. These are Allwinner numbers from about 1.77 million.
