# DigitalDreamscape console game loop, modelled in Dafny

`main.py` of DigitalDreamscape builds a fresh session in `initialize_game`:
a `GameState` whose inventory is `["Health Potion", "Shield"]` and whose mission
progress is 0, and a player `Character` named "Victor" with health 100 and the
abilities `["laser_eyes", "super_strength"]`. `game_loop` then repeats one turn
while its local flag `running` is set. Each turn reads a line, strips the
whitespace around it, and takes one of three branches:

- `'1'` adds 10 to the mission progress. Once progress is at least 100, the loop stops.
- `'q'` stops the loop.
- Anything else changes nothing.

The model has two modules:

- `PyString` (`pystring.dfy`) models Python's `str.strip()` with no argument.
  It removes every leading and trailing character for which `str.isspace()`
  holds. Trimming is defined over any set of characters to remove, as
  Python's `strip(chars)` allows. `Strip` is the whitespace instance. The
  module proves what `strip()` keeps and removes, and that surrounding
  whitespace never changes its result.
- `Game` (`game.dfy`) has two parts:
  - The imperative part follows the source. `GameState` is a class with the
    two fields `main.py` writes. `InitializeGame` builds the session. `Turn`
    is the branching of the loop body (main.py:49-59) on the stripped line: it
    updates the state in place and returns the new `running`. `GameLoop` is the
    `while running:` loop over a sequence of input lines. It strips each line,
    as main.py:47 does, before handing it to `Turn`.
  - The specification part is a pure step function `Next` on a `Snapshot`
    (progress, running, inventory, player), applied to the stripped line. The
    whole loop is `RunFrom`. Lemmas about the loop show that progress stays a
    multiple of ten, is at most 100, and is below 100 while running. From a
    fresh start at most ten `'1'` lines are read; with no `'q'`, the loop ends
    exactly on the tenth `'1'` with progress 100.

main.py reads and writes no running field on `GameState`. Its loop flag is the
local `running` (main.py:38), so the model's `GameState` holds only `inventory`
and `missionProgress`, and `Turn` takes `running` in and returns it. The player
is only read by `main.py`, so `Character` is a datatype.

Two further points about main.py:

- main.py does not clamp progress: it adds 10 (main.py:51) and then compares with `>= 100` (main.py:52).
- main.py recognises only `'1'` and `'q'` (main.py:49, 55). Every other line takes the `else` branch (main.py:58-59).

## Model

| member | source | states |
|---|---|---|
| `PyString.IsSpace` | main.py:47 | a character is whitespace exactly when it is in the set Python's `str.isspace()` accepts: TAB..CR, FS..US, SPACE, NEL, NBSP, U+1680, U+2000..U+200A, U+2028, U+2029, U+202F, U+205F and U+3000 |
| `PyString.AsciiSpace` | main.py:47 | among ASCII characters, exactly TAB, LF, VT, FF, CR, FS, GS, RS, US and SPACE are whitespace |
| `PyString.TrimLeft` | main.py:47 | the result is a suffix of the line that is empty or starts with a character not to be removed |
| `PyString.TrimRight` | main.py:47 | the result is a prefix of the line that is empty or ends with a character not to be removed |
| `PyString.TrimLeftRemoves` | main.py:47 | everything `lstrip` drops is a character to be removed |
| `PyString.TrimRightRemoves` | main.py:47 | everything `rstrip` drops is a character to be removed |
| `PyString.TrimLeftAll` | main.py:47 | a line made only of characters to be removed strips to the empty string |
| `PyString.StripChars` | main.py:47 | the stripped line is no longer than the input, and is empty or starts and ends with a character not to be removed |
| `PyString.StripCharsRemovesBorder` | main.py:47 | the stripped line is a contiguous piece of the input, with only removed characters on either side of it |
| `PyString.StripCharsIgnoresSurrounding` | main.py:47 | adding removable characters before and after a line does not change the stripped result |
| `PyString.Strip` | main.py:47 | the line after `strip()` is no longer than the input, and is empty or starts and ends with a non-space character |
| `PyString.StripRemovesBorder` | main.py:47 | the line after `strip()` is a contiguous piece of the input, with only whitespace on either side of it |
| `PyString.StripIgnoresSurroundingSpace` | main.py:47 | adding whitespace before and after a line does not change what `strip()` returns |
| `Game.GameState.constructor` | main.py:20 | a new game state starts with an empty inventory and zero progress |
| `Game.InitializeGame` | main.py:16-30 | a fresh state holds inventory `["Health Potion", "Shield"]` and progress 0, and the player is "Victor" with health 100 and abilities `["laser_eyes", "super_strength"]` |
| `Game.Fresh` | main.py:36-38 | the session when the loop starts: running, progress 0 and inside the loop invariant, with the starting inventory and player |
| `Game.Commands` | main.py:47 | one command per input line read, each being that line after `strip()` |
| `Game.Next` | main.py:49-59 | `'1'` adds exactly 10 with no clamping and stops the loop exactly when the new progress is at least 100; `'q'` stops the loop and keeps progress; any other command changes nothing; inventory and player are never changed |
| `Game.Turn` | main.py:49-59 | the branches of the loop body on the stripped line update the game state in place and return the new running flag, exactly as `Next` does |
| `Game.RunFrom` | main.py:38-59 | the loop reads no more lines than given and stops early only when no longer running; a stopped session is left unchanged; progress never decreases; inventory and player are preserved |
| `Game.GameLoop` | main.py:35-62 | starting from `initialize_game` and stripping each line read, the loop ends in the state `RunFrom` gives for the stripped lines; progress is then a multiple of 10, at most 100 and below 100 if still running; progress is 10 per `'1'` read, and at most ten `'1'` are read |
| `Game.NextKeepsInPlay` | main.py:49-57 | a turn taken while running keeps progress a multiple of 10 and at most 100, and below 100 if still running |
| `Game.RunKeepsInPlay` | main.py:38-59 | the whole loop keeps that invariant |
| `Game.RunProgress` | main.py:49-51 | the progress the loop adds is exactly 10 per `'1'` command it read |
| `Game.FreshRunBounds` | main.py:26-54 | from a fresh session, at most ten `'1'` commands are read; progress is 10 times their number; progress is 100 exactly when ten were read, and then the loop has stopped |
| `Game.CompletingTurn` | main.py:49-54 | a turn that is not `'q'` and stops a session holding the invariant is a `'1'` taken at progress 90, which brings progress to exactly 100 |
| `Game.RunCompletes` | main.py:38-57 | without `'q'`, a running session sent enough `'1'` commands ends on the `'1'` that brings progress to exactly 100 |
| `Game.FreshCompletesOnTenth` | main.py:26-54 | from a fresh session with no `'q'`, the loop ends on the tenth `'1'`, with progress 100 and running false |
| `Game.NextIgnoresSurroundingSpace` | main.py:47 | whitespace around an input line does not change the turn |
| `Game.InvalidCommandSkipped` | main.py:58-59 | an unrecognised command is skipped: the run continues as if it were absent, one line later |

## Left out

- Console output: the status lines, prompt and messages (main.py:17, 29, 40-44, 53, 56, 59) are not modelled.
- `input()` is not modelled: the typed lines are a `seq<string>` passed to `GameLoop`.
- End of input: the source does not handle `EOFError`. `GameLoop` simply stops when the sequence is exhausted, and this claims nothing about the source.
- `time.sleep(1)` (main.py:62) is pacing only and is not modelled.
- `game_core/state.py` and `game_core/character.py` are not part of this model. Only the fields `main.py` touches are modelled. The `GameState` constructor's defaults (empty inventory, zero progress) are assumed; `initialize_game` overwrites both.
- The `__main__` entry point (main.py:67-68) is not modelled.
- `PyString.IsSpace` covers the characters Python's `str.isspace()` accepts. Dafny `char` values are Unicode scalar values, so lone surrogates, which a Python `str` can hold, are not represented.
