# Simple Calculator: a Dafny model of its history ledger and command loop

`calculator.py` is a command-line calculator. A `Calculator` object keeps a
history of `(label, result)` pairs. Its seven operations are add, subtract,
multiply, divide, power, square root and sine in degrees. Each appends one
entry when it succeeds. `show_history` lists the last ten entries, numbered
from 1. `clear_history` empties the history. The `main` loop reads one line at
a time, classifies it and dispatches it:

- a quit word, `history` or `clear`, after strip and lower-casing;
- then a `√` prefix;
- then a `sin(` prefix;
- then the three-token form `a op b`.

Errors are reported and the loop reads on.

The model has four modules:

- `Numbers` (`numbers.dfy`)
  - Numbers are Dafny `real`s.
  - `math.pow`, `math.sqrt`, the sine in degrees and Python's `float()`
    parser are the fields of a `MathLib` value, passed as a parameter.
  - `math.pow` may return a value, raise `ValueError` (`DomainFault`) or
    raise `OverflowError` (`RangeFault`).
- `Text` (`text.dfy`): the string handling the loop relies on.
  - `str.strip()` and `str.split()`, over Python's whitespace set.
  - Lower-casing.
  - The `×`/`÷` rewrite.
- `Ledger` (`ledger.dfy`): the `Calculator` class.
  - The mutable list becomes an immutable `History` sequence.
  - Each operation returns the extended history, or fails and returns no
    history.
- `Repl` (`repl.dfy`): the body of the `while True` loop.
  - `Step` is a pure function from (history, line) to (new history, outcome).
  - `Loop`/`Run` fold `Step` over a sequence of input lines.
  - `StepAsWritten`/`RunAsWritten` keep the source's handler, which does not
    catch `OverflowError` (see Findings).

Two behaviours of the code are modelled as written, though a reader might
expect otherwise:

- The `sin(` branch takes `expr[4:-1]`. It drops the last character whatever
  it is, so `sin(30` computes the sine of 3 degrees (`UnclosedSineDropsLastDigit`).
- `math.pow` can raise `OverflowError`, which the loop does not catch.

## Model

| member | source | states |
|---|---|---|
| Ledger.Add | calculator.py:15-18 | The result is `a + b`. The history gains exactly one entry at the end, labelled with the sum of `a` and `b` and holding the result. The earlier entries are unchanged. |
| Ledger.Subtract | calculator.py:20-23 | The result plus `b` gives back `a`. Exactly one `a - b` entry is appended after the unchanged history. |
| Ledger.Multiply | calculator.py:25-28 | The result is `a * b`. Exactly one product entry is appended after the unchanged history. |
| Ledger.Divide | calculator.py:30-35 | Fails exactly when `b == 0`, with a division-by-zero error and no history. Otherwise the result times `b` gives back `a`, and exactly one quotient entry is appended. |
| Ledger.Power | calculator.py:37-40 | Succeeds exactly when `math.pow` returns a value, and then appends exactly one power entry holding that value. A `ValueError` from `math.pow` becomes a domain error; an `OverflowError` becomes a range error. Nothing is recorded on failure. |
| Ledger.Sqrt | calculator.py:42-47 | Fails exactly when `a < 0`, with the negative-root error and nothing recorded. Otherwise appends exactly one root entry holding `math.sqrt(a)`. |
| Ledger.Sin | calculator.py:49-52 | Always succeeds. Appends exactly one sine entry holding the sine of `a` degrees. |
| Ledger.Apply | calculator.py:15-52 | Dispatches to the `Calculator` method its operation names: the result of an `AddOp` is exactly `add`'s, and so on for all seven. Every operation, on success, appends exactly one entry labelled by that operation, after the unchanged history. It fails exactly when its own guard trips: a zero divisor, a negative root, or a failing `math.pow`. It fails only with those errors, and with a range error only for an overflowing `math.pow`. |
| Ledger.TwoOperationsInOrder | calculator.py:15-52 | After two successful operations, the history is the original followed by both entries in call order. |
| Ledger.Window | calculator.py:60 | `history[-10:]` has `min(n, 10)` entries. Its `i`-th entry is entry `n - len + i` of the history, so order is kept and the window ends with the latest entry. |
| Ledger.ShowHistory | calculator.py:54-62 | Shows the "No calculations yet!" notice exactly when the history is empty. Otherwise it lists `min(n, 10)` rows. The row numbered `i + 1` holds history entry `n - k + i`, where `k` is the number of rows. |
| Ledger.ClearHistory | calculator.py:64-65 | The history is empty afterwards. |
| Ledger.ClearThenShowNothing | calculator.py:54-65 | After `clear_history`, `show_history` shows the "No calculations yet!" notice. |
| Ledger.ListingIsBounded | calculator.py:60-61 | With at least ten entries, exactly ten rows are listed. The first row holds entry `n - 10` and the tenth holds the latest entry. |
| Text.Strip | calculator.py:76 | The result neither starts nor ends with whitespace. It is a slice of the line with only whitespace before and after it. |
| Text.StripRemovesMargins | calculator.py:76 | Any whitespace around a core without whitespace ends is removed, leaving exactly that core. |
| Text.StripIdempotent | calculator.py:76 | Stripping twice is stripping once. |
| Text.IsSpace | calculator.py:102 | Python's `str.isspace` set, which `strip()` (calculator.py:76) and `split()` both use: the ASCII controls 9-13 and 28-31, the space, U+0085, U+00A0, U+1680, U+2000-U+200A, U+2028, U+2029, U+202F, U+205F and U+3000. |
| Text.Lower | calculator.py:78 | Same length, and each character is lower-cased on its own. Its partner is `Text.LowerMatchesIgnoringCase`. |
| Text.LowerMatchesIgnoringCase | calculator.py:78-86 | For a lower-case ASCII word `w`, `s.lower() == w` exactly when `s` spells `w` with each letter in either case. Nothing else lower-cases to a command word. |
| Text.ReplaceGlyphs | calculator.py:102 | Same length, and each `×` becomes `*` and each `÷` becomes `/` while every other character is kept. No `×` or `÷` remains afterwards. |
| Text.ReplaceGlyphsConcat | calculator.py:102 | The rewrite works character by character: rewriting a concatenation is concatenating the rewrites. |
| Text.ReplaceGlyphsOfToken | calculator.py:102 | The rewrite never introduces whitespace, so a token stays a token and `split()` sees the same word boundaries. |
| Text.Split | calculator.py:102 | Every word `split()` returns is non-empty and contains no whitespace. |
| Text.SplitKeepsNonSpace | calculator.py:102 | The words, concatenated, are exactly the non-whitespace characters of the line, in order. |
| Text.SplitJoinWords | calculator.py:102 | Round trip: splitting tokens joined by single spaces returns the same tokens. |
| Text.SplitSkipsLeadingSpace | calculator.py:102 | Leading whitespace does not change the split. |
| Text.SplitThreeTokens | calculator.py:102-104 | `a op b` written with single spaces splits into exactly `[a, op, b]`. |
| Repl.SineArgument | calculator.py:96 | `expr[4:-1]`: the line is `sin(` + the argument + one final character, whatever that character is. The argument is empty when the line is just `sin(`. |
| Repl.Operation | calculator.py:107-111 | The operator token selects the operation on `(a, b)` in the order given: add exactly for `+`, subtract exactly for `-`, multiply exactly for `*`, divide exactly for `/` and power exactly for `^`. |
| Repl.Binary | calculator.py:104-112 | A number error occurs exactly when either operand fails to parse. An unknown-operator error occurs exactly when both parse and the operator is not one of `+ - * / ^`. A range error occurs exactly for `^` with an overflowing `math.pow`. When both operands parse and the operator is known, the result is exactly what the selected `Calculator` method returns on the parsed operands. |
| Repl.Evaluate | calculator.py:90-116 | The format hint occurs exactly when the line starts with neither `√` nor `sin(` and does not split into three tokens. A success appends exactly one entry. |
| Repl.Step | calculator.py:76-119 | A quit word, `history` and `clear` are recognised on the stripped, lower-cased line; each of these holds if and only if that outcome is produced. `history` shows `show_history` of the current history, and `clear` empties it. A success grows the history by one entry holding the result and keeps the old entries in front. Every other outcome leaves the history unchanged. No line ends the session abnormally. |
| Repl.OnlyPowerOverflows | calculator.py:102-119 | A line is reported as a range error exactly when it reaches `math.pow` through the three-token branch and `math.pow` overflows. |
| Repl.StepAsWritten | calculator.py:74-122 | Behaves as `Step` on every line except an overflowing `math.pow`. That line, and only that line, escapes the `except ValueError` handler and aborts the session, with the history unchanged. |
| Repl.Loop | calculator.py:74-122 | The loop consumes at most one outcome per line. Only the last outcome may stop it. It is still running exactly when every line was consumed and none stopped it. With no input it is the running session on the history it was given, with an empty transcript. From there, `Repl.LoopStepsOnce` and `Repl.LoopIgnoresInputAfterStop` fix what it produces on every input. |
| Repl.LoopStepsOnce | calculator.py:74-119 | A running session given one more line runs the body on that line from the history reached so far. It appends the body's outcome to the transcript, takes the body's history, and keeps running exactly when the outcome is not a stop. |
| Repl.LoopOutcomesHold | calculator.py:74-119 | Any property that every call of the body gives its outcome holds for every outcome in the transcript. |
| Repl.RunAsWritten | calculator.py:74-122 | The source's loop over the lines given. The only line that aborts it is one whose `math.pow` overflows. The session has stopped exactly when its last outcome is a quit or that abort. |
| Repl.Run | calculator.py:74-122 | The corrected loop. No line aborts it, and the session has stopped exactly when its last outcome is a quit. |
| Repl.LoopIgnoresInputAfterStop | calculator.py:78-80 | Once the loop has stopped, no further input changes the session. |
| Repl.RunCountsSuccesses | calculator.py:74-119 | Without a `clear`, the session's history is the original followed by one entry per successful line. After a quit, later input is ignored. |
| Repl.QuitEndsSession | calculator.py:78-80 | A quit word, however padded or capitalised, ends the session at once: the history is kept and nothing after it is read. This holds with and without the fix. |
| Repl.CommandInAnyCase | calculator.py:78-88 | A line is the command word `w` exactly when, once stripped, it spells `w` in any mix of cases. It then quits, lists the current history, or clears it. |
| Repl.ClearThenHistoryShowsNothing | calculator.py:82-88 | `clear` followed by `history` lists the "No calculations yet!" notice. |
| Repl.RootLineNeverTokenized | calculator.py:90-93 | A `√` line never reaches the three-token branch. A number error occurs exactly when `float(expr[1:])` fails. A negative-root error occurs exactly when it parses to a negative number. Otherwise the line records `RootOf` of the parsed number, holding its `math.sqrt`, and reports that value. |
| Repl.SineLineNeverTokenized | calculator.py:95-98 | A `sin(` line never reaches the three-token branch. It succeeds exactly when `expr[4:-1]` parses, and gives a number error otherwise. A success records `SineOf` the parsed number, holding its sine in degrees, and reports that value. |
| Repl.FormatHintUnlessThreeTokens | calculator.py:100-116 | For a line that is not a command or a unary prefix: the format hint appears exactly when the glyph-rewritten line does not split into three tokens, and the history is then unchanged. |
| Repl.OperandsThenOperator | calculator.py:102-112 | With three tokens, a number error occurs exactly when an operand fails to parse, even if the operator is bad too. An unknown-operator error occurs exactly when both parse and the operator is not one of the five. Errors leave the history unchanged. |
| Repl.DivisionByZeroAtPrompt | calculator.py:102-119 | A three-token `/` line whose divisor parses to 0 reports a division by zero and leaves the history as it was. |
| Repl.BinaryRecordsItsOperation | calculator.py:102-114 | A successful three-token line appends exactly the entry of the operation its operator selects, on the parsed operands. The value it reports and records is that operation's result. |
| Repl.OperatorLineSteps | calculator.py:102-114 | A three-token line with numeric operands and a known operator does exactly what the selected `Calculator` method does. Its success gives the line's value and new history. Its error is the line's error, with the history kept. |
| Repl.ThreeTokenLine | calculator.py:100-104 | `x op y` with single spaces reaches the three-token branch with the tokens `x`, the glyph-rewritten `op`, and `y`. This needs operands free of `×`/`÷` and an `x` that does not start with `√` or `sin(`. |
| Repl.AdditionAtPrompt | calculator.py:102-114 | `x + y` with numeric operands records the sum and reports it. |
| Repl.SubtractionAtPrompt | calculator.py:102-114 | `x - y` with numeric operands records the difference `a - b` and reports it. |
| Repl.ProductGlyphAtPrompt | calculator.py:102-114 | `x × y` is read as `x * y`: it records the product `a * b` and reports it. |
| Repl.QuotientGlyphAtPrompt | calculator.py:102-114 | `x ÷ y` is read as `x / y`. A divisor of 0 is reported as a division by zero with the history kept. Any other divisor records the quotient `a / b`. |
| Repl.PowerAtPrompt | calculator.py:102-114 | `x ^ y` records what `math.pow` returns. A `ValueError` or an `OverflowError` is reported as a domain or range error, and the history is kept. |
| Repl.DivisionByZeroKeepsSession | calculator.py:74-119 | `x / y` with `y` parsing to 0 is reported as a division by zero. The session then goes on with the next line and the same history. |
| Repl.RootScenario | calculator.py:90-93 | `√16` records the square root of 16. |
| Repl.SineScenario | calculator.py:95-98 | `sin(30)` records the sine of 30 degrees. |
| Repl.UnclosedSineDropsLastDigit | calculator.py:96 | `sin(30` records the sine of 3 degrees. |
| Repl.PowerOverflowAbortsAsWritten | calculator.py:102-119 | As written, a three-token `^` line whose `math.pow` overflows ends the whole session. Nothing after it is read. |
| Repl.PowerOverflowReported | calculator.py:102-119 | With the corrected handler, the same line is reported as a range error with the history untouched, and the session goes on. |
| Repl.TenToTheFourHundred | calculator.py:102-119 | For `10 ^ 400`, with `math.pow(10.0, 400.0)` overflowing: the session ends as written, and the corrected loop reports the error, keeps the history and reads on. |

## Left out

- Terminal I/O is not modelled. That covers `input`, every `print`, the banner and emoji strings, and the `:.4f` rendering of results. `Outcome` names which message would be printed.
- `KeyboardInterrupt` (calculator.py:120-122) is not modelled. It is an asynchronous signal.
- End of input is not modelled. At end of input, `input()` (calculator.py:76) raises `EOFError`, which escapes both handlers and ends `main`. `Loop`, `Run` and `RunAsWritten` model an input that has not ended, so a session still running is one waiting for more lines.
- IEEE floating point is not modelled: numbers are exact reals, with no NaN, infinities, signed zero or rounding. The division-by-zero and negative-root guards are modelled exactly.
- `math.pow`, `math.sqrt`, `math.sin`/`math.radians` and `float()` are uninterpreted fields of `MathLib`. Properties of their values, such as `sqrt(a)^2 ≈ a`, are not stated. `float()` is not assumed to reject the empty string, so `√` and `sin(` with no argument depend on what `parse` returns.
- Labels carry the operation and its operands, not Python's float-to-text form (`5.0 + 3.0`).
- Text.Lower: ASCII case folding only. `str.lower()` also maps non-ASCII letters, but no other character lower-cases to the quit words, `history` or `clear`, so the commands recognised are the same.
- Repl.TenToTheFourHundred: the operands are any tokens that parse to 10 and 400, rather than the literal text `10 ^ 400`. `float()` is uninterpreted in the model, so it is the parse results that matter.
- The unused `os` import and the `if __name__ == "__main__"` entry point are not modelled.

## Findings

| source | as written | input that shows it | evidently intended | confidence | as-written member | corrected member |
|---|---|---|---|---|---|---|
| calculator.py:37-40 | `power` calls `math.pow`, which raises `OverflowError` when the result is too large for a float. The loop catches only `ValueError` (calculator.py:118), so the exception escapes `main` and the program stops with a traceback. | `10 ^ 400` | Report the failure like the other arithmetic errors and keep reading lines. | not executed | Repl.StepAsWritten, Repl.PowerOverflowAbortsAsWritten | Repl.Step, Repl.PowerOverflowReported |
