/** The body of `main`'s read-evaluate-print loop as a pure step function:
    one input line and the current history in, the new history and what
    the line produced out. Printing is left to the caller; `Outcome` says
    which message would be printed and with what. */
module Repl {
  import opened Numbers
  import opened Text
  import opened Ledger

  /** What one line produces. */
  datatype Outcome =
    | Quit                      // "quit", "exit" or "q": the loop ends
    | Listed(view: HistoryView) // "history"
    | Cleared                   // "clear"
    | Ok(value: real)           // an operation succeeded with this result
    | FormatHint                // not three tokens: the usage hint
    | Error(kind: ErrorKind)    // a ValueError caught by the loop's handler
    | Aborted(kind: ErrorKind)  // an exception no handler catches: the program ends

  datatype StepResult = StepResult(history: History, outcome: Outcome)

  /** The line as the command checks see it: `expr.strip().lower()`. */
  function Normalized(line: string): string {
    Lower(Strip(line))
  }

  predicate IsQuitWord(c: string) {
    c == "quit" || c == "exit" || c == "q"
  }

  predicate IsCommand(line: string) {
    var c := Normalized(line);
    IsQuitWord(c) || c == "history" || c == "clear"
  }

  /** `expr[4:-1]` on a line that starts with "sin(": the four-character
      prefix and the final character are dropped, whatever that final
      character is. */
  function SineArgument(e: string): (arg: string)
    requires StartsWith(e, "sin(")
    ensures |e| == 4 ==> arg == []
    ensures |e| > 4 ==> e == "sin(" + arg + [e[|e| - 1]]
  {
    if |e| > 4 then e[4..|e| - 1] else []
  }

  predicate IsOperator(op: string) {
    op == "+" || op == "-" || op == "*" || op == "/" || op == "^"
  }

  /** The operation an operator token selects. */
  function Operation(op: string, a: real, b: real): (o: Op)
    requires IsOperator(op)
    ensures o.a == a && (o.AddOp? || o.SubtractOp? || o.MultiplyOp? || o.DivideOp? || o.PowerOp?)
    ensures o.b == b
    ensures o.AddOp? <==> op == "+"
    ensures o.SubtractOp? <==> op == "-"
    ensures o.MultiplyOp? <==> op == "*"
    ensures o.DivideOp? <==> op == "/"
    ensures o.PowerOp? <==> op == "^"
  {
    if op == "+" then AddOp(a, b)
    else if op == "-" then SubtractOp(a, b)
    else if op == "*" then MultiplyOp(a, b)
    else if op == "/" then DivideOp(a, b)
    else PowerOp(a, b)
  }

  /** `a, op, b = parts`: both operands are parsed before the operator is
      looked at, so a bad operand is reported even when the operator is
      unknown too. */
  function Binary(lib: MathLib, h: History, x: string, op: string, y: string): (r: OpResult)
    ensures (r.Failed? && r.error == InvalidNumber) <==> (lib.parse(x).None? || lib.parse(y).None?)
    ensures (r.Failed? && r.error == UnknownOperator) <==>
              (lib.parse(x).Some? && lib.parse(y).Some? && !IsOperator(op))
    ensures (r.Failed? && r.error == MathRange) <==>
              && lib.parse(x).Some? && lib.parse(y).Some? && op == "^"
              && lib.pow(lib.parse(x).value, lib.parse(y).value).RangeFault?
    ensures r.Done? ==>
              && lib.parse(x).Some? && lib.parse(y).Some? && IsOperator(op)
              && AppendsOne(h, r.history,
                   Entry(LabelOf(Operation(op, lib.parse(x).value, lib.parse(y).value)), r.value))
    ensures lib.parse(x).Some? && lib.parse(y).Some? && IsOperator(op) ==>
              r == Apply(lib, h, Operation(op, lib.parse(x).value, lib.parse(y).value))
  {
    match (lib.parse(x), lib.parse(y))
    case (Some(a), Some(b)) =>
      if IsOperator(op) then Apply(lib, h, Operation(op, a, b)) else Failed(UnknownOperator)
    case _ => Failed(InvalidNumber)
  }

  /** The arithmetic part of a stripped line that is not a command: the `√`
      prefix is tried first, then `sin(`, then the three-token form. `None`
      is the format hint. */
  function Evaluate(lib: MathLib, h: History, e: string): (r: Option<OpResult>)
    ensures r.None? <==>
              !StartsWith(e, "√") && !StartsWith(e, "sin(") && |Split(ReplaceGlyphs(e))| != 3
    ensures r.Some? && r.value.Done? ==>
              exists l: Label :: AppendsOne(h, r.value.history, Entry(l, r.value.value))
  {
    if StartsWith(e, "√") then
      Some(match lib.parse(e[1..])
           case None => Failed(InvalidNumber)
           case Some(a) => Apply(lib, h, SqrtOp(a)))
    else if StartsWith(e, "sin(") then
      Some(match lib.parse(SineArgument(e))
           case None => Failed(InvalidNumber)
           case Some(a) => Apply(lib, h, SinOp(a)))
    else
      var ws := Split(ReplaceGlyphs(e));
      if |ws| != 3 then None else Some(Binary(lib, h, ws[0], ws[1], ws[2]))
  }

  /** One pass of the loop. The commands are recognised on the stripped,
      lower-cased line before any arithmetic is attempted; only a success
      changes the history (by one entry at the end), only "clear" empties
      it, and every error the line can cause is reported and leaves it as
      it was. */
  function Step(lib: MathLib, h: History, line: string): (s: StepResult)
    ensures IsQuitWord(Normalized(line)) <==> s.outcome.Quit?
    ensures Normalized(line) == "history" <==> s.outcome.Listed?
    ensures Normalized(line) == "clear" <==> s.outcome.Cleared?
    ensures s.outcome.Listed? ==> s.outcome.view == ShowHistory(h)
    ensures s.outcome.Cleared? ==> s.history == []
    ensures s.outcome.Ok? ==>
              && |s.history| == |h| + 1 && s.history[..|h|] == h
              && s.history[|h|].result == s.outcome.value
    ensures !s.outcome.Ok? && !s.outcome.Cleared? ==> s.history == h
    ensures !s.outcome.Aborted?
  {
    var e := Strip(line);
    var c := Lower(e);
    if IsQuitWord(c) then StepResult(h, Quit)
    else if c == "history" then StepResult(h, Listed(ShowHistory(h)))
    else if c == "clear" then StepResult(ClearHistory(h), Cleared)
    else
      match Evaluate(lib, h, e)
      case None => StepResult(h, FormatHint)
      case Some(Done(h', v)) => StepResult(h', Ok(v))
      case Some(Failed(k)) => StepResult(h, Error(k))
  }

  /** A line the three-token branch takes to `math.pow` and on which
      `math.pow` overflows. */
  predicate OverflowingPower(lib: MathLib, line: string) {
    var e := Strip(line);
    var ws := Split(ReplaceGlyphs(e));
    && !IsCommand(line) && !StartsWith(e, "√") && !StartsWith(e, "sin(")
    && |ws| == 3 && ws[1] == "^"
    && lib.parse(ws[0]).Some? && lib.parse(ws[2]).Some?
    && lib.pow(lib.parse(ws[0]).value, lib.parse(ws[2]).value).RangeFault?
  }

  /** The only way a line is reported as a range error is an overflowing
      `math.pow` in the three-token branch. */
  lemma OnlyPowerOverflows(lib: MathLib, h: History, line: string)
    ensures Step(lib, h, line).outcome == Error(MathRange) <==> OverflowingPower(lib, line)
  {
    var e := Strip(line);
    if !IsCommand(line) && !StartsWith(e, "√") && !StartsWith(e, "sin(") {
      var ws := Split(ReplaceGlyphs(e));
      if |ws| == 3 {
        assert Evaluate(lib, h, e) == Some(Binary(lib, h, ws[0], ws[1], ws[2]));
      }
    }
  }

  /** The loop body as the source has it: the handler is
      `except ValueError`, and the `OverflowError` that `math.pow` raises is
      not a `ValueError`, so it escapes the loop and ends the program.
      Everywhere else it behaves as `Step`. */
  function StepAsWritten(lib: MathLib, h: History, line: string): (s: StepResult)
    ensures s.outcome.Aborted? <==> OverflowingPower(lib, line)
    ensures s.outcome.Aborted? ==> s.outcome.kind == MathRange && s.history == h
    ensures !s.outcome.Aborted? ==> s == Step(lib, h, line)
  {
    OnlyPowerOverflows(lib, h, line);
    var s := Step(lib, h, line);
    if s.outcome == Error(MathRange) then StepResult(h, Aborted(MathRange)) else s
  }

  /** The state of a session after a sequence of lines: the history, what
      each consumed line produced, and whether the loop is still waiting
      for input. */
  datatype Session = Session(history: History, transcript: seq<Outcome>, running: bool)

  /** A line that ends the loop: a quit command, or an exception that
      escapes the handler. */
  predicate Stops(o: Outcome) {
    o.Quit? || o.Aborted?
  }

  /** The `while True` loop over the given input lines, for a given loop
      body. It stops at the first line that ends the loop and reads nothing
      after it. */
  function Loop(body: (History, string) -> StepResult, h: History, lines: seq<string>): (s: Session)
    ensures |s.transcript| <= |lines|
    ensures forall k :: 0 <= k < |s.transcript| - 1 ==> !Stops(s.transcript[k])
    ensures s.running <==>
              |s.transcript| == |lines| && (s.transcript == [] || !Stops(s.transcript[|s.transcript| - 1]))
    ensures !s.running ==> s.transcript != [] && Stops(s.transcript[|s.transcript| - 1])
    ensures lines == [] ==> s == Session(h, [], true)
    decreases |lines|
  {
    if lines == [] then Session(h, [], true)
    else
      var first := body(h, lines[0]);
      if Stops(first.outcome) then Session(first.history, [first.outcome], false)
      else
        var rest := Loop(body, first.history, lines[1..]);
        Session(rest.history, [first.outcome] + rest.transcript, rest.running)
  }

  /** Whatever every call of the loop body guarantees about its outcome
      holds for every outcome in the transcript. */
  lemma {:induction false} LoopOutcomesHold(
    body: (History, string) -> StepResult, h: History, lines: seq<string>, P: Outcome -> bool)
    requires forall h': History, line: string :: P(body(h', line).outcome)
    ensures forall k :: 0 <= k < |Loop(body, h, lines).transcript| ==> P(Loop(body, h, lines).transcript[k])
    decreases |lines|
  {
    if lines != [] {
      var first := body(h, lines[0]);
      if !Stops(first.outcome) {
        LoopOutcomesHold(body, first.history, lines[1..], P);
        var t := Loop(body, first.history, lines[1..]).transcript;
        assert forall k :: 0 < k < |t| + 1 ==> ([first.outcome] + t)[k] == t[k - 1];
      }
    }
  }

  /** A running loop given one more line runs the body on it, from the
      history reached so far, and appends what it produced. */
  lemma {:induction false} LoopStepsOnce(
    body: (History, string) -> StepResult, h: History, lines: seq<string>, l: string)
    requires Loop(body, h, lines).running
    ensures var s := Loop(body, h, lines);
            var next := body(s.history, l);
            Loop(body, h, lines + [l]) == Session(next.history, s.transcript + [next.outcome], !Stops(next.outcome))
    decreases |lines|
  {
    if lines == [] {
      assert [] + [l] == [l];
      assert [l][1..] == [];
    } else {
      var first := body(h, lines[0]);
      assert (lines + [l])[0] == lines[0];
      assert (lines + [l])[1..] == lines[1..] + [l];
      LoopStepsOnce(body, first.history, lines[1..], l);
      var t := Loop(body, first.history, lines[1..]).transcript;
      var o := body(Loop(body, first.history, lines[1..]).history, l).outcome;
      assert [first.outcome] + (t + [o]) == ([first.outcome] + t) + [o];
    }
  }

  /** The session as the source runs it: it ends early on a quit command
      or on an escaped range error, and on nothing else. */
  function RunAsWritten(lib: MathLib, h: History, lines: seq<string>): (s: Session)
    ensures forall k :: 0 <= k < |s.transcript| ==>
              s.transcript[k].Aborted? ==> s.transcript[k] == Aborted(MathRange)
    ensures !s.running <==>
              s.transcript != [] && Stops(s.transcript[|s.transcript| - 1])
  {
    var body := (h', line) => StepAsWritten(lib, h', line);
    LoopOutcomesHold(body, h, lines, (o: Outcome) => o.Aborted? ==> o == Aborted(MathRange));
    Loop(body, h, lines)
  }

  /** The session with the corrected loop body: no line aborts it, and it
      ends early exactly on a quit command. */
  function Run(lib: MathLib, h: History, lines: seq<string>): (s: Session)
    ensures forall k :: 0 <= k < |s.transcript| ==> !s.transcript[k].Aborted?
    ensures !s.running <==> s.transcript != [] && s.transcript[|s.transcript| - 1] == Quit
  {
    var body := (h', line) => Step(lib, h', line);
    LoopOutcomesHold(body, h, lines, (o: Outcome) => !o.Aborted?);
    Loop(body, h, lines)
  }

  /** A stopped loop reads nothing more: whatever input follows is never
      consumed. */
  lemma {:induction false} LoopIgnoresInputAfterStop(
    body: (History, string) -> StepResult, h: History, lines: seq<string>, more: seq<string>)
    requires !Loop(body, h, lines).running
    ensures Loop(body, h, lines + more) == Loop(body, h, lines)
    decreases |lines|
  {
    assert lines != [];
    assert (lines + more)[0] == lines[0];
    var first := body(h, lines[0]);
    if !Stops(first.outcome) {
      assert (lines + more)[1..] == lines[1..] + more;
      LoopIgnoresInputAfterStop(body, first.history, lines[1..], more);
    }
  }

  /** How many lines succeeded. */
  function CountOk(t: seq<Outcome>): nat {
    if t == [] then 0 else (if t[0].Ok? then 1 else 0) + CountOk(t[1..])
  }

  function CountCleared(t: seq<Outcome>): nat {
    if t == [] then 0 else (if t[0].Cleared? then 1 else 0) + CountCleared(t[1..])
  }

  /** What `Step` promises about the history, for an arbitrary loop body. */
  predicate KeepsLedger(h: History, s: StepResult) {
    && (s.outcome.Ok? ==> |s.history| == |h| + 1 && s.history[..|h|] == h)
    && (s.outcome.Cleared? ==> s.history == [])
    && (!s.outcome.Ok? && !s.outcome.Cleared? ==> s.history == h)
  }

  /** Without a "clear", the history grows by exactly the number of
      successful lines, and what was there before stays in front. */
  lemma {:induction false} LoopCountsSuccesses(
    body: (History, string) -> StepResult, h: History, lines: seq<string>)
    requires forall h': History, line: string :: KeepsLedger(h', body(h', line))
    requires CountCleared(Loop(body, h, lines).transcript) == 0
    ensures |Loop(body, h, lines).history| == |h| + CountOk(Loop(body, h, lines).transcript)
    ensures Loop(body, h, lines).history[..|h|] == h
    decreases |lines|
  {
    if lines != [] {
      var first := body(h, lines[0]);
      assert KeepsLedger(h, first);
      if !Stops(first.outcome) {
        var rest := Loop(body, first.history, lines[1..]);
        assert ([first.outcome] + rest.transcript)[1..] == rest.transcript;
        LoopCountsSuccesses(body, first.history, lines[1..]);
        if first.outcome.Ok? {
          assert rest.history[..|h|] == rest.history[..|first.history|][..|h|];
        }
      }
    }
  }

  /** A session without "clear" holds the original history followed by
      one entry per successful line, and a quit command ends it for
      good. */
  lemma RunCountsSuccesses(lib: MathLib, h: History, lines: seq<string>, more: seq<string>)
    requires CountCleared(Run(lib, h, lines).transcript) == 0
    ensures |Run(lib, h, lines).history| == |h| + CountOk(Run(lib, h, lines).transcript)
    ensures Run(lib, h, lines).history[..|h|] == h
    ensures !Run(lib, h, lines).running ==> Run(lib, h, lines + more) == Run(lib, h, lines)
  {
    var body := (h', line) => Step(lib, h', line);
    forall h': History, line: string ensures KeepsLedger(h', body(h', line)) {
      var s := Step(lib, h', line);
    }
    LoopCountsSuccesses(body, h, lines);
    if !Run(lib, h, lines).running {
      LoopIgnoresInputAfterStop(body, h, lines, more);
    }
  }

  /** A quit command ends the session on the spot, with or without the
      fix: the history is kept and nothing after it is read. */
  lemma QuitEndsSession(lib: MathLib, h: History, q: string, more: seq<string>)
    requires IsQuitWord(Normalized(q))
    ensures Run(lib, h, [q] + more) == Session(h, [Quit], false)
    ensures RunAsWritten(lib, h, [q] + more) == Session(h, [Quit], false)
  {
    assert ([q] + more)[0] == q;
  }

  /** The command words are matched case-insensitively: a stripped line is
      the command `w` exactly when it spells `w` with each letter in either
      case, and then the line quits, lists or clears accordingly. */
  lemma CommandInAnyCase(lib: MathLib, h: History, line: string, w: string)
    requires w == "quit" || w == "exit" || w == "q" || w == "history" || w == "clear"
    ensures IsLowerWord(w)
    ensures Normalized(line) == w <==> MatchesIgnoringCase(Strip(line), w)
    ensures MatchesIgnoringCase(Strip(line), w) ==>
              Step(lib, h, line) ==
                if w == "history" then StepResult(h, Listed(ShowHistory(h)))
                else if w == "clear" then StepResult([], Cleared)
                else StepResult(h, Quit)
  {
    assert IsLowerWord(w);
    LowerMatchesIgnoringCase(Strip(line), w);
  }

  /** "clear" followed by "history", however spelled and padded, lists
      nothing: the "No calculations yet!" notice. */
  lemma ClearThenHistoryShowsNothing(lib: MathLib, h: History, clear: string, show: string)
    requires Normalized(clear) == "clear" && Normalized(show) == "history"
    ensures Step(lib, Step(lib, h, clear).history, show).outcome == Listed(NoCalculations)
  {
  }

  /** A line starting with `√` never reaches the three-token branch: it
      either records a square root or reports a bad number or a negative
      operand; it never yields the format hint or an operator error. */
  lemma RootLineNeverTokenized(lib: MathLib, h: History, line: string)
    requires !IsCommand(line) && StartsWith(Strip(line), "√")
    ensures var s, p := Step(lib, h, line), lib.parse(Strip(line)[1..]);
            && (s.outcome.Ok? || s.outcome == Error(InvalidNumber) || s.outcome == Error(NegativeRoot))
            && (s.outcome == Error(InvalidNumber) <==> p.None?)
            && (s.outcome == Error(NegativeRoot) <==> p.Some? && p.value < 0.0)
            && (s.outcome.Ok? <==> p.Some? && p.value >= 0.0)
            && (s.outcome.Ok? ==>
                  s == StepResult(h + [Entry(RootOf(p.value), lib.sqrt(p.value))], Ok(lib.sqrt(p.value))))
  {
  }

  /** A line starting with `sin(` (and not with `√`) never reaches the
      three-token branch: it records a sine or reports a bad number. */
  lemma SineLineNeverTokenized(lib: MathLib, h: History, line: string)
    requires !IsCommand(line) && !StartsWith(Strip(line), "√") && StartsWith(Strip(line), "sin(")
    ensures var s := Step(lib, h, line);
            && (s.outcome.Ok? || s.outcome == Error(InvalidNumber))
            && (s.outcome.Ok? <==> lib.parse(SineArgument(Strip(line))).Some?)
            && (s.outcome.Ok? ==>
                  var a := lib.parse(SineArgument(Strip(line))).value;
                  s == StepResult(h + [Entry(SineOf(a), lib.sinDeg(a))], Ok(lib.sinDeg(a))))
  {
  }

  /** The three-token branch: anything but exactly three whitespace-separated
      tokens (after `×` and `÷` are rewritten) yields the format hint and
      leaves the history alone. */
  lemma FormatHintUnlessThreeTokens(lib: MathLib, h: History, line: string)
    requires !IsCommand(line)
    requires !StartsWith(Strip(line), "√") && !StartsWith(Strip(line), "sin(")
    ensures Step(lib, h, line).outcome == FormatHint <==> |Split(ReplaceGlyphs(Strip(line)))| != 3
    ensures Step(lib, h, line).outcome == FormatHint ==> Step(lib, h, line).history == h
  {
  }

  /** The three tokens of a line in the three-token branch. */
  predicate ThreeTokens(line: string, x: string, op: string, y: string) {
    var e := Strip(line);
    && !IsCommand(line) && !StartsWith(e, "√") && !StartsWith(e, "sin(")
    && Split(ReplaceGlyphs(e)) == [x, op, y]
  }

  /** With three tokens: an operand `float()` rejects is reported first;
      with both operands numbers, an operator outside `+ - * / ^` is
      reported; either way the history is unchanged. */
  lemma OperandsThenOperator(lib: MathLib, h: History, line: string, x: string, op: string, y: string)
    requires ThreeTokens(line, x, op, y)
    ensures var s := Step(lib, h, line);
            && (s.outcome == Error(InvalidNumber) <==> lib.parse(x).None? || lib.parse(y).None?)
            && (s.outcome == Error(UnknownOperator) <==>
                  lib.parse(x).Some? && lib.parse(y).Some? && !IsOperator(op))
            && (s.outcome.Error? ==> s.history == h)
  {
    var ws := Split(ReplaceGlyphs(Strip(line)));
    assert ws[0] == x && ws[1] == op && ws[2] == y;
  }

  /** Dividing by zero at the prompt is reported, and the history is the
      same before and after. */
  lemma DivisionByZeroAtPrompt(lib: MathLib, h: History, line: string, x: string, y: string)
    requires ThreeTokens(line, x, "/", y)
    requires lib.parse(x).Some? && lib.parse(y) == Some(0.0)
    ensures Step(lib, h, line) == StepResult(h, Error(DivisionByZero))
  {
    var ws := Split(ReplaceGlyphs(Strip(line)));
    assert ws[0] == x && ws[1] == "/" && ws[2] == y;
  }

  /** A successful three-token line records the operation its operator
      selects, applied to the parsed operands. */
  lemma BinaryRecordsItsOperation(lib: MathLib, h: History, line: string, x: string, op: string, y: string)
    requires ThreeTokens(line, x, op, y)
    ensures var s := Step(lib, h, line);
            s.outcome.Ok? ==>
              && IsOperator(op) && lib.parse(x).Some? && lib.parse(y).Some?
              && s.history == h + [Entry(LabelOf(Operation(op, lib.parse(x).value, lib.parse(y).value)),
                                         s.outcome.value)]
              && s.outcome.value == Apply(lib, h, Operation(op, lib.parse(x).value, lib.parse(y).value)).value
  {
    var ws := Split(ReplaceGlyphs(Strip(line)));
    assert ws[0] == x && ws[1] == op && ws[2] == y;
    var s := Step(lib, h, line);
    if s.outcome.Ok? {
      assert Evaluate(lib, h, Strip(line)) == Some(Binary(lib, h, x, op, y));
      assert s.history == s.history[..|h|] + [s.history[|h|]];
    }
  }

  /** A line that neither starts nor ends with whitespace is its own
      stripped form. */
  lemma StrippedLine(line: string)
    requires line != [] && !IsSpace(line[0]) && !IsSpace(line[|line| - 1])
    ensures Strip(line) == line
  {
    StripRemovesMargins([], line, []);
    assert [] + line + [] == line;
  }

  /** A stripped line with a space in it is no command: none of the command
      words has one. */
  lemma SpacedLineIsNotCommand(line: string, k: nat)
    requires Strip(line) == line && k < |line| && line[k] == ' '
    ensures !IsCommand(line)
  {
    var c := Normalized(line);
    assert c[k] == ' ';
    CommandWordsAreTokens();
    SpaceRulesOut(c, k, "quit");
    SpaceRulesOut(c, k, "exit");
    SpaceRulesOut(c, k, "q");
    SpaceRulesOut(c, k, "history");
    SpaceRulesOut(c, k, "clear");
  }

  lemma CommandWordsAreTokens()
    ensures IsToken("quit") && IsToken("exit") && IsToken("q")
    ensures IsToken("history") && IsToken("clear")
  {
  }

  /** A string with a space in it is not a token. */
  lemma SpaceRulesOut(c: string, k: nat, w: string)
    requires k < |c| && c[k] == ' ' && IsToken(w)
    ensures c != w
  {
  }

  /** The operands of a spaced three-token line: tokens without `×` or
      `÷`, the first not starting with a unary prefix. */
  predicate PlainOperands(x: string, y: string) {
    && IsToken(x) && IsToken(y) && GlyphFree(x) && GlyphFree(y)
    && !StartsWith(x, "√") && !StartsWith(x, "sin(")
  }

  /** `x op y` with single spaces reaches the three-token branch with the
      tokens `x`, `op` after the glyph rewrite, and `y`, provided the
      operands hold no `×` or `÷` and the first does not start with a unary
      prefix. */
  lemma ThreeTokenLine(x: string, op: string, y: string)
    requires PlainOperands(x, y) && IsToken(op)
    ensures ThreeTokens(x + " " + op + " " + y, x, ReplaceGlyphs(op), y)
  {
    var line := x + " " + op + " " + y;
    SpacedLineStrips(x, op, y);
    SpacedLineGlyphs(x, op, y);
    assert line[|x|] == ' ';
    SpacedLineIsNotCommand(line, |x|);
    SpacedLinePrefixes(x, op, y);
    ReplaceGlyphsOfToken(op);
    SplitThreeTokens(x, ReplaceGlyphs(op), y);
  }

  lemma SpacedLineStrips(x: string, op: string, y: string)
    requires IsToken(x) && IsToken(y)
    ensures Strip(x + " " + op + " " + y) == x + " " + op + " " + y
  {
    var line := x + " " + op + " " + y;
    assert line[0] == x[0] && line[|line| - 1] == y[|y| - 1];
    StrippedLine(line);
  }

  /** Only the operator of a spaced line with glyph-free operands is
      rewritten. */
  lemma SpacedLineGlyphs(x: string, op: string, y: string)
    requires GlyphFree(x) && GlyphFree(y)
    ensures ReplaceGlyphs(x + " " + op + " " + y) == x + " " + ReplaceGlyphs(op) + " " + y
  {
    assert GlyphFree(" ");
    ReplaceGlyphsWithoutGlyphs(x);
    ReplaceGlyphsWithoutGlyphs(" ");
    ReplaceGlyphsWithoutGlyphs(y);
    ReplaceGlyphsConcat(x, " ");
    ReplaceGlyphsConcat(x + " ", op);
    ReplaceGlyphsConcat(x + " " + op, " ");
    ReplaceGlyphsConcat(x + " " + op + " ", y);
  }

  lemma SpacedLinePrefixes(x: string, op: string, y: string)
    requires IsToken(x) && !StartsWith(x, "√") && !StartsWith(x, "sin(")
    ensures !StartsWith(x + " " + op + " " + y, "√") && !StartsWith(x + " " + op + " " + y, "sin(")
  {
    assert x + " " + op + " " + y == x + " " + (op + " " + y);
    assert IsToken("√") && IsToken("sin(");
    PrefixOfSpacedToken(x, op + " " + y, "√");
    PrefixOfSpacedToken(x, op + " " + y, "sin(");
  }

  /** A three-token line with numeric operands and one of the five
      operators does exactly what the selected `Calculator` method does: its
      success is the line's result and new history, its error is the line's
      error, with the history kept. */
  lemma OperatorLineSteps(lib: MathLib, h: History, line: string, x: string, op: string, y: string)
    requires ThreeTokens(line, x, op, y)
    requires lib.parse(x).Some? && lib.parse(y).Some? && IsOperator(op)
    ensures var r := Apply(lib, h, Operation(op, lib.parse(x).value, lib.parse(y).value));
            Step(lib, h, line) == if r.Done? then StepResult(r.history, Ok(r.value)) else StepResult(h, Error(r.error))
  {
    var ws := Split(ReplaceGlyphs(Strip(line)));
    assert ws[0] == x && ws[1] == op && ws[2] == y;
    assert Evaluate(lib, h, Strip(line)) == Some(Binary(lib, h, x, op, y));
  }

  /** `x + y` records the sum of the parsed operands and reports it. */
  lemma AdditionAtPrompt(lib: MathLib, h: History, x: string, y: string)
    requires PlainOperands(x, y)
    requires lib.parse(x).Some? && lib.parse(y).Some?
    ensures var a, b := lib.parse(x).value, lib.parse(y).value;
            Step(lib, h, x + " " + "+" + " " + y) == StepResult(h + [Entry(SumOf(a, b), a + b)], Ok(a + b))
  {
    var op := "+";
    assert IsToken(op) && GlyphFree(op);
    ReplaceGlyphsWithoutGlyphs(op);
    ThreeTokenLine(x, op, y);
    OperatorLineSteps(lib, h, x + " " + op + " " + y, x, op, y);
  }

  /** `x - y` records the difference of the parsed operands. */
  lemma SubtractionAtPrompt(lib: MathLib, h: History, x: string, y: string)
    requires PlainOperands(x, y)
    requires lib.parse(x).Some? && lib.parse(y).Some?
    ensures var a, b := lib.parse(x).value, lib.parse(y).value;
            Step(lib, h, x + " " + "-" + " " + y) == StepResult(h + [Entry(DifferenceOf(a, b), a - b)], Ok(a - b))
  {
    var op := "-";
    assert IsToken(op) && GlyphFree(op);
    ReplaceGlyphsWithoutGlyphs(op);
    ThreeTokenLine(x, op, y);
    OperatorLineSteps(lib, h, x + " " + op + " " + y, x, op, y);
  }

  /** `x × y` is rewritten to `x * y` and records the product. */
  lemma ProductGlyphAtPrompt(lib: MathLib, h: History, x: string, y: string)
    requires PlainOperands(x, y)
    requires lib.parse(x).Some? && lib.parse(y).Some?
    ensures var a, b := lib.parse(x).value, lib.parse(y).value;
            Step(lib, h, x + " " + "×" + " " + y) == StepResult(h + [Entry(ProductOf(a, b), a * b)], Ok(a * b))
  {
    var op := "×";
    assert IsToken(op);
    assert ReplaceGlyphs(op)[0] == '*';
    assert ReplaceGlyphs(op) == "*";
    ThreeTokenLine(x, op, y);
    OperatorLineSteps(lib, h, x + " " + op + " " + y, x, "*", y);
  }

  /** `x ÷ y` is rewritten to `x / y`: a zero divisor is reported and
      changes nothing, any other records the quotient. */
  lemma QuotientGlyphAtPrompt(lib: MathLib, h: History, x: string, y: string)
    requires PlainOperands(x, y)
    requires lib.parse(x).Some? && lib.parse(y).Some?
    ensures var a, b := lib.parse(x).value, lib.parse(y).value;
            Step(lib, h, x + " " + "÷" + " " + y) ==
              if b == 0.0 then StepResult(h, Error(DivisionByZero))
              else StepResult(h + [Entry(QuotientOf(a, b), a / b)], Ok(a / b))
  {
    var op := "÷";
    assert IsToken(op);
    assert ReplaceGlyphs(op)[0] == '/';
    assert ReplaceGlyphs(op) == "/";
    ThreeTokenLine(x, op, y);
    OperatorLineSteps(lib, h, x + " " + op + " " + y, x, "/", y);
  }

  /** `x ^ y` records what `math.pow` returns, or reports its failure and
      changes nothing. */
  lemma PowerAtPrompt(lib: MathLib, h: History, x: string, y: string)
    requires PlainOperands(x, y)
    requires lib.parse(x).Some? && lib.parse(y).Some?
    ensures var a, b := lib.parse(x).value, lib.parse(y).value;
            Step(lib, h, x + " " + "^" + " " + y) ==
              match lib.pow(a, b)
              case Value(v) => StepResult(h + [Entry(PowerOf(a, b), v)], Ok(v))
              case DomainFault => StepResult(h, Error(MathDomain))
              case RangeFault => StepResult(h, Error(MathRange))
  {
    var op := "^";
    assert IsToken(op) && GlyphFree(op);
    ReplaceGlyphsWithoutGlyphs(op);
    ThreeTokenLine(x, op, y);
    OperatorLineSteps(lib, h, x + " " + op + " " + y, x, op, y);
  }

  /** `x / 0` is reported as a division by zero, and the session carries on
      with the next line and the same history. */
  lemma DivisionByZeroKeepsSession(lib: MathLib, h: History, x: string, y: string, rest: seq<string>)
    requires PlainOperands(x, y)
    requires lib.parse(x).Some? && lib.parse(y) == Some(0.0)
    ensures Step(lib, h, x + " " + "/" + " " + y) == StepResult(h, Error(DivisionByZero))
    ensures var r := Run(lib, h, rest);
            Run(lib, h, [x + " " + "/" + " " + y] + rest) == Session(r.history, [Error(DivisionByZero)] + r.transcript, r.running)
  {
    var op := "/";
    assert IsToken(op) && GlyphFree(op);
    ReplaceGlyphsWithoutGlyphs(op);
    ThreeTokenLine(x, op, y);
    var line := x + " " + op + " " + y;
    DivisionByZeroAtPrompt(lib, h, line, x, y);
    assert ([line] + rest)[0] == line && ([line] + rest)[1..] == rest;
  }

  /** "√16" records the square root of 16. */
  lemma RootScenario(lib: MathLib, h: History, line: string)
    requires line == "√16"
    requires lib.parse("16") == Some(16.0)
    ensures Step(lib, h, line) == StepResult(h + [Entry(RootOf(16.0), lib.sqrt(16.0))], Ok(lib.sqrt(16.0)))
  {
    StrippedLine(line);
    assert Normalized(line)[0] == '√';
    assert line[1..] == "16";
  }

  /** "sin(30)" records the sine of 30 degrees. */
  lemma SineScenario(lib: MathLib, h: History, line: string)
    requires line == "sin(30)"
    requires lib.parse("30") == Some(30.0)
    ensures Step(lib, h, line) == StepResult(h + [Entry(SineOf(30.0), lib.sinDeg(30.0))], Ok(lib.sinDeg(30.0)))
  {
    StrippedLine(line);
    assert Normalized(line)[3] == '(';
    assert StartsWith(line, "sin(");
    assert SineArgument(line) == "30";
  }

  /** The `sin(` branch drops the last character whatever it is: "sin(30"
      (no closing parenthesis) computes the sine of 3 degrees. */
  lemma UnclosedSineDropsLastDigit(lib: MathLib, h: History, line: string)
    requires line == "sin(30"
    requires lib.parse("3") == Some(3.0)
    ensures Step(lib, h, line) == StepResult(h + [Entry(SineOf(3.0), lib.sinDeg(3.0))], Ok(lib.sinDeg(3.0)))
  {
    StrippedLine(line);
    assert Normalized(line)[3] == '(';
    assert StartsWith(line, "sin(");
    assert SineArgument(line) == "3";
  }

  /** As written, a three-token `^` line on which `math.pow` overflows ends
      the whole session: nothing after it is read. */
  lemma PowerOverflowAbortsAsWritten(lib: MathLib, h: History, line: string, x: string, y: string, rest: seq<string>)
    requires ThreeTokens(line, x, "^", y)
    requires lib.parse(x).Some? && lib.parse(y).Some?
    requires lib.pow(lib.parse(x).value, lib.parse(y).value).RangeFault?
    ensures StepAsWritten(lib, h, line) == StepResult(h, Aborted(MathRange))
    ensures RunAsWritten(lib, h, [line] + rest) == Session(h, [Aborted(MathRange)], false)
  {
    assert OverflowingPower(lib, line);
    assert ([line] + rest)[0] == line;
  }

  /** With the corrected loop body the same line is reported as a range
      error, the history is untouched, and the session carries on. */
  lemma PowerOverflowReported(lib: MathLib, h: History, line: string, x: string, y: string, rest: seq<string>)
    requires ThreeTokens(line, x, "^", y)
    requires lib.parse(x).Some? && lib.parse(y).Some?
    requires lib.pow(lib.parse(x).value, lib.parse(y).value).RangeFault?
    ensures Step(lib, h, line) == StepResult(h, Error(MathRange))
    ensures var r := Run(lib, h, rest);
            Run(lib, h, [line] + rest) == Session(r.history, [Error(MathRange)] + r.transcript, r.running)
  {
    OnlyPowerOverflows(lib, h, line);
    assert OverflowingPower(lib, line);
    assert ([line] + rest)[0] == line && ([line] + rest)[1..] == rest;
  }

  /** The concrete case: where `10` and `400` parse to 10 and 400 and
      `math.pow(10.0, 400.0)` raises `OverflowError`, the line `10 ^ 400`
      ends the session as written, and the corrected loop reports it and
      reads on with the history unchanged. */
  lemma TenToTheFourHundred(lib: MathLib, h: History, x: string, y: string, rest: seq<string>)
    requires PlainOperands(x, y)
    requires lib.parse(x) == Some(10.0) && lib.parse(y) == Some(400.0)
    requires lib.pow(10.0, 400.0) == RangeFault
    ensures RunAsWritten(lib, h, [x + " " + "^" + " " + y] + rest) == Session(h, [Aborted(MathRange)], false)
    ensures Run(lib, h, [x + " " + "^" + " " + y] + rest).transcript[0] == Error(MathRange)
    ensures Run(lib, h, [x + " " + "^" + " " + y] + rest).history == Run(lib, h, rest).history
  {
    var op := "^";
    assert IsToken(op) && GlyphFree(op);
    ReplaceGlyphsWithoutGlyphs(op);
    ThreeTokenLine(x, op, y);
    var line := x + " " + op + " " + y;
    PowerOverflowAbortsAsWritten(lib, h, line, x, y, rest);
    PowerOverflowReported(lib, h, line, x, y, rest);
  }
}
