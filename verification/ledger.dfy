/** The `Calculator` class: seven arithmetic operations, each of which
    records a (label, result) entry in an append-only history when it
    succeeds, plus the windowed history listing and the clear operation.
    The mutable `history` list becomes an immutable `History` value that
    each operation takes and, on success, returns extended. */
module Ledger {
  import opened Numbers

  /** The text label an operation records, e.g. `f"{a} ÷ {b}"`. Python's
      float-to-text rendering is not modelled: a label carries the
      operation and its operands instead of their printed form. */
  datatype Label =
    | SumOf(a: real, b: real)         // "{a} + {b}"
    | DifferenceOf(a: real, b: real)  // "{a} - {b}"
    | ProductOf(a: real, b: real)     // "{a} × {b}"
    | QuotientOf(a: real, b: real)    // "{a} ÷ {b}"
    | PowerOf(a: real, b: real)       // "{a} ^ {b}"
    | RootOf(a: real)                 // "√{a}"
    | SineOf(a: real)                 // "sin({a}°)"

  datatype Entry = Entry(expr: Label, result: real)

  type History = seq<Entry>

  /** Why a line produced no result. The first four are raised by the
      calculator's operations; the last two by the command loop. */
  datatype ErrorKind =
    | DivisionByZero   // "Cannot divide by zero!"
    | NegativeRoot     // "Cannot calculate square root of negative number!"
    | MathDomain       // ValueError raised by math.pow
    | MathRange        // OverflowError raised by math.pow
    | InvalidNumber    // ValueError raised by float()
    | UnknownOperator  // "Unknown operator: {op}"

  /** An operation either returns its result together with the extended
      history, or raises and leaves the history as it was. */
  datatype OpResult = Done(history: History, value: real) | Failed(error: ErrorKind)

  /** `h'` is `h` with exactly one entry `e` added at the end. */
  predicate AppendsOne(h: History, h': History, e: Entry) {
    |h'| == |h| + 1 && h'[..|h|] == h && h'[|h|] == e
  }

  function Record(h: History, l: Label, value: real): (r: OpResult)
    ensures r.Done? && r.value == value
    ensures AppendsOne(h, r.history, Entry(l, value))
  {
    Done(h + [Entry(l, value)], value)
  }

  function Add(h: History, a: real, b: real): (r: OpResult)
    ensures r.Done? && r.value == a + b
    ensures AppendsOne(h, r.history, Entry(SumOf(a, b), r.value))
  {
    Record(h, SumOf(a, b), a + b)
  }

  function Subtract(h: History, a: real, b: real): (r: OpResult)
    ensures r.Done? && r.value + b == a
    ensures AppendsOne(h, r.history, Entry(DifferenceOf(a, b), r.value))
  {
    Record(h, DifferenceOf(a, b), a - b)
  }

  function Multiply(h: History, a: real, b: real): (r: OpResult)
    ensures r.Done? && r.value == a * b
    ensures AppendsOne(h, r.history, Entry(ProductOf(a, b), r.value))
  {
    Record(h, ProductOf(a, b), a * b)
  }

  /** The divisor is checked before anything is recorded, so a division by
      zero leaves no trace in the history. */
  function Divide(h: History, a: real, b: real): (r: OpResult)
    ensures r.Failed? <==> b == 0.0
    ensures r.Failed? ==> r.error == DivisionByZero
    ensures r.Done? ==> r.value * b == a
    ensures r.Done? ==> AppendsOne(h, r.history, Entry(QuotientOf(a, b), r.value))
  {
    if b == 0.0 then Failed(DivisionByZero) else Record(h, QuotientOf(a, b), a / b)
  }

  /** `math.pow` may itself raise; then nothing is recorded. */
  function Power(lib: MathLib, h: History, a: real, b: real): (r: OpResult)
    ensures r.Done? <==> lib.pow(a, b).Value?
    ensures r.Failed? ==> r.error == (if lib.pow(a, b).DomainFault? then MathDomain else MathRange)
    ensures r.Done? ==> r.value == lib.pow(a, b).v
    ensures r.Done? ==> AppendsOne(h, r.history, Entry(PowerOf(a, b), r.value))
  {
    match lib.pow(a, b)
    case Value(v) => Record(h, PowerOf(a, b), v)
    case DomainFault => Failed(MathDomain)
    case RangeFault => Failed(MathRange)
  }

  /** The sign is checked before anything is recorded. */
  function Sqrt(lib: MathLib, h: History, a: real): (r: OpResult)
    ensures r.Failed? <==> a < 0.0
    ensures r.Failed? ==> r.error == NegativeRoot
    ensures r.Done? ==> r.value == lib.sqrt(a)
    ensures r.Done? ==> AppendsOne(h, r.history, Entry(RootOf(a), r.value))
  {
    if a < 0.0 then Failed(NegativeRoot) else Record(h, RootOf(a), lib.sqrt(a))
  }

  function Sin(lib: MathLib, h: History, a: real): (r: OpResult)
    ensures r.Done? && r.value == lib.sinDeg(a)
    ensures AppendsOne(h, r.history, Entry(SineOf(a), r.value))
  {
    Record(h, SineOf(a), lib.sinDeg(a))
  }

  /** The operations the command loop can reach, by what it dispatches on. */
  datatype Op =
    | AddOp(a: real, b: real)
    | SubtractOp(a: real, b: real)
    | MultiplyOp(a: real, b: real)
    | DivideOp(a: real, b: real)
    | PowerOp(a: real, b: real)
    | SqrtOp(a: real)
    | SinOp(a: real)

  /** Every operation, when it succeeds, appends exactly one entry labelled
      by the operation and holding its result; it raises only on its own
      guard (a zero divisor, a negative root, a failing `math.pow`), and then
      records nothing. Each operation is the matching `Calculator` method,
      so its value is the one that method's contract gives. */
  function Apply(lib: MathLib, h: History, op: Op): (r: OpResult)
    ensures r.Done? ==> AppendsOne(h, r.history, Entry(LabelOf(op), r.value))
    ensures r.Failed? <==>
              || (op.DivideOp? && op.b == 0.0)
              || (op.SqrtOp? && op.a < 0.0)
              || (op.PowerOp? && !lib.pow(op.a, op.b).Value?)
    ensures r.Failed? ==> r.error in {DivisionByZero, NegativeRoot, MathDomain, MathRange}
    ensures (r.Failed? && r.error == MathRange) <==> (op.PowerOp? && lib.pow(op.a, op.b).RangeFault?)
    ensures op.AddOp? ==> r == Add(h, op.a, op.b)
    ensures op.SubtractOp? ==> r == Subtract(h, op.a, op.b)
    ensures op.MultiplyOp? ==> r == Multiply(h, op.a, op.b)
    ensures op.DivideOp? ==> r == Divide(h, op.a, op.b)
    ensures op.PowerOp? ==> r == Power(lib, h, op.a, op.b)
    ensures op.SqrtOp? ==> r == Sqrt(lib, h, op.a)
    ensures op.SinOp? ==> r == Sin(lib, h, op.a)
  {
    match op
    case AddOp(a, b) => Add(h, a, b)
    case SubtractOp(a, b) => Subtract(h, a, b)
    case MultiplyOp(a, b) => Multiply(h, a, b)
    case DivideOp(a, b) => Divide(h, a, b)
    case PowerOp(a, b) => Power(lib, h, a, b)
    case SqrtOp(a) => Sqrt(lib, h, a)
    case SinOp(a) => Sin(lib, h, a)
  }

  /** The label an operation records when it succeeds. */
  function LabelOf(op: Op): Label {
    match op
    case AddOp(a, b) => SumOf(a, b)
    case SubtractOp(a, b) => DifferenceOf(a, b)
    case MultiplyOp(a, b) => ProductOf(a, b)
    case DivideOp(a, b) => QuotientOf(a, b)
    case PowerOp(a, b) => PowerOf(a, b)
    case SqrtOp(a) => RootOf(a)
    case SinOp(a) => SineOf(a)
  }

  /** Successive successful operations stack up in call order: after two of
      them the history is the original followed by both entries. */
  lemma TwoOperationsInOrder(lib: MathLib, h: History, op1: Op, op2: Op)
    requires Apply(lib, h, op1).Done?
    requires Apply(lib, Apply(lib, h, op1).history, op2).Done?
    ensures var h1 := Apply(lib, h, op1).history;
            var r2 := Apply(lib, h1, op2);
            && |r2.history| == |h| + 2
            && r2.history[..|h|] == h
            && r2.history[|h|] == Entry(LabelOf(op1), Apply(lib, h, op1).value)
            && r2.history[|h| + 1] == Entry(LabelOf(op2), r2.value)
  {
    var h1 := Apply(lib, h, op1).history;
    var h2 := Apply(lib, h1, op2).history;
    assert h2[..|h|] == h1[..|h1|][..|h|];
  }

  /** How many entries `show_history` lists at most. */
  const WindowSize: nat := 10

  /** `history[-10:]`: the last ten entries, or all of them if fewer. */
  function Window(h: History): (w: History)
    ensures |w| == if |h| < WindowSize then |h| else WindowSize
    ensures forall i :: 0 <= i < |w| ==> w[i] == h[|h| - |w| + i]
  {
    if |h| <= WindowSize then h else h[|h| - WindowSize..]
  }

  /** One listed line: `f"{i:2d}. {expr} = {res:.4f}"`. */
  datatype Row = Row(index: nat, entry: Entry)

  /** What `show_history` displays: the "No calculations yet!" notice, or
      the numbered rows. */
  datatype HistoryView = NoCalculations | Listing(rows: seq<Row>)

  function Number(w: History): (rows: seq<Row>)
    ensures |rows| == |w|
    ensures forall i :: 0 <= i < |w| ==> rows[i] == Row(i + 1, w[i])
  {
    seq(|w|, i requires 0 <= i < |w| => Row(i + 1, w[i]))
  }

  /** The listing shows at most ten rows, numbered from 1 in the window
      rather than by position in the whole history: the row numbered `i`
      holds entry `n - k + i - 1` of a history of length `n` listed in `k`
      rows, so the rows keep insertion order and end with the latest
      entry. */
  function ShowHistory(h: History): (v: HistoryView)
    ensures v.NoCalculations? <==> h == []
    ensures v.Listing? ==> |v.rows| == if |h| < WindowSize then |h| else WindowSize
    ensures v.Listing? ==> forall i :: 0 <= i < |v.rows| ==>
              v.rows[i] == Row(i + 1, h[|h| - |v.rows| + i])
  {
    if h == [] then NoCalculations
    else
      var w := Window(h);
      Listing(Number(w))
  }

  /** `clear_history` empties the ledger. */
  function ClearHistory(h: History): (h': History)
    ensures |h'| == 0
  {
    []
  }

  /** After `clear_history`, `show_history` shows the "No calculations yet!"
      notice, whatever was recorded before. */
  lemma ClearThenShowNothing(h: History)
    ensures ShowHistory(ClearHistory(h)) == NoCalculations
  {
  }

  /** A listing never has more than ten rows, and once the history holds at
      least ten entries it has exactly ten, the most recent ones. */
  lemma ListingIsBounded(h: History)
    requires |h| >= WindowSize
    ensures ShowHistory(h).Listing?
    ensures |ShowHistory(h).rows| == WindowSize
    ensures ShowHistory(h).rows[WindowSize - 1].entry == h[|h| - 1]
    ensures ShowHistory(h).rows[0].entry == h[|h| - WindowSize]
  {
  }
}
