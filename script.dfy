/**
 The benchmark script's entry point as a decision: which of its two
 workloads runs for a given command line, with which values, and which
 lines it prints.

 The command line is a sequence of strings whose first element is the
 program name, as in Python's `sys.argv`. Python's `int()` is a foreign
 parser, so it is a parameter: `parse` gives the integer a string denotes,
 or `None` where `int()` raises `ValueError`. The random values that fill
 the work simulator's buffer are a parameter `draw` too, and only the length
 of the buffer built from them is observed. The other random draw, the work
 time, and the floating-point accumulator derived from it are not modelled,
 so the simulation line carries only its data-point count.
 */
module BenchmarkScript {
  import Fibonacci

  datatype Option<T> = None | Some(value: T)

  /** The largest index the script passes to `fibonacci`. */
  const FibonacciCap: int := 35

  /** The number of random values the work simulator allocates. */
  const BufferSize: nat := 10000

  /** What the script sees of its command line. */
  datatype Argument = NoArgument | Parsed(n: int) | Unparseable

  /** The observable part of `simulate_work`'s result. */
  datatype SimulationResult = SimulationResult(dataPoints: nat)

  /** Which workload runs, and with what. */
  datatype Run =
    | FibonacciRun(shown: int, index: int, value: int)
    | SimulationRun(invalidArgument: bool, result: SimulationResult)

  /** The lines the script prints, without their text formatting. */
  datatype Line =
    | FibonacciLine(n: int, value: int)
    | InvalidArgumentNotice
    | SimulationLine(dataPoints: nat)

  /** Python's `min(n, 35)`. */
  function Clamp(n: int): (i: int)
    ensures i <= FibonacciCap
    ensures i == n || i == FibonacciCap
    ensures n <= FibonacciCap ==> i == n
    ensures n >= FibonacciCap ==> i == FibonacciCap
  {
    if n <= FibonacciCap then n else FibonacciCap
  }

  /** Reads the command line: only the first argument after the program
      name is looked at, and only when there is one. */
  function Classify(argv: seq<string>, parse: string -> Option<int>): (a: Argument)
    ensures a.NoArgument? <==> |argv| <= 1
    ensures |argv| > 1 && parse(argv[1]).Some? ==> a == Parsed(parse(argv[1]).value)
    ensures |argv| > 1 && parse(argv[1]).None? ==> a == Unparseable
  {
    if |argv| > 1 then
      match parse(argv[1])
      case Some(n) => Parsed(n)
      case None => Unparseable
    else
      NoArgument
  }

  /** The buffer of random values `simulate_work` allocates, one draw per
      position. */
  function Buffer(draw: int -> real): (data: seq<real>)
    ensures |data| == BufferSize
    ensures forall i :: 0 <= i < |data| ==> data[i] == draw(i)
  {
    seq(BufferSize, i => draw(i))
  }

  /** `simulate_work`: whatever the draws, it reports exactly 10000 data points. */
  function SimulateWork(draw: int -> real): (r: SimulationResult)
    ensures r.dataPoints == BufferSize
  {
    SimulationResult(|Buffer(draw)|)
  }

  /** The decision `main` takes. A parsed integer runs the calculator on the
      clamped index and labels the result with the integer as given; no
      argument, or one that does not parse, runs the simulator, and in the
      second case the invalid-argument notice is due. */
  function Dispatch(arg: Argument, draw: int -> real): (run: Run)
    ensures run.FibonacciRun? <==> arg.Parsed?
    ensures run.SimulationRun? <==> arg.NoArgument? || arg.Unparseable?
    ensures arg.Parsed? ==> run.shown == arg.n
    ensures arg.Parsed? ==> run.index <= FibonacciCap
    ensures arg.Parsed? && arg.n <= FibonacciCap ==> run.index == arg.n
    ensures arg.Parsed? && arg.n >= FibonacciCap ==> run.index == FibonacciCap
    ensures arg.Parsed? ==> run.value == Fibonacci.Fib(run.index)
    ensures run.SimulationRun? ==> (run.invalidArgument <==> arg.Unparseable?)
    ensures run.SimulationRun? ==> run.result.dataPoints == BufferSize
  {
    match arg
    case Parsed(n) =>
      var index := Clamp(n);
      FibonacciRun(n, index, Fibonacci.Fib(index))
    case Unparseable => SimulationRun(true, SimulateWork(draw))
    case NoArgument => SimulationRun(false, SimulateWork(draw))
  }

  /** The lines printed for a run, in order: the run's result line comes
      last, and the invalid-argument notice, printed only by a simulation
      run that fell back from an unparseable argument, comes before it. */
  function Printed(run: Run): (out: seq<Line>)
    ensures 1 <= |out| <= 2
    ensures run.FibonacciRun? ==> out[|out| - 1] == FibonacciLine(run.shown, run.value)
    ensures run.SimulationRun? ==> out[|out| - 1] == SimulationLine(run.result.dataPoints)
    ensures InvalidArgumentNotice in out <==> run.SimulationRun? && run.invalidArgument
    ensures |out| == 2 <==> InvalidArgumentNotice in out
    ensures |out| == 2 ==> out[0] == InvalidArgumentNotice
  {
    match run
    case FibonacciRun(shown, _, value) => [FibonacciLine(shown, value)]
    case SimulationRun(invalid, result) =>
      (if invalid then [InvalidArgumentNotice] else []) + [SimulationLine(result.dataPoints)]
  }

  /** The whole script: read the command line, decide, print. */
  function RunScript(argv: seq<string>, parse: string -> Option<int>, draw: int -> real): (out: seq<Line>)
    ensures |argv| <= 1 ==> out == [SimulationLine(BufferSize)]
    ensures |argv| > 1 && parse(argv[1]).None? ==>
      out == [InvalidArgumentNotice, SimulationLine(BufferSize)]
    ensures |argv| > 1 && parse(argv[1]).Some? ==>
      var n := parse(argv[1]).value;
      out == [FibonacciLine(n, Fibonacci.Fib(Clamp(n)))]
  {
    Printed(Dispatch(Classify(argv, parse), draw))
  }

  /** Every integer argument at or above the cap computes the same value as
      the cap, 35, while the label keeps the integer as given. */
  lemma ClampSaturates(argv: seq<string>, parse: string -> Option<int>, draw: int -> real, n: int)
    requires |argv| > 1 && parse(argv[1]) == Some(n)
    requires n >= FibonacciCap
    ensures RunScript(argv, parse, draw) == [FibonacciLine(n, 9227465)]
    ensures Dispatch(Classify(argv, parse), draw).value == Dispatch(Parsed(FibonacciCap), draw).value
  {
    Fibonacci.ValueAtCap();
  }

  /** Argument "100" behaves like argument "35" apart from its label: both
      print the value 9227465. */
  lemma ArgumentHundred(prog: string, parse: string -> Option<int>, draw: int -> real)
    requires parse("100") == Some(100) && parse("35") == Some(35)
    ensures RunScript([prog, "100"], parse, draw) == [FibonacciLine(100, 9227465)]
    ensures RunScript([prog, "35"], parse, draw) == [FibonacciLine(35, 9227465)]
  {
    ClampSaturates([prog, "100"], parse, draw, 100);
    ClampSaturates([prog, "35"], parse, draw, 35);
  }

  /** Argument "10" prints exactly `Fibonacci(10) = 55`. */
  lemma ArgumentTen(prog: string, parse: string -> Option<int>, draw: int -> real)
    requires parse("10") == Some(10)
    ensures RunScript([prog, "10"], parse, draw) == [FibonacciLine(10, 55)]
  {
    Fibonacci.KnownValues();
  }

  /** A negative or small integer argument is neither clamped nor recursed
      on: its value is the integer itself. */
  lemma SmallArgument(argv: seq<string>, parse: string -> Option<int>, draw: int -> real, n: int)
    requires |argv| > 1 && parse(argv[1]) == Some(n)
    requires n <= 1
    ensures RunScript(argv, parse, draw) == [FibonacciLine(n, n)]
  {
    Fibonacci.BaseCase(n);
  }

  /** The clamp bounds the printed value of the calculator branch from above
      by the value at the cap, for every integer argument. */
  lemma {:induction false} FibonacciValueBounded(n: int, draw: int -> real)
    ensures Dispatch(Parsed(n), draw).value <= 9227465
  {
    Fibonacci.ValueAtCap();
    Fibonacci.Monotone(Clamp(n), FibonacciCap);
  }

  /** The modelled output never depends on the values drawn into the
      simulator's buffer: only the buffer's length is printed. */
  lemma OutputIgnoresBufferValues(argv: seq<string>, parse: string -> Option<int>, d1: int -> real, d2: int -> real)
    ensures RunScript(argv, parse, d1) == RunScript(argv, parse, d2)
  {
  }
}
