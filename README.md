# Benchmark workload script, modelled in Dafny

The repository's script `example_python_script.py` is a synthetic workload for
benchmarking. Given an integer argument it computes a Fibonacci number by
naive recursion, with the index capped at 35. With no argument, or with one
that is not an integer, it runs a work simulator instead. The simulator burns
CPU for a random time and allocates a buffer of 10000 random values.

The project has two modules:

- `Fibonacci` (`fibonacci.dfy`) — the recursive calculator `Fib`, the value the
  script's recursion defines. Integers at or below 1, negative ones included, are returned
  unchanged. Each larger index is the sum of the two preceding values. Beside
  it sit a count of the calls one evaluation makes (`Calls`) and a
  linear-time reference definition (`FibPair`). Lemmas tie all three
  together.
- `BenchmarkScript` (`script.dfy`) — the decision logic of `main` as pure
  functions. `Classify` reads the command line, `Dispatch` chooses the branch
  and its values, `Printed` lists the output lines in order, and `RunScript`
  composes the three.

The command line is a `seq<string>` with the program name first, as in
`sys.argv`. Python's `int()` is a parameter `parse: string -> Option<int>`,
where `None` stands for a `ValueError`. The random values that fill the
simulator's buffer (line 29) are a parameter `draw: int -> real`; `draw`
stands for those draws only. The work-time draw (line 20) is left out, together
with the accumulated result derived from it. Output lines are abstract values. Only their
data are kept (the label and value of the Fibonacci line, the invalid-argument
notice, the data-point count), not their text.

Negative indices: the code's base-case test `n <= 1` returns any negative
`n` unchanged, so `fibonacci(-5)` is `-5`, and so is the line printed for
argument `-5`. The model follows the code. It does not treat negative input as
undefined.

## Model

| member | source | states |
|---|---|---|
| `Fibonacci.Fib` | example_python_script.py:11-15 | the recursion terminates for every integer (the index strictly decreases to the `n <= 1` base case); the result is non-negative for every non-negative index and at least 1 from index 1 on |
| `Fibonacci.BaseCase` | example_python_script.py:13-14 | every integer `n <= 1`, negatives included, yields `n` itself, and evaluating it makes exactly one call (no recursion) |
| `Fibonacci.Recurrence` | example_python_script.py:15 | for every `n >= 2` the result is the sum of the results at `n - 1` and `n - 2` |
| `Fibonacci.Calls` | example_python_script.py:13-15 | evaluating any index makes at least one call, and at least three whenever it recurses |
| `Fibonacci.NoRecursionIffBaseCase` | example_python_script.py:13-15 | an evaluation makes a single call if and only if the index is at most 1 |
| `Fibonacci.CallsCount` | example_python_script.py:13-15 | for `n >= 0`, evaluating `fibonacci(n)` makes exactly `2 * fib(n + 1) - 1` calls |
| `Fibonacci.FibPairAgrees` | example_python_script.py:11-15 | the recursion agrees at every non-negative index with an independent linear definition built upwards from (0, 1) |
| `Fibonacci.Monotone` | example_python_script.py:13-15 | the result never decreases as the index grows, over all integers, negative ones included |
| `Fibonacci.Doubling` | example_python_script.py:13-15 | for `n >= 0`, two steps along the sequence at least double the value: `fib(n + 2) >= 2 * fib(n)` |
| `Fibonacci.ExponentialGrowth` | example_python_script.py:13-15 | `fib(2k + 1) >= 2^k` for every `k >= 0`; with `CallsCount`, the value grows at least exponentially in the index |
| `Fibonacci.CallsGrow` | example_python_script.py:12-15 | evaluating `fibonacci(2k)` makes at least `2^(k+1) - 1` calls: the call count grows exponentially in the index, the inefficiency the docstring names |
| `Fibonacci.KnownValues` | example_python_script.py:11-15 | `fib(0) = 0`, `fib(1) = 1`, `fib(2) = 1`, `fib(10) = 55` |
| `Fibonacci.ValueAtCap` | example_python_script.py:38 | `fib(35) = 9227465`, the value at the cap |
| `BenchmarkScript.Clamp` | example_python_script.py:38 | `min(n, 35)` never exceeds 35; it is `n` itself up to 35 and 35 from there on |
| `BenchmarkScript.Classify` | example_python_script.py:34-37 | there is no argument exactly when the command line holds at most the program name; otherwise only the first argument is parsed, and it gives a parsed integer or an unparseable argument |
| `BenchmarkScript.Buffer` | example_python_script.py:29 | the simulator's buffer has exactly 10000 elements, one draw per position |
| `BenchmarkScript.SimulateWork` | example_python_script.py:29-31 | whatever the random draws, the reported data-point count is 10000 |
| `BenchmarkScript.Dispatch` | example_python_script.py:34-47 | the Fibonacci branch runs if and only if the argument parsed; the simulation runs if and only if there is no argument or it did not parse; the label is the unclamped `n`, the index is at most 35 (equal to `n` up to 35, equal to 35 above), and the value is `fib` of that index; the notice is due exactly for an unparseable argument; the simulation reports 10000 data points |
| `BenchmarkScript.Printed` | example_python_script.py:39-47 | one or two lines per run; the last is the run's result line (the Fibonacci line with its label and value, or the simulation line with its data-point count); the invalid-argument notice appears exactly for a simulation that fell back from an unparseable argument, and then it comes first |
| `BenchmarkScript.RunScript` | example_python_script.py:33-47 | the complete output per command line: with no argument, one simulation line with 10000 data points; with an unparseable argument, the invalid-argument notice and then that line; with integer `n`, exactly one line `Fibonacci(n) = fib(min(n, 35))` |
| `BenchmarkScript.ClampSaturates` | example_python_script.py:34-39 | a command line whose first argument parses as any `n >= 35` prints exactly `Fibonacci(n) = 9227465`, the same value as for 35 |
| `BenchmarkScript.ArgumentHundred` | example_python_script.py:34-39 | the command line with argument "100" prints `Fibonacci(100) = 9227465`, and argument "35" prints `Fibonacci(35) = 9227465`: the same value, only the label differs |
| `BenchmarkScript.ArgumentTen` | example_python_script.py:34-39 | the command line with argument "10" prints exactly `Fibonacci(10) = 55` |
| `BenchmarkScript.SmallArgument` | example_python_script.py:34-39 | a command line whose first argument parses as an integer `n <= 1`, negatives included, prints exactly `Fibonacci(n) = n` |
| `BenchmarkScript.FibonacciValueBounded` | example_python_script.py:38 | because of the cap, the printed Fibonacci value is at most 9227465 for every integer argument |
| `BenchmarkScript.OutputIgnoresBufferValues` | example_python_script.py:29-47 | the modelled output does not depend on the values drawn into the buffer (line 29), only on its length |

## Left out

- The random work time (line 20), the iteration count derived from it (line 24) and the accumulation loop `result += i * 0.001` (lines 25-26): these are randomness and floating point whose only purpose is to burn CPU time. The simulator's accumulated result therefore does not appear in `SimulationResult` or `SimulationLine`.
- The values in the random buffer (line 29): the draws are an abstract parameter, and only the buffer's length is observed.
- `sys.argv`, Python's `int()` parsing and `ValueError` (lines 34-40): these are replaced by a sequence of strings and an abstract parse function. Which strings `int()` accepts (signs, surrounding whitespace, underscores) is not modelled.
- `print` and the `:.2f` formatting (lines 39, 41, 43, 47): output lines are abstract values, not text.
- Fib: does not model Python's recursion-depth limit. `fibonacci(n)` raises `RecursionError` once the `n - 1` chain of line 15 is about 1000 frames deep, for n above roughly 1000, while `Fib(n)` returns the value the recursion defines. `main` never passes an index above 35 (line 38), so the script cannot reach that path; `Fib`, `Monotone`, `ExponentialGrowth` and `CallsGrow` are stated over all integers nonetheless.
- Running time: the model states how many calls an evaluation makes, not how long they take.
- The imports and the `__main__` guard (lines 7-9, 49-50).
