/** The adapter between the plotting engine and the expression library.
    The library itself (its parser and evaluator) is abstract: a compiled
    expression is a function from the value bound to `x` to an outcome. */
module MathEval {
  import opened Types

  /** A JavaScript number, with the non-finite values kept apart. */
  datatype Float = Finite(value: real) | NaN | PositiveInfinity | NegativeInfinity

  /** What one call of a compiled expression's `evaluate` does: it throws,
      returns something that is not a number (a matrix, a unit, ...), or
      returns a number. */
  datatype EvalOutcome = Threw(message: string) | NonNumber | Number(n: Float)

  /** A compiled expression, observed only through evaluation at `x`. */
  type Evaluator = real -> EvalOutcome

  /** What the library's `compile` does with an expression text. */
  datatype CompileOutcome = Parsed(evaluator: Evaluator) | CompileThrew(message: string)

  /** The record `tryCompile` returns: a compiled function or an error text. */
  datatype CompileResult = CompileResult(fn: Option<Evaluator>, error: Option<string>)

  const EMPTY_EXPRESSION: string := "Empty expression"

  /** The characters JavaScript's `String.prototype.trim` removes: the
      WhiteSpace and LineTerminator code points of ECMAScript. */
  predicate IsJsWhitespace(c: char)
  {
    || c == '\t' || c == '\n' || c == '\U{B}' || c == '\U{C}' || c == '\r'
    || c == ' ' || c == '\U{A0}' || c == '\U{1680}'
    || ('\U{2000}' <= c <= '\U{200A}')
    || c == '\U{2028}' || c == '\U{2029}' || c == '\U{202F}' || c == '\U{205F}'
    || c == '\U{3000}' || c == '\U{FEFF}'
  }

  /** Every character of `s` is whitespace (the empty text included). */
  predicate IsBlank(s: string)
  {
    forall i :: 0 <= i < |s| ==> IsJsWhitespace(s[i])
  }

  function TrimStart(s: string): (t: string)
    ensures |t| <= |s| && t == s[|s| - |t|..]
    ensures t != [] ==> !IsJsWhitespace(t[0])
  {
    if |s| > 0 && IsJsWhitespace(s[0]) then TrimStart(s[1..]) else s
  }

  function TrimEnd(s: string): (t: string)
    ensures |t| <= |s| && t == s[..|t|]
    ensures t != [] ==> !IsJsWhitespace(t[|t| - 1])
  {
    if |s| > 0 && IsJsWhitespace(s[|s| - 1]) then TrimEnd(s[..|s| - 1]) else s
  }

  /** JavaScript's `trim`: whitespace removed from both ends. */
  function Trim(s: string): string
  {
    TrimEnd(TrimStart(s))
  }

  lemma {:induction false} TrimStartEmptyIffBlank(s: string)
    ensures TrimStart(s) == [] <==> IsBlank(s)
  {
    if |s| > 0 && IsJsWhitespace(s[0]) {
      TrimStartEmptyIffBlank(s[1..]);
      assert IsBlank(s) <==> IsBlank(s[1..]) by {
        if IsBlank(s[1..]) {
          forall i | 0 <= i < |s| ensures IsJsWhitespace(s[i]) {
            if i > 0 { assert s[i] == s[1..][i - 1]; }
          }
        }
      }
    }
  }

  /** `expr.trim()` is the empty string exactly when `expr` is blank; this is
      the test `tryCompile` uses to reject an expression without compiling. */
  lemma TrimEmptyIffBlank(s: string)
    ensures Trim(s) == [] <==> IsBlank(s)
  {
    TrimStartEmptyIffBlank(s);
    var t := TrimStart(s);
    if t != [] {
      assert TrimEnd(t) != [] by {
        if TrimEnd(t) == [] {
          TrimEndOnlyDropsWhitespace(t);
        }
      }
    }
  }

  lemma {:induction false} TrimEndOnlyDropsWhitespace(t: string)
    ensures forall i :: |TrimEnd(t)| <= i < |t| ==> IsJsWhitespace(t[i])
  {
    if |t| > 0 && IsJsWhitespace(t[|t| - 1]) {
      TrimEndOnlyDropsWhitespace(t[..|t| - 1]);
    }
  }

  /** `tryCompile`: a blank expression is rejected with "Empty expression"
      before the library is consulted; otherwise the expression is compiled
      and evaluated once at x = 0, and an exception from either step becomes
      the error text. Exactly one of `fn` and `error` is present. */
  function TryCompile(expr: string, compile: string -> CompileOutcome): (r: CompileResult)
    ensures r.fn.Some? != r.error.Some?
  {
    TrimEmptyIffBlank(expr);
    if Trim(expr) == [] then
      CompileResult(None, Some(EMPTY_EXPRESSION))
    else
      match compile(expr)
      case CompileThrew(message) => CompileResult(None, Some(message))
      case Parsed(evaluator) =>
        match evaluator(0.0)
        case Threw(message) => CompileResult(None, Some(message))
        case _ => CompileResult(Some(evaluator), None)
  }

  /** A blank expression (empty or whitespace only) is rejected without
      calling the library. */
  lemma TryCompileBlank(expr: string, compile: string -> CompileOutcome)
    requires IsBlank(expr)
    ensures TryCompile(expr, compile) == CompileResult(None, Some(EMPTY_EXPRESSION))
  {
    TrimEmptyIffBlank(expr);
  }

  /** An exception from compiling or from the trial evaluation at x = 0
      becomes the error text. */
  lemma TryCompileReportsExceptions(expr: string, compile: string -> CompileOutcome)
    requires !IsBlank(expr)
    ensures compile(expr).CompileThrew? ==>
              TryCompile(expr, compile) == CompileResult(None, Some(compile(expr).message))
    ensures compile(expr).Parsed? && compile(expr).evaluator(0.0).Threw? ==>
              TryCompile(expr, compile) == CompileResult(None, Some(compile(expr).evaluator(0.0).message))
  {
    TrimEmptyIffBlank(expr);
  }

  /** A function is handed out exactly when the expression is not blank, it
      compiles, and evaluating it at x = 0 does not throw; it is the compiled
      evaluator itself. */
  lemma TryCompileSucceeds(expr: string, compile: string -> CompileOutcome)
    ensures TryCompile(expr, compile).fn.Some? <==>
              !IsBlank(expr) && compile(expr).Parsed? && !compile(expr).evaluator(0.0).Threw?
    ensures TryCompile(expr, compile).fn.Some? ==>
              TryCompile(expr, compile).fn.value == compile(expr).evaluator
  {
    TrimEmptyIffBlank(expr);
  }

  /** A compiled function that `TryCompile` hands out has been evaluated at
      x = 0 without an exception. */
  lemma CompiledFunctionSurvivedTrial(expr: string, compile: string -> CompileOutcome)
    requires TryCompile(expr, compile).fn.Some?
    ensures !TryCompile(expr, compile).fn.value(0.0).Threw?
  {
  }

  /** `safeEvaluate`: the evaluator's result when it is a finite number, NaN
      in every other case (an exception, a non-number, NaN or an infinity). */
  function SafeEvaluate(fn: Evaluator, x: real): (r: Float)
    ensures r.Finite? || r.NaN?
    ensures r.Finite? <==> fn(x).Number? && fn(x).n.Finite?
    ensures r.Finite? ==> r == fn(x).n
  {
    match fn(x)
    case Threw(_) => NaN
    case NonNumber => NaN
    case Number(n) => if n.Finite? then n else NaN
  }
}
