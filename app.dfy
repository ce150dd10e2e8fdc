/** The application state: the list of plotted functions, the operations the
    sidebar triggers on it, the id counter that names new entries, and the
    two derivations computed from the list on every change (the compiled
    functions handed to the canvas and the list annotated with compile
    errors handed to the sidebar). The mathematics library's `compile` is a
    parameter throughout. */
module App {
  import opened Types
  import opened MathEval
  import opened CanvasRenderer
  import GraphCanvas

  /** The eight colours new functions cycle through. */
  const PALETTE: seq<string> := [
    "#e53935", "#1e88e5", "#43a047", "#fb8c00",
    "#8e24aa", "#00acc1", "#6d4c41", "#546e7a"
  ]

  /** Centre (0, 0), 50 pixels per unit. */
  const DEFAULT_VIEWPORT := Viewport(0.0, 0.0, 50.0)

  /** The start-up viewport lies inside the zoom clamp range, and its grid
      lines are two units apart. */
  lemma DefaultViewportIsReachable()
    ensures GraphCanvas.ScaleInRange(DEFAULT_VIEWPORT)
    ensures GridSpacing(DEFAULT_VIEWPORT.scale) == 2.0
  {
    DefaultScaleSpacing();
  }

  /* ---------------------------------------------------------------------- */
  /* Ids                                                                     */
  /* ---------------------------------------------------------------------- */

  predicate IsDigit(c: char)
  {
    '0' <= c <= '9'
  }

  /** A string made of decimal digits only. */
  predicate IsDecimal(s: string)
  {
    forall i :: 0 <= i < |s| ==> IsDigit(s[i])
  }

  function DigitChar(d: nat): (c: char)
    requires d < 10
    ensures IsDigit(c)
  {
    (('0' as int) + d) as char
  }

  function DigitValue(c: char): nat
    requires IsDigit(c)
  {
    (c as int) - ('0' as int)
  }

  /** `String(n)` for a natural number: its decimal digits, most
      significant first, without leading zeros. */
  function DecimalString(n: nat): (s: string)
    ensures |s| > 0 && IsDecimal(s)
    ensures s[0] == '0' <==> n == 0
  {
    if n < 10 then [DigitChar(n)] else DecimalString(n / 10) + [DigitChar(n % 10)]
  }

  /** The number a string of decimal digits denotes. */
  function ParseDecimal(s: string): nat
    requires IsDecimal(s)
  {
    if s == [] then 0
    else ParseDecimal(s[..|s| - 1]) * 10 + DigitValue(s[|s| - 1])
  }

  /** Reading back the decimal string of n gives n. */
  lemma {:induction false} DecimalRoundTrip(n: nat)
    ensures ParseDecimal(DecimalString(n)) == n
  {
    if n >= 10 {
      var s := DecimalString(n);
      assert s[..|s| - 1] == DecimalString(n / 10);
      DecimalRoundTrip(n / 10);
    }
  }

  /** Different numbers get different decimal strings. */
  lemma DecimalStringInjective(a: nat, b: nat)
    requires a != b
    ensures DecimalString(a) != DecimalString(b)
  {
    DecimalRoundTrip(a);
    DecimalRoundTrip(b);
  }

  /* ---------------------------------------------------------------------- */
  /* List operations                                                         */
  /* ---------------------------------------------------------------------- */

  /** No two entries share an id. */
  ghost predicate DistinctIds(fs: seq<PlottedFunction>)
  {
    forall i, j :: 0 <= i < j < |fs| ==> fs[i].id != fs[j].id
  }

  /** The entry `addFunction` appends: empty, visible, already marked with
      the empty-expression error, coloured by its position. */
  function NewEntry(id: string, position: nat): PlottedFunction
  {
    PlottedFunction(id, "", PALETTE[position % |PALETTE|], true, Some(EMPTY_EXPRESSION))
  }

  /** `addFunction`: append a new entry under a given id. */
  function AddFunction(fs: seq<PlottedFunction>, id: string): (r: seq<PlottedFunction>)
    ensures |r| == |fs| + 1 && r[..|fs|] == fs
    ensures r[|fs|].id == id && r[|fs|].expression == "" && r[|fs|].visible
    ensures r[|fs|].color in PALETTE && r[|fs|].color == PALETTE[|fs| % 8]
    ensures r[|fs|].error == Some(EMPTY_EXPRESSION)
  {
    fs + [NewEntry(id, |fs|)]
  }

  /** The error a new entry starts with is the one compiling its empty
      expression reports, whatever the library does. */
  lemma NewEntryErrorMatchesCompile(fs: seq<PlottedFunction>, id: string, compile: string -> CompileOutcome)
    ensures var r := AddFunction(fs, id);
            r[|fs|].error == TryCompile(r[|fs|].expression, compile).error
  {
    TryCompileBlank("", compile);
  }

  /** A fresh id keeps the ids distinct. */
  lemma AddFreshKeepsIdsDistinct(fs: seq<PlottedFunction>, id: string)
    requires DistinctIds(fs)
    requires forall i :: 0 <= i < |fs| ==> fs[i].id != id
    ensures DistinctIds(AddFunction(fs, id))
  {
  }

  /** `removeFunction`: keep the entries whose id differs, in order. */
  function RemoveFunction(fs: seq<PlottedFunction>, id: string): (r: seq<PlottedFunction>)
    ensures |r| <= |fs|
    ensures forall i :: 0 <= i < |r| ==> r[i].id != id
  {
    if fs == [] then []
    else
      var last := fs[|fs| - 1];
      RemoveFunction(fs[..|fs| - 1], id) + (if last.id == id then [] else [last])
  }

  /** An entry survives removal exactly when it was there and has another
      id. */
  lemma {:induction false} RemoveFunctionMembers(fs: seq<PlottedFunction>, id: string, f: PlottedFunction)
    ensures f in RemoveFunction(fs, id) <==> f in fs && f.id != id
  {
    if fs != [] {
      var init := fs[..|fs| - 1];
      RemoveFunctionMembers(init, id, f);
      assert fs == init + [fs[|fs| - 1]];
    }
  }

  /** Removal distributes over concatenation, so the survivors keep their
      order. */
  lemma {:induction false} RemoveFunctionAppend(a: seq<PlottedFunction>, b: seq<PlottedFunction>, id: string)
    ensures RemoveFunction(a + b, id) == RemoveFunction(a, id) + RemoveFunction(b, id)
    decreases |b|
  {
    if b == [] {
      assert a + b == a;
    } else {
      var b' := b[..|b| - 1];
      assert (a + b)[..|a + b| - 1] == a + b';
      assert (a + b)[|a + b| - 1] == b[|b| - 1];
      RemoveFunctionAppend(a, b', id);
    }
  }

  /** Removing an id no entry has changes nothing. */
  lemma {:induction false} RemoveAbsentId(fs: seq<PlottedFunction>, id: string)
    requires forall i :: 0 <= i < |fs| ==> fs[i].id != id
    ensures RemoveFunction(fs, id) == fs
  {
    if fs != [] {
      RemoveAbsentId(fs[..|fs| - 1], id);
    }
  }

  /** With distinct ids, removing the id of entry i removes exactly that
      entry. */
  lemma RemoveFunctionAt(fs: seq<PlottedFunction>, i: int)
    requires DistinctIds(fs) && 0 <= i < |fs|
    ensures RemoveFunction(fs, fs[i].id) == fs[..i] + fs[i + 1..]
  {
    var id := fs[i].id;
    var pre, post := fs[..i], fs[i + 1..];
    RemoveAround(fs, i);
    RemoveSingle(fs[i]);
    RemoveFunctionAppend([fs[i]], post, id);
    RemoveFunctionAppend(pre, [fs[i]] + post, id);
    SplitAt(fs, i);
    calc {
      RemoveFunction(fs, id);
      RemoveFunction(pre + ([fs[i]] + post), id);
      RemoveFunction(pre, id) + RemoveFunction([fs[i]] + post, id);
      pre + (RemoveFunction([fs[i]], id) + RemoveFunction(post, id));
      pre + ([] + post);
      { assert [] + post == post; }
      pre + post;
    }
  }

  /** With distinct ids, the entries before and after entry i survive the
      removal of its id. */
  lemma RemoveAround(fs: seq<PlottedFunction>, i: int)
    requires DistinctIds(fs) && 0 <= i < |fs|
    ensures RemoveFunction(fs[..i], fs[i].id) == fs[..i]
    ensures RemoveFunction(fs[i + 1..], fs[i].id) == fs[i + 1..]
  {
    var id := fs[i].id;
    var pre, post := fs[..i], fs[i + 1..];
    forall j | 0 <= j < |pre| ensures pre[j].id != id {
      assert pre[j] == fs[j];
    }
    forall j | 0 <= j < |post| ensures post[j].id != id {
      assert post[j] == fs[i + 1 + j];
    }
    RemoveAbsentId(pre, id);
    RemoveAbsentId(post, id);
  }

  lemma RemoveSingle(f: PlottedFunction)
    ensures RemoveFunction([f], f.id) == []
  {
    assert [f][..0] == [];
  }

  lemma SplitAt(fs: seq<PlottedFunction>, i: int)
    requires 0 <= i < |fs|
    ensures fs == fs[..i] + ([fs[i]] + fs[i + 1..])
  {
  }

  /** Removal keeps the ids distinct. */
  lemma {:induction false} RemoveKeepsIdsDistinct(fs: seq<PlottedFunction>, id: string)
    requires DistinctIds(fs)
    ensures DistinctIds(RemoveFunction(fs, id))
  {
    if fs != [] {
      var init := fs[..|fs| - 1];
      var last := fs[|fs| - 1];
      RemoveKeepsIdsDistinct(init, id);
      var r := RemoveFunction(init, id);
      forall k | 0 <= k < |r|
        ensures r[k].id != last.id
      {
        RemoveFunctionMembers(init, id, r[k]);
      }
    }
  }

  /** `updateExpression`: the entries with the id get the new expression. */
  function UpdateExpression(fs: seq<PlottedFunction>, id: string, expr: string): (r: seq<PlottedFunction>)
    ensures |r| == |fs|
    ensures forall i :: 0 <= i < |fs| ==>
              && r[i].id == fs[i].id && r[i].color == fs[i].color
              && r[i].visible == fs[i].visible && r[i].error == fs[i].error
              && r[i].expression == (if fs[i].id == id then expr else fs[i].expression)
  {
    seq(|fs|, i requires 0 <= i < |fs| => if fs[i].id == id then fs[i].(expression := expr) else fs[i])
  }

  /** `updateColor`: the entries with the id get the new colour. */
  function UpdateColor(fs: seq<PlottedFunction>, id: string, color: string): (r: seq<PlottedFunction>)
    ensures |r| == |fs|
    ensures forall i :: 0 <= i < |fs| ==>
              && r[i].id == fs[i].id && r[i].expression == fs[i].expression
              && r[i].visible == fs[i].visible && r[i].error == fs[i].error
              && r[i].color == (if fs[i].id == id then color else fs[i].color)
  {
    seq(|fs|, i requires 0 <= i < |fs| => if fs[i].id == id then fs[i].(color := color) else fs[i])
  }

  /** `toggleVisibility`: the entries with the id flip their visibility. */
  function ToggleVisibility(fs: seq<PlottedFunction>, id: string): (r: seq<PlottedFunction>)
    ensures |r| == |fs|
    ensures forall i :: 0 <= i < |fs| ==>
              && r[i].id == fs[i].id && r[i].expression == fs[i].expression
              && r[i].color == fs[i].color && r[i].error == fs[i].error
              && r[i].visible == (if fs[i].id == id then !fs[i].visible else fs[i].visible)
  {
    seq(|fs|, i requires 0 <= i < |fs| => if fs[i].id == id then fs[i].(visible := !fs[i].visible) else fs[i])
  }

  /** Toggling the same id twice restores the list. */
  lemma ToggleTwiceRestores(fs: seq<PlottedFunction>, id: string)
    ensures ToggleVisibility(ToggleVisibility(fs, id), id) == fs
  {
    var r := ToggleVisibility(ToggleVisibility(fs, id), id);
    assert forall i :: 0 <= i < |fs| ==> r[i] == fs[i];
  }

  /** Of two edits of the same entry's expression (or colour) only the
      second is visible. */
  lemma LastUpdateWins(fs: seq<PlottedFunction>, id: string, a: string, b: string)
    ensures UpdateExpression(UpdateExpression(fs, id, a), id, b) == UpdateExpression(fs, id, b)
    ensures UpdateColor(UpdateColor(fs, id, a), id, b) == UpdateColor(fs, id, b)
  {
    var e1, e2 := UpdateExpression(UpdateExpression(fs, id, a), id, b), UpdateExpression(fs, id, b);
    assert forall i :: 0 <= i < |fs| ==> e1[i] == e2[i];
    var c1, c2 := UpdateColor(UpdateColor(fs, id, a), id, b), UpdateColor(fs, id, b);
    assert forall i :: 0 <= i < |fs| ==> c1[i] == c2[i];
  }

  /** An edit of an id no entry has changes nothing. */
  lemma EditAbsentId(fs: seq<PlottedFunction>, id: string, s: string)
    requires forall i :: 0 <= i < |fs| ==> fs[i].id != id
    ensures UpdateExpression(fs, id, s) == fs
    ensures UpdateColor(fs, id, s) == fs
    ensures ToggleVisibility(fs, id) == fs
  {
    var e, c, t := UpdateExpression(fs, id, s), UpdateColor(fs, id, s), ToggleVisibility(fs, id);
    assert forall i :: 0 <= i < |fs| ==> e[i] == fs[i] && c[i] == fs[i] && t[i] == fs[i];
  }

  /** A list with the same ids position by position keeps distinct ids. */
  lemma SameIdsKeepDistinct(fs: seq<PlottedFunction>, r: seq<PlottedFunction>)
    requires DistinctIds(fs) && |r| == |fs|
    requires forall i :: 0 <= i < |fs| ==> r[i].id == fs[i].id
    ensures DistinctIds(r)
  {
  }

  /* ---------------------------------------------------------------------- */
  /* Derivations                                                             */
  /* ---------------------------------------------------------------------- */

  /** `functionsWithErrors`: every entry annotated with the error its
      expression compiles to (none when it compiles). */
  function FunctionsWithErrors(fs: seq<PlottedFunction>, compile: string -> CompileOutcome): (r: seq<PlottedFunction>)
    ensures |r| == |fs|
    ensures forall i :: 0 <= i < |fs| ==>
              && r[i].id == fs[i].id && r[i].expression == fs[i].expression
              && r[i].color == fs[i].color && r[i].visible == fs[i].visible
              && r[i].error == TryCompile(fs[i].expression, compile).error
  {
    seq(|fs|, i requires 0 <= i < |fs| => fs[i].(error := TryCompile(fs[i].expression, compile).error))
  }

  /** Annotating an annotated list changes nothing more. */
  lemma FunctionsWithErrorsIdempotent(fs: seq<PlottedFunction>, compile: string -> CompileOutcome)
    ensures FunctionsWithErrors(FunctionsWithErrors(fs, compile), compile) == FunctionsWithErrors(fs, compile)
  {
    var once := FunctionsWithErrors(fs, compile);
    var twice := FunctionsWithErrors(once, compile);
    assert forall i :: 0 <= i < |fs| ==> twice[i] == once[i];
  }

  /** The renderer's record for an entry whose expression compiled. */
  function ToCompiled(f: PlottedFunction, fn: Evaluator): CompiledFunction
  {
    CompiledFunction(f.id, fn, f.color, f.visible)
  }

  /** Whether an entry's expression compiles. */
  predicate Compiles(f: PlottedFunction, compile: string -> CompileOutcome)
  {
    TryCompile(f.expression, compile).fn.Some?
  }

  /** The list `compiled` produces: one record per entry that compiles, in
      list order. */
  function Compiled(fs: seq<PlottedFunction>, compile: string -> CompileOutcome): (r: seq<CompiledFunction>)
    ensures |r| <= |fs|
  {
    if fs == [] then []
    else
      var f := fs[|fs| - 1];
      Compiled(fs[..|fs| - 1], compile) + (if Compiles(f, compile) then [CompiledOf(f, compile)] else [])
  }

  /** `compiled`: compile every entry and push the ones that succeed. */
  method CompileFunctions(fs: seq<PlottedFunction>, compile: string -> CompileOutcome) returns (results: seq<CompiledFunction>)
    ensures results == Compiled(fs, compile)
  {
    results := [];
    for i := 0 to |fs|
      invariant results == Compiled(fs[..i], compile)
    {
      var f := fs[i];
      assert fs[..i + 1][..i] == fs[..i];
      var result := TryCompile(f.expression, compile);
      if result.fn.Some? {
        results := results + [ToCompiled(f, result.fn.value)];
      }
    }
    assert fs[..|fs|] == fs;
  }

  /** The record an entry that compiles contributes. */
  function CompiledOf(f: PlottedFunction, compile: string -> CompileOutcome): CompiledFunction
    requires Compiles(f, compile)
  {
    ToCompiled(f, TryCompile(f.expression, compile).fn.value)
  }

  /** Every entry that compiles is rendered: entry `i`'s record is the
      k-th one. */
  lemma {:induction false} CompiledComplete(fs: seq<PlottedFunction>, compile: string -> CompileOutcome, i: int)
    returns (k: int)
    requires 0 <= i < |fs| && Compiles(fs[i], compile)
    ensures 0 <= k < |Compiled(fs, compile)| && Compiled(fs, compile)[k] == CompiledOf(fs[i], compile)
  {
    var init, last := fs[..|fs| - 1], fs[|fs| - 1];
    var tail := if Compiles(last, compile) then [CompiledOf(last, compile)] else [];
    assert Compiled(fs, compile) == Compiled(init, compile) + tail;
    if i < |fs| - 1 {
      assert init[i] == fs[i];
      k := CompiledComplete(init, compile, i);
    } else {
      k := |Compiled(init, compile)|;
    }
  }

  /** Every rendered record comes from an entry that compiles: the k-th
      record is the record of entry `i`. */
  lemma {:induction false} CompiledSource(fs: seq<PlottedFunction>, compile: string -> CompileOutcome, k: int)
    returns (i: int)
    requires 0 <= k < |Compiled(fs, compile)|
    ensures 0 <= i < |fs| && Compiles(fs[i], compile)
    ensures Compiled(fs, compile)[k] == CompiledOf(fs[i], compile)
  {
    var init, last := fs[..|fs| - 1], fs[|fs| - 1];
    var tail := if Compiles(last, compile) then [CompiledOf(last, compile)] else [];
    assert Compiled(fs, compile) == Compiled(init, compile) + tail;
    if k < |Compiled(init, compile)| {
      i := CompiledSource(init, compile, k);
      assert fs[i] == init[i];
    } else {
      i := |fs| - 1;
      assert Compiled(fs, compile)[k] == tail[0];
    }
  }

  /** Compiling distributes over concatenation, so rendered functions keep
      the list order. */
  lemma {:induction false} CompiledAppend(a: seq<PlottedFunction>, b: seq<PlottedFunction>, compile: string -> CompileOutcome)
    ensures Compiled(a + b, compile) == Compiled(a, compile) + Compiled(b, compile)
    decreases |b|
  {
    if b == [] {
      assert a + b == a;
    } else {
      var b' := b[..|b| - 1];
      assert (a + b)[..|a + b| - 1] == a + b';
      assert (a + b)[|a + b| - 1] == b[|b| - 1];
      CompiledAppend(a, b', compile);
    }
  }

  /** With distinct ids, the sidebar shows an entry without an error
      exactly when the canvas receives a function with its id: the two
      derivations agree. */
  lemma ErrorFreeIffRendered(fs: seq<PlottedFunction>, compile: string -> CompileOutcome, i: int)
    requires DistinctIds(fs) && 0 <= i < |fs|
    ensures FunctionsWithErrors(fs, compile)[i].error.None? <==>
              exists k :: 0 <= k < |Compiled(fs, compile)| && Compiled(fs, compile)[k].id == fs[i].id
  {
    RenderedIffCompiles(fs, compile, i);
  }

  /** With distinct ids, an entry's id reaches the canvas exactly when the
      entry compiles. */
  lemma RenderedIffCompiles(fs: seq<PlottedFunction>, compile: string -> CompileOutcome, i: int)
    requires DistinctIds(fs) && 0 <= i < |fs|
    ensures Compiles(fs[i], compile) <==>
              exists k :: 0 <= k < |Compiled(fs, compile)| && Compiled(fs, compile)[k].id == fs[i].id
  {
    if Compiles(fs[i], compile) {
      var k := CompiledComplete(fs, compile, i);
    } else {
      forall k | 0 <= k < |Compiled(fs, compile)|
        ensures Compiled(fs, compile)[k].id != fs[i].id
      {
        var j := CompiledSource(fs, compile, k);
      }
    }
  }

  /* ---------------------------------------------------------------------- */
  /* Application state                                                       */
  /* ---------------------------------------------------------------------- */

  /** The state `App` keeps across events: the module-level id counter and
      the function list. `issued` records every id the counter has handed
      out. */
  class Calculator {
    var nextId: nat
    var functions: seq<PlottedFunction>
    ghost var issued: seq<string>

    /** The counter has issued "1" .. nextId - 1 in order, every entry's id
        is one of them, and no two entries share an id. */
    ghost predicate Valid()
      reads this
    {
      && nextId >= 1
      && |issued| == nextId - 1
      && (forall k :: 0 <= k < |issued| ==> issued[k] == DecimalString(k + 1))
      && (forall i :: 0 <= i < |functions| ==> functions[i].id in issued)
      && DistinctIds(functions)
    }

    /** Start-up: the counter at 1 and one visible entry "x^2" in the first
        palette colour, named by the counter. */
    constructor()
      ensures Valid()
      ensures nextId == 2
      ensures functions == [PlottedFunction("1", "x^2", PALETTE[0], true, None)]
    {
      nextId := 1;
      functions := [];
      issued := [];
      new;
      var id := MakeId();
      functions := [PlottedFunction(id, "x^2", PALETTE[0], true, None)];
    }

    /** `makeId`: the decimal string of the counter, which then advances.
        The id is new and denotes a larger number than every earlier one. */
    method MakeId() returns (id: string)
      requires nextId >= 1 && |issued| == nextId - 1
      requires forall k :: 0 <= k < |issued| ==> issued[k] == DecimalString(k + 1)
      modifies this
      ensures id == DecimalString(old(nextId)) && nextId == old(nextId) + 1
      ensures IsDecimal(id) && forall k :: 0 <= k < |old(issued)| ==> IsDecimal(old(issued)[k])
      ensures issued == old(issued) + [id] && functions == old(functions)
      ensures id !in old(issued)
      ensures forall k :: 0 <= k < |old(issued)| ==> ParseDecimal(old(issued)[k]) < ParseDecimal(id)
      ensures old(Valid()) ==> Valid()
    {
      id := DecimalString(nextId);
      forall k | 0 <= k < |issued|
        ensures issued[k] != id && ParseDecimal(issued[k]) < ParseDecimal(id)
      {
        DecimalStringInjective(k + 1, nextId);
        DecimalRoundTrip(k + 1);
        DecimalRoundTrip(nextId);
      }
      nextId := nextId + 1;
      issued := issued + [id];
    }

    /** One render of `App`: the initial list handed to `useState` is built
        again and thrown away, so `makeId` runs and its id is never used.
        The list is unchanged; the counter has moved on. */
    method Render()
      requires Valid()
      modifies this
      ensures Valid()
      ensures functions == old(functions) && nextId == old(nextId) + 1
    {
      var discarded := MakeId();
    }

    /** `addFunction` with a fresh id. */
    method Add()
      requires Valid()
      modifies this
      ensures Valid()
      ensures functions == AddFunction(old(functions), DecimalString(old(nextId)))
      ensures nextId == old(nextId) + 1
    {
      var id := MakeId();
      AddFreshKeepsIdsDistinct(functions, id);
      functions := AddFunction(functions, id);
    }

    /** `removeFunction`. */
    method Remove(id: string)
      requires Valid()
      modifies this
      ensures Valid()
      ensures functions == RemoveFunction(old(functions), id) && nextId == old(nextId)
    {
      var r := RemoveFunction(functions, id);
      RemoveKeepsIdsDistinct(functions, id);
      forall i | 0 <= i < |r|
        ensures r[i].id in issued
      {
        RemoveFunctionMembers(functions, id, r[i]);
      }
      functions := r;
    }

    /** `updateExpression`. */
    method SetExpression(id: string, expr: string)
      requires Valid()
      modifies this
      ensures Valid()
      ensures functions == UpdateExpression(old(functions), id, expr) && nextId == old(nextId)
    {
      SameIdsKeepDistinct(functions, UpdateExpression(functions, id, expr));
      functions := UpdateExpression(functions, id, expr);
    }

    /** `updateColor`. */
    method SetColor(id: string, color: string)
      requires Valid()
      modifies this
      ensures Valid()
      ensures functions == UpdateColor(old(functions), id, color) && nextId == old(nextId)
    {
      SameIdsKeepDistinct(functions, UpdateColor(functions, id, color));
      functions := UpdateColor(functions, id, color);
    }

    /** `toggleVisibility`. */
    method Toggle(id: string)
      requires Valid()
      modifies this
      ensures Valid()
      ensures functions == ToggleVisibility(old(functions), id) && nextId == old(nextId)
    {
      SameIdsKeepDistinct(functions, ToggleVisibility(functions, id));
      functions := ToggleVisibility(functions, id);
    }
  }
}
