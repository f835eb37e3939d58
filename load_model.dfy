/** Loading and building a model description (file_management/load_model.py). A model
    is assembled from component files of the model library; each holds equations
    and, optionally, dicts of bounds, constants and initial values whose string
    entries are evaluated. Reading the yaml files and Python's `eval` are parameters:
    the library maps a component name to its parsed contents, and `eval` maps an
    expression to its value. */
module LoadModel {
  import opened Results

  /** A yaml scalar of a model description: a number, or a string to evaluate. */
  datatype Value = Num(x: real) | Text(s: string)

  /** One parsed component file. `equations` is the one key that must be present;
      absent dicts are empty, as `description.get(key, {})` makes them. */
  datatype Component = Component(
    equations: Option<string>,
    bounds: map<string, seq<Value>>,
    constants: map<string, Value>,
    init: map<string, Value>)

  /** The dict `load_models` returns. */
  datatype Model = Model(
    equations: string,
    init: map<string, Value>,
    constants: map<string, Value>,
    bounds: map<string, seq<Value>>)

  /** Python's `eval` of an expression in the module's namespace. */
  type Eval = string -> real

  /** A string is evaluated, a number is kept. */
  function Evaluated(v: Value, eval: Eval): Value {
    if v.Text? then Num(eval(v.s)) else v
  }

  /** A bounds list with its string entries evaluated. */
  function EvaluatedBound(b: seq<Value>, eval: Eval): (r: seq<Value>)
    ensures |r| == |b|
  {
    seq(|b|, i requires 0 <= i < |b| => Evaluated(b[i], eval))
  }

  /** Evaluating a bounds list keeps its length and its numbers, and leaves no string. */
  lemma EvaluatedBoundMeaning(b: seq<Value>, eval: Eval)
    ensures |EvaluatedBound(b, eval)| == |b|
    ensures forall i :: 0 <= i < |b| && b[i].Num? ==> EvaluatedBound(b, eval)[i] == b[i]
    ensures forall i :: 0 <= i < |b| && b[i].Text? ==> EvaluatedBound(b, eval)[i] == Num(eval(b[i].s))
    ensures forall i :: 0 <= i < |b| ==> EvaluatedBound(b, eval)[i].Num?
  {
  }

  function EvaluatedBounds(bounds: map<string, seq<Value>>, eval: Eval): map<string, seq<Value>> {
    map x | x in bounds :: EvaluatedBound(bounds[x], eval)
  }

  function EvaluatedConstants(constants: map<string, Value>, eval: Eval): map<string, Value> {
    map x | x in constants :: Evaluated(constants[x], eval)
  }

  /** The bounds list is copied and its string entries replaced one by one. */
  method EvaluateBound(b: seq<Value>, eval: Eval) returns (r: seq<Value>)
    ensures r == EvaluatedBound(b, eval)
  {
    r := b;
    var i := 0;
    while i < |b|
      invariant 0 <= i <= |b| && |r| == |b|
      invariant forall k :: 0 <= k < i ==> r[k] == Evaluated(b[k], eval)
      invariant forall k :: i <= k < |b| ==> r[k] == b[k]
    {
      if b[i].Text? {
        r := r[i := Num(eval(b[i].s))];
      }
      i := i + 1;
    }
  }

  // ---- collapsing runs of newlines ------------------------------------------------

  /** `re.sub(r'(\n+)', r'\n', s)`: every run of newlines becomes one newline. */
  function Collapse(s: string): string {
    if |s| <= 1 then s
    else if s[0] == '\n' && s[1] == '\n' then Collapse(s[1..])
    else [s[0]] + Collapse(s[1..])
  }

  /** No two consecutive newlines. */
  predicate NoBlankLine(s: string) {
    forall i :: 0 <= i < |s| - 1 ==> !(s[i] == '\n' && s[i + 1] == '\n')
  }

  /** The text without its newlines. */
  function Strip(s: string): string {
    if |s| == 0 then "" else (if s[0] == '\n' then "" else [s[0]]) + Strip(s[1..])
  }

  lemma {:induction false} CollapseHead(s: string)
    requires |s| > 0
    ensures |Collapse(s)| > 0 && Collapse(s)[0] == s[0]
  {
    if |s| > 1 && s[0] == '\n' && s[1] == '\n' {
      CollapseHead(s[1..]);
    }
  }

  /** Collapsing leaves no two consecutive newlines. */
  lemma {:induction false} CollapseNoBlankLine(s: string)
    ensures NoBlankLine(Collapse(s))
  {
    if |s| > 1 {
      CollapseNoBlankLine(s[1..]);
      if !(s[0] == '\n' && s[1] == '\n') {
        CollapseHead(s[1..]);
        var c := Collapse(s);
        forall i | 0 <= i < |c| - 1
          ensures !(c[i] == '\n' && c[i + 1] == '\n')
        {
          if i > 0 {
            assert c[i] == Collapse(s[1..])[i - 1] && c[i + 1] == Collapse(s[1..])[i];
          }
        }
      }
    }
  }

  lemma {:induction false} StripCons(c: char, s: string)
    ensures Strip([c] + s) == (if c == '\n' then "" else [c]) + Strip(s)
  {
    assert ([c] + s)[1..] == s;
  }

  /** Collapsing keeps every other character, in order. */
  lemma {:induction false} CollapseKeepsText(s: string)
    ensures Strip(Collapse(s)) == Strip(s)
  {
    if |s| > 1 {
      CollapseKeepsText(s[1..]);
      if !(s[0] == '\n' && s[1] == '\n') {
        StripCons(s[0], Collapse(s[1..]));
      }
    }
  }

  /** Text without blank lines is left as it is. */
  lemma {:induction false} CollapseFixed(s: string)
    requires NoBlankLine(s)
    ensures Collapse(s) == s
  {
    if |s| > 1 {
      assert NoBlankLine(s[1..]) by {
        forall i | 0 <= i < |s| - 2
          ensures !(s[1..][i] == '\n' && s[1..][i + 1] == '\n')
        {
          assert s[1..][i] == s[i + 1] && s[1..][i + 1] == s[i + 2];
        }
      }
      CollapseFixed(s[1..]);
      assert [s[0]] + s[1..] == s;
    }
  }

  /** Collapsing twice is collapsing once. */
  lemma CollapseIdempotent(s: string)
    ensures Collapse(Collapse(s)) == Collapse(s)
  {
    CollapseNoBlankLine(s);
    CollapseFixed(Collapse(s));
  }

  // ---- load_models ----------------------------------------------------------------

  /** One component added to what has been loaded: its equations and a newline are
      appended, and its dicts update the loaded ones, so its entries win. */
  function Include(acc: Model, library: map<string, Component>, name: string, eval: Eval): Result<Model> {
    if name !in library then Err(FileNotFoundError)
    else
      var c := library[name];
      if c.equations.None? then Err(KeyError("equations"))
      else Ok(Model(acc.equations + c.equations.value + "\n",
                    acc.init + c.init,
                    acc.constants + EvaluatedConstants(c.constants, eval),
                    acc.bounds + EvaluatedBounds(c.bounds, eval)))
  }

  /** The components loaded in argument order, before newline runs are collapsed. */
  function Assembled(library: map<string, Component>, names: seq<string>, eval: Eval): Result<Model> {
    if |names| == 0 then Ok(Model("", map[], map[], map[]))
    else match Assembled(library, names[..|names| - 1], eval)
         case Err(e) => Err(e)
         case Ok(acc) => Include(acc, library, names[|names| - 1], eval)
  }

  /** `load_models(*names)`. */
  function Loaded(library: map<string, Component>, names: seq<string>, eval: Eval): Result<Model> {
    match Assembled(library, names, eval)
    case Err(e) => Err(e)
    case Ok(m) => Ok(m.(equations := Collapse(m.equations)))
  }

  /** Each component's equations, each followed by a newline, in argument order. */
  function Joined(library: map<string, Component>, names: seq<string>): string
    requires forall i :: 0 <= i < |names| ==> names[i] in library && library[names[i]].equations.Some?
  {
    if |names| == 0 then ""
    else Joined(library, names[..|names| - 1]) + library[names[|names| - 1]].equations.value + "\n"
  }

  /** Loading fails exactly when a component is missing or has no equations, and then
      with the error of the first such component. */
  lemma {:induction false} AssembledOk(library: map<string, Component>, names: seq<string>, eval: Eval)
    ensures Assembled(library, names, eval).Ok? <==>
              forall i :: 0 <= i < |names| ==> names[i] in library && library[names[i]].equations.Some?
  {
    if |names| > 0 {
      var front := names[..|names| - 1];
      AssembledOk(library, front, eval);
      if Assembled(library, names, eval).Ok? {
        forall i | 0 <= i < |names|
          ensures names[i] in library && library[names[i]].equations.Some?
        {
          if i < |names| - 1 {
            assert names[i] == front[i];
          }
        }
      }
    }
  }

  /** The loaded equations are the components' equations in argument order, each
      followed by a newline, with every run of newlines collapsed to one. */
  lemma {:induction false} LoadedEquations(library: map<string, Component>, names: seq<string>, eval: Eval)
    requires Loaded(library, names, eval).Ok?
    ensures forall i :: 0 <= i < |names| ==> names[i] in library && library[names[i]].equations.Some?
    ensures Loaded(library, names, eval).value.equations == Collapse(Joined(library, names))
    ensures NoBlankLine(Loaded(library, names, eval).value.equations)
    ensures Strip(Loaded(library, names, eval).value.equations) == Strip(Joined(library, names))
  {
    AssembledOk(library, names, eval);
    AssembledEquations(library, names, eval);
    CollapseNoBlankLine(Joined(library, names));
    CollapseKeepsText(Joined(library, names));
  }

  lemma {:induction false} AssembledEquations(library: map<string, Component>, names: seq<string>, eval: Eval)
    requires Assembled(library, names, eval).Ok?
    requires forall i :: 0 <= i < |names| ==> names[i] in library && library[names[i]].equations.Some?
    ensures Assembled(library, names, eval).value.equations == Joined(library, names)
  {
    if |names| > 0 {
      var front := names[..|names| - 1];
      assert forall i :: 0 <= i < |front| ==> front[i] == names[i];
      AssembledEquations(library, front, eval);
    }
  }

  /** For bounds, constants and initial values, the last component that names an entry
      decides its value. */
  lemma {:induction false} LaterComponentWins(library: map<string, Component>, names: seq<string>, eval: Eval,
                                              i: nat, x: string)
    requires Loaded(library, names, eval).Ok? && i < |names| && names[i] in library
    requires forall j :: i < j < |names| && names[j] in library ==>
               x !in library[names[j]].bounds && x !in library[names[j]].constants &&
               x !in library[names[j]].init
    ensures var m := Loaded(library, names, eval).value;
            var c := library[names[i]];
            (x in c.bounds ==> x in m.bounds && m.bounds[x] == EvaluatedBound(c.bounds[x], eval)) &&
            (x in c.constants ==> x in m.constants && m.constants[x] == Evaluated(c.constants[x], eval)) &&
            (x in c.init ==> x in m.init && m.init[x] == c.init[x])
  {
    AssembledWins(library, names, eval, i, x);
  }

  lemma {:induction false} AssembledWins(library: map<string, Component>, names: seq<string>, eval: Eval,
                                         i: nat, x: string)
    requires Assembled(library, names, eval).Ok? && i < |names| && names[i] in library
    requires forall j :: i < j < |names| && names[j] in library ==>
               x !in library[names[j]].bounds && x !in library[names[j]].constants &&
               x !in library[names[j]].init
    ensures var m := Assembled(library, names, eval).value;
            var c := library[names[i]];
            (x in c.bounds ==> x in m.bounds && m.bounds[x] == EvaluatedBound(c.bounds[x], eval)) &&
            (x in c.constants ==> x in m.constants && m.constants[x] == Evaluated(c.constants[x], eval)) &&
            (x in c.init ==> x in m.init && m.init[x] == c.init[x])
  {
    var front := names[..|names| - 1];
    if i < |names| - 1 {
      assert front[i] == names[i];
      AssembledWins(library, front, eval, i, x);
    }
  }

  /** `load_models(*names)`: the loop over the component names, and the loops that
      evaluate each component's bounds and constants. */
  method LoadModels(library: map<string, Component>, names: seq<string>, eval: Eval) returns (r: Result<Model>)
    ensures r == Loaded(library, names, eval)
  {
    var acc := Model("", map[], map[], map[]);
    var k := 0;
    while k < |names|
      invariant 0 <= k <= |names| && Assembled(library, names[..k], eval) == Ok(acc)
    {
      assert names[..k + 1][..k] == names[..k];
      var name := names[k];
      if name !in library {
        LoadedPrefixErr(library, names, eval, k + 1);
        return Err(FileNotFoundError);
      }
      var description := library[name];
      var bounds := EvaluateBounds(description.bounds, eval);
      var constants := EvaluateConstants(description.constants, eval);
      if description.equations.None? {
        LoadedPrefixErr(library, names, eval, k + 1);
        return Err(KeyError("equations"));
      }
      acc := Model(acc.equations + description.equations.value + "\n",
                   acc.init + description.init, acc.constants + constants, acc.bounds + bounds);
      k := k + 1;
    }
    assert names[..k] == names;
    return Ok(acc.(equations := Collapse(acc.equations)));
  }

  /** A failure while loading a prefix of the names is the failure of the whole load. */
  lemma {:induction false} LoadedPrefixErr(library: map<string, Component>, names: seq<string>, eval: Eval, k: nat)
    requires k <= |names| && Assembled(library, names[..k], eval).Err?
    ensures Loaded(library, names, eval) == Assembled(library, names[..k], eval)
    decreases |names|
  {
    if k < |names| {
      var front := names[..|names| - 1];
      assert front[..k] == names[..k];
      LoadedPrefixErr(library, front, eval, k);
    } else {
      assert names[..k] == names;
    }
  }

  method EvaluateBounds(bounds: map<string, seq<Value>>, eval: Eval) returns (r: map<string, seq<Value>>)
    ensures r == EvaluatedBounds(bounds, eval)
  {
    r := map[];
    var todo := bounds.Keys;
    while todo != {}
      invariant todo <= bounds.Keys && r.Keys == bounds.Keys - todo
      invariant forall x :: x in r ==> r[x] == EvaluatedBound(bounds[x], eval)
      decreases todo
    {
      var x :| x in todo;
      var b := EvaluateBound(bounds[x], eval);
      r := r[x := b];
      todo := todo - {x};
    }
  }

  method EvaluateConstants(constants: map<string, Value>, eval: Eval) returns (r: map<string, Value>)
    ensures r == EvaluatedConstants(constants, eval)
  {
    r := map[];
    var todo := constants.Keys;
    while todo != {}
      invariant todo <= constants.Keys && r.Keys == constants.Keys - todo
      invariant forall x :: x in r ==> r[x] == Evaluated(constants[x], eval)
      decreases todo
    {
      var x :| x in todo;
      r := r[x := if constants[x].Text? then Num(eval(constants[x].s)) else constants[x]];
      todo := todo - {x};
    }
  }

  // ---- build_model ----------------------------------------------------------------

  /** The model dict handed to `build_model` and later to the fitting code, which adds
      and deletes its keys: an absent key is `None`. */
  class ModelDict {
    var equations: Option<string>
    var init: Option<map<string, Value>>
    var constants: Option<map<string, Value>>
    var bounds: Option<map<string, seq<Value>>>

    /** The dict `load_models` returns, with all four keys. */
    constructor(m: Model)
      ensures equations == Some(m.equations) && init == Some(m.init)
      ensures constants == Some(m.constants) && bounds == Some(m.bounds)
    {
      equations := Some(m.equations);
      init := Some(m.init);
      constants := Some(m.constants);
      bounds := Some(m.bounds);
    }
  }

  /** `d.get(key, {})`. */
  function OrEmpty<V>(d: Option<map<string, V>>): map<string, V> {
    if d.Some? then d.value else map[]
  }

  /** `eval(expression, namespace)`: `None` where it raises NameError. */
  type EvalIn = (string, map<string, real>) -> Option<real>

  /** The constants as numbers, strings evaluated. */
  function ConstantValues(constants: map<string, Value>, eval: Eval): map<string, real> {
    map x | x in constants :: if constants[x].Text? then eval(constants[x].s) else constants[x].x
  }

  /** The bounds left once every name that is also a constant is deleted. */
  function Pruned(bounds: map<string, seq<Value>>, constants: set<string>): map<string, seq<Value>> {
    map x | x in bounds && x !in constants :: bounds[x]
  }

  /** An initial value given as an expression is evaluated with the constants as its
      namespace; one that names something else (NameError) stays an expression. */
  function InitValue(v: Value, values: map<string, real>, evalIn: EvalIn): Value {
    if v.Text? && evalIn(v.s, values).Some? then Num(evalIn(v.s, values).value) else v
  }

  function InitReplaced(init: map<string, Value>, values: map<string, real>, evalIn: EvalIn): map<string, Value> {
    map x | x in init :: InitValue(init[x], values, evalIn)
  }

  /** The equations `build_model` makes: the model's equations with the constants
      substituted, plus one parameter declaration per remaining bound. */
  datatype Equations = Equations(text: string, constants: map<string, real>, parameters: set<string>)

  /** Constants overwrite bounds: what remains of the bounds names no constant, and
      keeps every other bound as it was. */
  lemma PrunedMeaning(bounds: map<string, seq<Value>>, constants: set<string>)
    ensures Pruned(bounds, constants).Keys !! constants
    ensures Pruned(bounds, constants).Keys == bounds.Keys - constants
    ensures forall x :: x in Pruned(bounds, constants) ==> Pruned(bounds, constants)[x] == bounds[x]
  {
  }

  /** Replacing initial values keeps their names and their numbers. */
  lemma InitReplacedMeaning(init: map<string, Value>, values: map<string, real>, evalIn: EvalIn)
    ensures InitReplaced(init, values, evalIn).Keys == init.Keys
    ensures forall x :: x in init && init[x].Num? ==> InitReplaced(init, values, evalIn)[x] == init[x]
  {
  }

  /** `build_model(model)`: deletes from the model's own bounds dict every name that is a
      constant, and returns the equations, a copy of the initial values with their
      expressions evaluated, and the pruned bounds. The caller's initial values are
      untouched. */
  method BuildModel(model: ModelDict, eval: Eval, evalIn: EvalIn)
    returns (eqs: Equations, init: map<string, Value>, bounds: map<string, seq<Value>>)
    modifies model
    ensures bounds == Pruned(OrEmpty(old(model.bounds)), OrEmpty(old(model.constants)).Keys)
    ensures model.bounds == if old(model.bounds).Some? then Some(bounds) else None
    ensures model.equations == old(model.equations) && model.init == old(model.init)
    ensures model.constants == old(model.constants)
    ensures init == InitReplaced(OrEmpty(old(model.init)), ConstantValues(OrEmpty(old(model.constants)), eval), evalIn)
    ensures eqs == Equations(if old(model.equations).Some? then old(model.equations).value else "",
                             ConstantValues(OrEmpty(old(model.constants)), eval), bounds.Keys)
  {
    var equations := if model.equations.Some? then model.equations.value else "";
    var init0 := OrEmpty(model.init);
    var constants := OrEmpty(model.constants);
    bounds := OrEmpty(model.bounds);
    ghost var bounds0 := bounds;

    var todo := constants.Keys;
    while todo != {}
      invariant todo <= constants.Keys
      invariant bounds == Pruned(bounds0, constants.Keys - todo)
      decreases todo
    {
      var c :| c in todo;
      if c in bounds {
        bounds := bounds - {c};
      }
      todo := todo - {c};
    }
    if model.bounds.Some? {
      model.bounds := Some(bounds);
    }

    var values := ConstantValues(constants, eval);
    eqs := Equations(equations, values, bounds.Keys);

    init := init0;
    var keys := init0.Keys;
    while keys != {}
      invariant keys <= init0.Keys && init.Keys == init0.Keys
      invariant forall x :: x in init0 ==>
                  init[x] == if x in keys then init0[x] else InitValue(init0[x], values, evalIn)
      decreases keys
    {
      var x :| x in keys;
      if init[x].Text? {
        var v := evalIn(init[x].s, values);
        if v.Some? {
          init := init[x := Num(v.value)];
        }
      }
      keys := keys - {x};
    }
  }

  // ---- membrane_equation ----------------------------------------------------------

  /** `'+'.join(names)`. */
  function JoinPlus(names: seq<string>): string {
    if |names| == 0 then ""
    else if |names| == 1 then names[0]
    else names[0] + "+" + JoinPlus(names[1..])
  }

  /** `s.split('+')`. */
  function SplitPlus(s: string): (r: seq<string>)
    ensures |r| > 0
  {
    if |s| == 0 then [""]
    else
      var rest := SplitPlus(s[1..]);
      if s[0] == '+' then [""] + rest else [[s[0]] + rest[0]] + rest[1..]
  }

  lemma {:induction false} SplitPlain(a: string)
    requires '+' !in a
    ensures SplitPlus(a) == [a]
  {
    if |a| > 0 {
      assert a[0] in a;
      assert forall c :: c in a[1..] ==> c in a;
      SplitPlain(a[1..]);
      assert [a[0]] + a[1..] == a;
    }
  }

  lemma {:induction false} SplitAfterPlain(a: string, b: string)
    requires '+' !in a
    ensures SplitPlus(a + "+" + b) == [a] + SplitPlus(b)
  {
    if |a| == 0 {
      assert a + "+" + b == "+" + b;
      assert ("+" + b)[1..] == b;
    } else {
      assert a[0] in a;
      assert forall c :: c in a[1..] ==> c in a;
      SplitAfterPlain(a[1..], b);
      assert (a + "+" + b)[1..] == a[1..] + "+" + b;
      assert [a[0]] + a[1..] == a;
    }
  }

  /** Joining names that contain no '+' and splitting again gives the names back. */
  lemma {:induction false} SplitJoin(names: seq<string>)
    requires |names| > 0 && forall i :: 0 <= i < |names| ==> '+' !in names[i]
    ensures SplitPlus(JoinPlus(names)) == names
  {
    if |names| == 1 {
      SplitPlain(names[0]);
    } else {
      SplitJoin(names[1..]);
      SplitAfterPlain(names[0], JoinPlus(names[1..]));
    }
  }

  const MembranePrefix: string := "dv = ("
  const MembraneSuffix: string := ")/C : volt/second\ndv/dt = dv : volt\n"

  /** `membrane_equation(equations)`, given the names of the equations whose unit is the
      ampere: the membrane current is their sum divided by the capacitance C. */
  function MembraneEquation(currents: seq<string>): string {
    MembranePrefix + JoinPlus(currents) + MembraneSuffix
  }

  /** The currents summed in a membrane equation. */
  function SummedCurrents(eq: string): seq<string>
    requires |eq| >= |MembranePrefix| + |MembraneSuffix|
  {
    SplitPlus(eq[|MembranePrefix|..|eq| - |MembraneSuffix|])
  }

  /** The membrane equation is the fixed text around the sum, and the sum names
      exactly the currents, in order. */
  lemma MembraneEquationSums(currents: seq<string>)
    requires |currents| > 0 && forall i :: 0 <= i < |currents| ==> '+' !in currents[i]
    ensures var eq := MembraneEquation(currents);
            |eq| >= |MembranePrefix| + |MembraneSuffix| &&
            eq[..|MembranePrefix|] == MembranePrefix &&
            eq[|eq| - |MembraneSuffix|..] == MembraneSuffix &&
            SummedCurrents(eq) == currents
  {
    var eq := MembraneEquation(currents);
    var j := JoinPlus(currents);
    assert |eq| == |MembranePrefix| + |j| + |MembraneSuffix|;
    assert eq[|MembranePrefix|..|eq| - |MembraneSuffix|] == j;
    SplitJoin(currents);
  }
}
