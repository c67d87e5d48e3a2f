/**
 * A truth-table decision procedure for the propositional formulas of the
 * model. It answers every query with sat or unsat and is proved exact, so
 * the `Exact` assumption of the causal checks is one a solver can meet.
 */
module TruthTable {
  import opened Logic
  import opened CausalityAnalyzer

  /** One more than the largest variable of `f`; 0 when `f` has none. */
  function VarBound(f: Formula): nat
  {
    match f
    case Var(id) => id + 1
    case True => 0
    case Not(g) => VarBound(g)
    case And(a, b) => Max(VarBound(a), VarBound(b))
    case Implies(a, b) => Max(VarBound(a), VarBound(b))
  }

  function Max(x: nat, y: nat): nat
  {
    if x < y then y else x
  }

  /** Only the variables below `VarBound(f)` matter to `f`. */
  lemma {:induction false} EvalLocal(f: Formula, e1: Env, e2: Env)
    requires forall v: nat :: v < VarBound(f) ==> e1(v) == e2(v)
    ensures Eval(f, e1) == Eval(f, e2)
  {
    match f
    case Var(id) =>
    case True =>
    case Not(g) =>
      EvalLocal(g, e1, e2);
    case And(a, b) =>
      EvalLocal(a, e1, e2);
      EvalLocal(b, e1, e2);
    case Implies(a, b) =>
      EvalLocal(a, e1, e2);
      EvalLocal(b, e1, e2);
  }

  /** The assignment that sets variable `v` to `bits[v]` and all later ones to false. */
  function EnvOf(bits: seq<bool>): Env
  {
    (v: nat) => v < |bits| && bits[v]
  }

  /** Try every way of extending `bits` to `n` values. */
  function Search(f: Formula, bits: seq<bool>, n: nat): bool
    requires |bits| <= n
    decreases n - |bits|
  {
    if |bits| == n then Eval(f, EnvOf(bits))
    else Search(f, bits + [false], n) || Search(f, bits + [true], n)
  }

  lemma {:induction false} SearchSound(f: Formula, bits: seq<bool>, n: nat)
    requires |bits| <= n
    requires Search(f, bits, n)
    ensures Sat(f)
    decreases n - |bits|
  {
    if |bits| == n {
      assert Eval(f, EnvOf(bits));
    } else if Search(f, bits + [false], n) {
      SearchSound(f, bits + [false], n);
    } else {
      SearchSound(f, bits + [true], n);
    }
  }

  lemma {:induction false} SearchComplete(f: Formula, env: Env, bits: seq<bool>, n: nat)
    requires VarBound(f) <= n && |bits| <= n
    requires Eval(f, env)
    requires forall v :: 0 <= v < |bits| ==> bits[v] == env(v)
    ensures Search(f, bits, n)
    decreases n - |bits|
  {
    if |bits| == n {
      EvalLocal(f, env, EnvOf(bits));
    } else {
      var next := bits + [env(|bits|)];
      SearchComplete(f, env, next, n);
    }
  }

  /** Searching the whole table finds an assignment exactly when there is one. */
  lemma SearchCorrect(f: Formula)
    ensures Search(f, [], VarBound(f)) ==> Sat(f)
    ensures Sat(f) ==> Search(f, [], VarBound(f))
  {
    if Search(f, [], VarBound(f)) {
      SearchSound(f, [], VarBound(f));
    }
    if Sat(f) {
      var env: Env :| Eval(f, env);
      SearchComplete(f, env, [], VarBound(f));
    }
  }

  function Decide(f: Formula): (r: bool)
    ensures r <==> Sat(f)
  {
    SearchCorrect(f);
    Search(f, [], VarBound(f))
  }

  /** A solver that decides the conjunction of its assertion stack by truth table. */
  function TableChecker(fs: seq<Formula>): CheckResult
  {
    if Decide(Conj(fs)) then SatResult else UnsatResult
  }

  lemma TableCheckerExact()
    ensures Exact(TableChecker)
  {
  }
}
