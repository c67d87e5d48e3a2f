/**
 * Propositional formulas and their satisfiability semantics.
 *
 * The causal checks combine the formulas they are given with `And`, `Not`
 * and `Implies` and ask whether the result is satisfiable or valid. Here the
 * formulas are propositional, the variables are numbered, and an assignment
 * gives every variable a truth value.
 */
module Logic {

  datatype Formula =
    | Var(id: nat)
    | True
    | Not(f: Formula)
    | And(left: Formula, right: Formula)
    | Implies(premise: Formula, conclusion: Formula)

  /** An assignment of truth values to all variables. */
  type Env = nat -> bool

  function Eval(f: Formula, env: Env): bool
  {
    match f
    case Var(id) => env(id)
    case True => true
    case Not(g) => !Eval(g, env)
    case And(a, b) => Eval(a, env) && Eval(b, env)
    case Implies(a, b) => Eval(a, env) ==> Eval(b, env)
  }

  /** Some assignment makes `f` true. */
  ghost predicate Sat(f: Formula)
  {
    exists env: Env :: Eval(f, env)
  }

  /** Validity the way the causal checks compute it: the negation is unsatisfiable. */
  ghost predicate Valid(f: Formula)
  {
    !Sat(Not(f))
  }

  /** Every assignment that makes `a` true makes `b` true. */
  ghost predicate Entails(a: Formula, b: Formula)
  {
    forall env: Env :: Eval(a, env) ==> Eval(b, env)
  }

  /** The conjunction of an assertion stack; the empty stack is `True`. */
  function Conj(fs: seq<Formula>): (r: Formula)
    ensures forall env: Env :: Eval(r, env) <==> (forall k :: 0 <= k < |fs| ==> Eval(fs[k], env))
  {
    if fs == [] then True
    else
      var rest := Conj(fs[1..]);
      assert forall env: Env :: Eval(rest, env) <==> (forall k :: 1 <= k < |fs| ==> Eval(fs[k], env)) by {
        forall env: Env ensures Eval(rest, env) <==> (forall k :: 1 <= k < |fs| ==> Eval(fs[k], env)) {
          if forall k :: 0 <= k < |fs| - 1 ==> Eval(fs[1..][k], env) {
            forall k | 1 <= k < |fs| ensures Eval(fs[k], env) {
              assert fs[k] == fs[1..][k - 1];
            }
          }
          if forall k :: 1 <= k < |fs| ==> Eval(fs[k], env) {
            forall k | 0 <= k < |fs| - 1 ensures Eval(fs[1..][k], env) {
              assert fs[1..][k] == fs[k + 1];
            }
          }
        }
      }
      And(fs[0], rest)
  }

  /** Validity computed through the negation means truth under every assignment. */
  lemma ValidIffTrueEverywhere(f: Formula)
    ensures Valid(f) ==> forall env: Env :: Eval(f, env)
    ensures (forall env: Env :: Eval(f, env)) ==> Valid(f)
  {
    if !Valid(f) {
      var env: Env :| Eval(Not(f), env);
      assert !Eval(f, env);
    } else {
      forall env: Env ensures Eval(f, env) {
        assert !Eval(Not(f), env);
      }
    }
  }

  /** A valid formula is satisfiable: there is at least one assignment. */
  lemma ValidIsSat(f: Formula)
    requires Valid(f)
    ensures Sat(f)
  {
    var env: Env := _ => false;
    ValidIffTrueEverywhere(f);
    assert Eval(f, env);
  }

  /** `a` entails `b` exactly when `a ==> b` is valid. */
  lemma EntailsIffValidImplies(a: Formula, b: Formula)
    ensures Entails(a, b) ==> Valid(Implies(a, b))
    ensures Valid(Implies(a, b)) ==> Entails(a, b)
  {
    ValidIffTrueEverywhere(Implies(a, b));
    forall env: Env ensures Eval(Implies(a, b), env) == (Eval(a, env) ==> Eval(b, env)) {
    }
  }

  /** `a && !b` is satisfiable exactly when `a` does not entail `b`. */
  lemma SatAndNotIffNotEntails(a: Formula, b: Formula)
    ensures Sat(And(a, Not(b))) ==> !Entails(a, b)
    ensures !Entails(a, b) ==> Sat(And(a, Not(b)))
  {
    if Sat(And(a, Not(b))) {
      var env: Env :| Eval(And(a, Not(b)), env);
      assert Eval(a, env) && Eval(Not(b), env);
    }
    if !Entails(a, b) {
      var env: Env :| Eval(a, env) && !Eval(b, env);
      assert Eval(And(a, Not(b)), env);
    }
  }

  /** Some assignment makes `a`, `b` and `c` all true. */
  ghost predicate JointlySat(a: Formula, b: Formula, c: Formula)
  {
    exists env: Env :: Eval(a, env) && Eval(b, env) && Eval(c, env)
  }

  /** `(a && b) && c` is satisfiable exactly when `a`, `b` and `c` hold together. */
  lemma SatAnd3IffJointlySat(a: Formula, b: Formula, c: Formula)
    ensures Sat(And(And(a, b), c)) ==> JointlySat(a, b, c)
    ensures JointlySat(a, b, c) ==> Sat(And(And(a, b), c))
  {
    if Sat(And(And(a, b), c)) {
      var env: Env :| Eval(And(And(a, b), c), env);
      assert Eval(And(a, b), env) && Eval(c, env);
    }
    if JointlySat(a, b, c) {
      var env: Env :| Eval(a, env) && Eval(b, env) && Eval(c, env);
      assert Eval(And(And(a, b), c), env);
    }
  }

  /** The empty assertion stack is satisfiable. */
  lemma EmptyContextSat()
    ensures Sat(Conj([]))
  {
    var env: Env := _ => true;
    assert Eval(Conj([]), env);
  }
}
