/**
 * The causal-inference checker: the two decision primitives `check_sat` and
 * `check_valid`, and the tests for a candidate inference and a candidate
 * unique inference built from them.
 *
 * The external solver is a parameter `check` that answers a query about a
 * stack of assertions with sat, unsat or unknown. Every primitive builds a
 * fresh solver, so the query is always the stack that primitive pushed and
 * nothing else. `Sound` says the solver never lies when it answers sat or
 * unsat; `Exact` adds that it never answers unknown.
 */
module CausalityAnalyzer {
  import opened Logic

  datatype CheckResult = SatResult | UnsatResult | Unknown

  /** A decision procedure over assertion stacks. */
  type Checker = seq<Formula> -> CheckResult

  ghost predicate Sound(check: Checker)
  {
    forall fs: seq<Formula> ::
      && (check(fs) == SatResult ==> Sat(Conj(fs)))
      && (check(fs) == UnsatResult ==> !Sat(Conj(fs)))
  }

  ghost predicate Exact(check: Checker)
  {
    Sound(check) && forall fs: seq<Formula> :: check(fs) != Unknown
  }

  /** The stack `[f]` is satisfiable exactly when `f` is. */
  lemma SingletonSat(f: Formula)
    ensures Sat(Conj([f])) <==> Sat(f)
  {
    if Sat(f) {
      var env: Env :| Eval(f, env);
      assert Eval(Conj([f]), env);
    }
    if Sat(Conj([f])) {
      var env: Env :| Eval(Conj([f]), env);
      assert [f][0] == f;
      assert Eval(f, env);
    }
  }

  /**
   * check_sat: push one assertion on a fresh solver and report whether the
   * answer is sat; unsat and unknown both give false.
   */
  function CheckSat(check: Checker, f: Formula): (r: bool)
    ensures Sound(check) ==> (r ==> Sat(f))
    ensures Exact(check) ==> (r <==> Sat(f))
  {
    SingletonSat(f);
    check([f]) == SatResult
  }

  /**
   * check_valid: on a fresh solver, first check the empty context (an unsat
   * context would make every formula valid), then push the negation and
   * report valid unless the answer is sat; unknown counts as valid.
   */
  function CheckValid(check: Checker, f: Formula): (r: bool)
    ensures Sound(check) ==> (r <==> check([Not(f)]) != SatResult)
    ensures Sound(check) ==> (Valid(f) ==> r)
    ensures Exact(check) ==> (r <==> Valid(f))
  {
    SingletonSat(Not(f));
    EmptyContextSat();
    if check([]) == UnsatResult then true
    else check([Not(f)]) != SatResult
  }

  /** The early return of check_valid never fires for a sound solver. */
  lemma EmptyContextNeverUnsat(check: Checker)
    requires Sound(check)
    ensures check([]) != UnsatResult
  {
    EmptyContextSat();
  }

  /** explains_statement: context and inference together force the statement. */
  function ExplainsStatement(check: Checker, context: Formula, statement: Formula, inference: Formula): (r: bool)
    ensures Exact(check) ==> (r <==> Entails(And(context, inference), statement))
  {
    EntailsIffValidImplies(And(context, inference), statement);
    CheckValid(check, Implies(And(context, inference), statement))
  }

  /** isnt_straight_up_false: context, inference and statement can all hold at once. */
  function IsntStraightUpFalse(check: Checker, context: Formula, statement: Formula, inference: Formula): (r: bool)
    ensures Sound(check) ==> (r ==> JointlySat(context, inference, statement))
    ensures Exact(check) ==> (r <==> JointlySat(context, inference, statement))
  {
    SatAnd3IffJointlySat(context, inference, statement);
    CheckSat(check, And(And(context, inference), statement))
  }

  /**
   * isnt_vacuously_true: the inference can fail both under the context and
   * under the statement, so neither already forces it.
   */
  function IsntVacuouslyTrue(check: Checker, context: Formula, statement: Formula, inference: Formula): (r: bool)
    ensures Sound(check) ==> (r ==> !Entails(context, inference) && !Entails(statement, inference))
    ensures Exact(check) ==> (r <==> !Entails(context, inference) && !Entails(statement, inference))
  {
    var ctx := CheckSat(check, And(context, Not(inference)));
    var stmt := CheckSat(check, And(statement, Not(inference)));
    SatAndNotIffNotEntails(context, inference);
    SatAndNotIffNotEntails(statement, inference);
    ctx && stmt
  }

  /**
   * is_candidate_inference: the inference explains the statement, is
   * consistent with context and statement, and is forced by neither.
   */
  function IsCandidateInference(check: Checker, context: Formula, statement: Formula, inference: Formula): (r: bool)
    ensures Sound(check) ==> (r ==>
      && JointlySat(context, inference, statement)
      && !Entails(context, inference)
      && !Entails(statement, inference))
    ensures Exact(check) ==> (r <==>
      && Entails(And(context, inference), statement)
      && JointlySat(context, inference, statement)
      && !Entails(context, inference)
      && !Entails(statement, inference))
  {
    && ExplainsStatement(check, context, statement, inference)
    && IsntStraightUpFalse(check, context, statement, inference)
    && IsntVacuouslyTrue(check, context, statement, inference)
  }

  /**
   * is_candidate_unique_inference: context and statement together force the
   * inference, and the inference is a candidate.
   */
  function IsCandidateUniqueInference(check: Checker, context: Formula, statement: Formula, inference: Formula): (r: bool)
    ensures Exact(check) ==> (r <==>
      && Entails(And(context, statement), inference)
      && IsCandidateInference(check, context, statement, inference))
  {
    EntailsIffValidImplies(And(context, statement), inference);
    && CheckValid(check, Implies(And(context, statement), inference))
    && IsCandidateInference(check, context, statement, inference)
  }

  /** Uniqueness only adds a check: a candidate unique inference is a candidate inference. */
  lemma UniqueRefinesCandidate(check: Checker, context: Formula, statement: Formula, inference: Formula)
    requires IsCandidateUniqueInference(check, context, statement, inference)
    ensures IsCandidateInference(check, context, statement, inference)
  {
  }

  /**
   * An inference that the context alone or the statement alone already
   * forces is never a candidate, even when the solver may answer unknown.
   */
  lemma {:induction false} ForcedInferenceRejected(check: Checker, context: Formula, statement: Formula, inference: Formula)
    requires Sound(check)
    requires Entails(context, inference) || Entails(statement, inference)
    ensures !IsntVacuouslyTrue(check, context, statement, inference)
    ensures !IsCandidateInference(check, context, statement, inference)
    ensures !IsCandidateUniqueInference(check, context, statement, inference)
  {
  }

  /** Restating the statement as the inference is rejected. */
  lemma RestatementRejected(check: Checker, context: Formula, statement: Formula)
    requires Sound(check)
    ensures !IsCandidateInference(check, context, statement, statement)
  {
    ForcedInferenceRejected(check, context, statement, statement);
  }

  /** The trivial inference `True` is rejected. */
  lemma TrueInferenceRejected(check: Checker, context: Formula, statement: Formula)
    requires Sound(check)
    ensures !IsCandidateInference(check, context, statement, True)
  {
    ForcedInferenceRejected(check, context, statement, True);
  }

  /** Restating the context as the inference is rejected. */
  lemma ContextRestatementRejected(check: Checker, context: Formula, statement: Formula)
    requires Sound(check)
    ensures !IsCandidateInference(check, context, statement, context)
  {
    ForcedInferenceRejected(check, context, statement, context);
  }

  /**
   * A candidate unique inference agrees with the statement wherever the
   * context holds: the two validity checks give both directions.
   */
  lemma UniqueInferenceEquivalentUnderContext(check: Checker, context: Formula, statement: Formula, inference: Formula)
    requires Exact(check)
    requires IsCandidateUniqueInference(check, context, statement, inference)
    ensures forall env: Env :: Eval(context, env) ==> (Eval(inference, env) <==> Eval(statement, env))
  {
    forall env: Env | Eval(context, env)
      ensures Eval(inference, env) <==> Eval(statement, env)
    {
      assert Eval(And(context, inference), env) ==> Eval(statement, env);
      assert Eval(And(context, statement), env) ==> Eval(inference, env);
    }
  }

  /** With an exact solver, a valid formula also passes check_sat. */
  lemma ValidImpliesSatChecked(check: Checker, f: Formula)
    requires Exact(check)
    requires CheckValid(check, f)
    ensures CheckSat(check, f)
  {
    ValidIsSat(f);
  }

  /**
   * The unknown policy is asymmetric: a solver that always answers unknown is
   * sound, and under it every formula passes check_valid and none passes
   * check_sat, so no inference is a candidate.
   */
  lemma UnknownPolicy(check: Checker, f: Formula, context: Formula, statement: Formula, inference: Formula)
    requires forall fs: seq<Formula> :: check(fs) == Unknown
    ensures Sound(check)
    ensures CheckValid(check, f) && !CheckSat(check, f)
    ensures !IsCandidateInference(check, context, statement, inference)
  {
  }

  /**
   * A propositional version of "x > 1 explains x > 0": with context `True`,
   * statement `p` and inference `p && q`, the inference is a candidate but
   * not a unique one.
   */
  lemma StrongerInferenceIsCandidate(check: Checker)
    requires Exact(check)
    ensures IsCandidateInference(check, True, Var(0), And(Var(0), Var(1)))
    ensures !IsCandidateUniqueInference(check, True, Var(0), And(Var(0), Var(1)))
  {
    var p, q := Var(0), Var(1);
    var both: Env := _ => true;
    var onlyP: Env := v => v == 0;
    assert Eval(True, both) && Eval(And(p, q), both) && Eval(p, both);
    assert Eval(True, onlyP) && !Eval(And(p, q), onlyP);
    assert Eval(p, onlyP) && !Eval(And(p, q), onlyP);
    assert Eval(And(True, p), onlyP) && !Eval(And(p, q), onlyP);
  }
}
