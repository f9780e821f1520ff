/**
 * A stand-in for the part of the solver that the encoder talks to: constants
 * of sort Real or Int, linear real terms, atomic comparisons and the boolean
 * if-then-else, together with an evaluator that gives each formula its meaning
 * under an assignment of values to constants (a solver model).
 */
module Smt {
  import opened Wrappers

  /** The sort a solver constant is declared with. */
  datatype Sort = RealSort | IntSort

  /**
   * Solver constants. The encoder names them after a graph index
   * (`edge_<i>`, `input<n>_<id>`, `output<n>`); two constants with the same
   * name are the same constant, so a constant is identified by the index it is
   * named after.
   */
  datatype Var =
    | EdgeVar(edge: nat)
    | InputVar(node: nat, id: nat)
    | OutputVar(node: nat)
  {
    /** Input constants are declared as integers, all others as reals. */
    function SortOf(): Sort
    {
      if InputVar? then IntSort else RealSort
    }
  }

  /** Real-valued terms. */
  datatype Term =
    | Const(value: real)
    | Sym(v: Var)            // a Real constant
    | ToReal(iv: Var)        // an Int constant read as a real
    | Add(args: seq<Term>)   // an n-ary sum

  /** Boolean formulas. `Ite` is the solver's if-then-else on booleans. */
  datatype Formula =
    | Le(lhs: Term, rhs: Term)
    | Ge(lhs: Term, rhs: Term)
    | Eq(lhs: Term, rhs: Term)
    | Ite(cond: Formula, thn: Formula, els: Formula)

  /** A solver model: the values it gives to constants. */
  type Assignment = map<Var, real>

  /** The sum of a list of values, undefined if any of them is. */
  function SumAll(xs: seq<Option<real>>): Option<real>
  {
    if xs == [] then Some(0.0)
    else
      match (xs[0], SumAll(xs[1..]))
      case (Some(x), Some(s)) => Some(x + s)
      case _ => None
  }

  /** The value of a term; undefined when it mentions a constant the model leaves out. */
  function Eval(t: Term, env: Assignment): Option<real>
  {
    match t
    case Const(r) => Some(r)
    case Sym(v) => if v in env then Some(env[v]) else None
    case ToReal(v) => if v in env then Some(env[v]) else None
    case Add(ts) => SumAll(seq(|ts|, i requires 0 <= i < |ts| => Eval(ts[i], env)))
  }

  /** The truth value of a formula; undefined when one of its terms is. */
  function Truth(f: Formula, env: Assignment): Option<bool>
  {
    match f
    case Le(a, b) =>
      (match (Eval(a, env), Eval(b, env))
       case (Some(x), Some(y)) => Some(x <= y)
       case _ => None)
    case Ge(a, b) =>
      (match (Eval(a, env), Eval(b, env))
       case (Some(x), Some(y)) => Some(x >= y)
       case _ => None)
    case Eq(a, b) =>
      (match (Eval(a, env), Eval(b, env))
       case (Some(x), Some(y)) => Some(x == y)
       case _ => None)
    case Ite(c, t, e) =>
      (match Truth(c, env)
       case None => None
       case Some(b) => if b then Truth(t, env) else Truth(e, env))
  }

  /** Every formula of `fs` is true under `env`. */
  predicate Holds(env: Assignment, fs: seq<Formula>)
  {
    forall i :: 0 <= i < |fs| ==> Truth(fs[i], env) == Some(true)
  }

  predicate IsInteger(x: real)
  {
    x.Floor as real == x
  }

  /** Integer constants get integer values. */
  predicate WellSorted(env: Assignment)
  {
    forall v :: v in env && v.SortOf() == IntSort ==> IsInteger(env[v])
  }

  /** What the solver can return for the asserted formulas `fs`. */
  predicate IsModel(env: Assignment, fs: seq<Formula>)
  {
    WellSorted(env) && Holds(env, fs)
  }

  /** A sum splits into its first summand and the rest. */
  lemma EvalAddCons(t: Term, ts: seq<Term>, env: Assignment)
    ensures Eval(Add([t] + ts), env) ==
              match (Eval(t, env), Eval(Add(ts), env))
              case (Some(x), Some(s)) => Some(x + s)
              case _ => None
  {
    var all := [t] + ts;
    var xs := seq(|all|, i requires 0 <= i < |all| => Eval(all[i], env));
    assert xs[1..] == seq(|ts|, i requires 0 <= i < |ts| => Eval(ts[i], env));
  }

  lemma HoldsSingle(env: Assignment, f: Formula)
    ensures Holds(env, [f]) <==> Truth(f, env) == Some(true)
  {
    assert [f][0] == f;
  }

  /** The asserted formulas can be split wherever the list is split. */
  lemma HoldsAppend(env: Assignment, a: seq<Formula>, b: seq<Formula>)
    ensures Holds(env, a + b) <==> Holds(env, a) && Holds(env, b)
  {
    if Holds(env, a + b) {
      forall i | 0 <= i < |a| ensures Truth(a[i], env) == Some(true) {
        assert (a + b)[i] == a[i];
      }
      forall i | 0 <= i < |b| ensures Truth(b[i], env) == Some(true) {
        assert (a + b)[|a| + i] == b[i];
      }
    }
  }
}
