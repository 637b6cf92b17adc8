/**
 * The predicate algebra of the bingo engine: checks over one history entry, composed with
 * negation, short-circuit conjunction and short-circuit disjunction.
 *
 * A check's meaning is the immutable tree `Check`.  The Python `AndCheck` and `OrCheck`
 * objects own a mutable list of children, which `&` and `|` extend in place; they are the
 * classes `AndCheck` and `OrCheck` below, whose children are check values.
 */
module BaseCheck {
  import opened Wrappers
  import opened Shikimori

  datatype Check =
    | Invert(inner: Check)                       // InvertCheck
    | Conj(checks: seq<Check>)                   // the children of an AndCheck
    | Disj(checks: seq<Check>)                   // the children of an OrCheck
    | Func(func: History -> Outcome)             // FuncCheck: ignores the api
    | Leaf(run: (Api, History) -> Outcome)       // any other Check subclass

  /** Python's `not` applied to an evaluated check; an exception passes through. */
  function Negate(o: Outcome): Outcome {
    match o
    case Ok(b) => Ok(!b)
    case Err(_) => o
  }

  /** `x and then y`: `y` only matters when `x` is true. */
  function Both(x: Outcome, y: Outcome): Outcome {
    if x == Ok(true) then y else x
  }

  /** `x or else y`: `y` only matters when `x` is false. */
  function Either(x: Outcome, y: Outcome): Outcome {
    if x == Ok(false) then y else x
  }

  /** The result of `await c(api, history)`. */
  function Eval(c: Check, api: Api, h: History): Outcome
    decreases c
  {
    match c
    case Invert(inner) => Negate(Eval(inner, api, h))
    case Conj(cs) => EvalAll(cs, api, h)
    case Disj(cs) => EvalAny(cs, api, h)
    case Func(f) => f(h)
    case Leaf(run) => run(api, h)
  }

  /** The children of an AndCheck, in order, stopping at the first one that is not true. */
  function EvalAll(cs: seq<Check>, api: Api, h: History): Outcome
    decreases cs
  {
    if cs == [] then Ok(true) else Both(Eval(cs[0], api, h), EvalAll(cs[1..], api, h))
  }

  /** The children of an OrCheck, in order, stopping at the first one that is not false. */
  function EvalAny(cs: seq<Check>, api: Api, h: History): Outcome
    decreases cs
  {
    if cs == [] then Ok(false) else Either(Eval(cs[0], api, h), EvalAny(cs[1..], api, h))
  }

  /** How many children the AndCheck loop calls before it returns. */
  function AllSteps(cs: seq<Check>, api: Api, h: History): (n: nat)
    ensures n <= |cs|
  {
    if cs == [] then 0
    else if Eval(cs[0], api, h) == Ok(true) then 1 + AllSteps(cs[1..], api, h)
    else 1
  }

  /** How many children the OrCheck loop calls before it returns. */
  function AnySteps(cs: seq<Check>, api: Api, h: History): (n: nat)
    ensures n <= |cs|
  {
    if cs == [] then 0
    else if Eval(cs[0], api, h) == Ok(false) then 1 + AnySteps(cs[1..], api, h)
    else 1
  }

  // ---------------------------------------------------------------------------------------
  // Meaning of the combinators

  /** `~c` is the negation of `c`, and raises exactly when `c` raises. */
  lemma InvertNegates(c: Check, api: Api, h: History)
    ensures Eval(Invert(c), api, h).Ok? <==> Eval(c, api, h).Ok?
    ensures forall b: bool :: Eval(Invert(c), api, h) == Ok(b) <==> Eval(c, api, h) == Ok(!b)
    ensures Eval(Invert(Invert(c)), api, h) == Eval(c, api, h)
  {
  }

  /** An AndCheck is true iff every child is true, and then it has called every child. */
  lemma {:induction false} EvalAllTrue(cs: seq<Check>, api: Api, h: History)
    ensures EvalAll(cs, api, h) == Ok(true) <==> forall i :: 0 <= i < |cs| ==> Eval(cs[i], api, h) == Ok(true)
    ensures EvalAll(cs, api, h) == Ok(true) ==> AllSteps(cs, api, h) == |cs|
  {
    if cs != [] {
      EvalAllTrue(cs[1..], api, h);
      assert forall i :: 1 <= i < |cs| ==> cs[i] == cs[1..][i - 1];
    }
  }

  /**
   * An AndCheck whose children before `i` are true and whose child `i` is false (or raises)
   * gives child `i`'s result, and calls exactly `i + 1` children: none after child `i`.
   */
  lemma {:induction false} EvalAllStops(cs: seq<Check>, i: nat, api: Api, h: History)
    requires i < |cs|
    requires forall j :: 0 <= j < i ==> Eval(cs[j], api, h) == Ok(true)
    requires Eval(cs[i], api, h) != Ok(true)
    ensures EvalAll(cs, api, h) == Eval(cs[i], api, h)
    ensures AllSteps(cs, api, h) == i + 1
  {
    if i > 0 {
      assert Eval(cs[0], api, h) == Ok(true);
      EvalAllStops(cs[1..], i - 1, api, h);
    }
  }

  /** The children after the ones an AndCheck calls cannot change its result. */
  lemma {:induction false} EvalAllIgnoresRest(cs: seq<Check>, rest: seq<Check>, api: Api, h: History)
    requires EvalAll(cs, api, h) != Ok(true)
    ensures EvalAll(cs + rest, api, h) == EvalAll(cs, api, h)
    ensures AllSteps(cs + rest, api, h) == AllSteps(cs, api, h)
  {
    assert cs != [];
    assert (cs + rest)[0] == cs[0];
    if Eval(cs[0], api, h) == Ok(true) {
      assert (cs + rest)[1..] == cs[1..] + rest;
      EvalAllIgnoresRest(cs[1..], rest, api, h);
    }
  }

  /** An OrCheck is true iff some child is true and every child before it is false. */
  lemma {:induction false} EvalAnyTrue(cs: seq<Check>, api: Api, h: History)
    ensures EvalAny(cs, api, h) == Ok(true) <==>
      exists i :: 0 <= i < |cs| && Eval(cs[i], api, h) == Ok(true) && forall j :: 0 <= j < i ==> Eval(cs[j], api, h) == Ok(false)
  {
    if cs != [] {
      EvalAnyTrue(cs[1..], api, h);
      if EvalAny(cs, api, h) == Ok(true) {
        if Eval(cs[0], api, h) == Ok(false) {
          var i :| 0 <= i < |cs[1..]| && Eval(cs[1..][i], api, h) == Ok(true)
                 && forall j :: 0 <= j < i ==> Eval(cs[1..][j], api, h) == Ok(false);
          assert forall j :: 1 <= j < i + 1 ==> cs[j] == cs[1..][j - 1];
          assert Eval(cs[i + 1], api, h) == Ok(true);
        } else {
          assert Eval(cs[0], api, h) == Ok(true);
        }
      } else {
        forall i | 0 <= i < |cs| && Eval(cs[i], api, h) == Ok(true)
          ensures exists j :: 0 <= j < i && Eval(cs[j], api, h) != Ok(false)
        {
          if Eval(cs[0], api, h) == Ok(false) {
            assert i > 0 && cs[1..][i - 1] == cs[i];
            var j :| 0 <= j < i - 1 && Eval(cs[1..][j], api, h) != Ok(false);
            assert cs[j + 1] == cs[1..][j];
          } else {
            assert i > 0;
          }
        }
      }
    }
  }

  /** An OrCheck none of whose children raises is true iff some child is true. */
  lemma EvalAnyWithoutErrors(cs: seq<Check>, api: Api, h: History)
    requires forall i :: 0 <= i < |cs| ==> Eval(cs[i], api, h).Ok?
    ensures EvalAny(cs, api, h) == Ok(exists i :: 0 <= i < |cs| && Eval(cs[i], api, h) == Ok(true))
  {
    EvalAnyTrue(cs, api, h);
    EvalAnyIsOk(cs, api, h);
    if exists i :: 0 <= i < |cs| && Eval(cs[i], api, h) == Ok(true) {
      var i :| 0 <= i < |cs| && Eval(cs[i], api, h) == Ok(true);
      FirstTrueExists(cs, i, api, h);
      assert EvalAny(cs, api, h) == Ok(true);
    } else {
      var v := EvalAny(cs, api, h);
      assert v.Ok? && v == Ok(v.value) && v != Ok(true);
      assert !v.value;
    }
  }

  lemma {:induction false} EvalAnyIsOk(cs: seq<Check>, api: Api, h: History)
    requires forall i :: 0 <= i < |cs| ==> Eval(cs[i], api, h).Ok?
    ensures EvalAny(cs, api, h).Ok?
  {
    if cs != [] {
      assert Eval(cs[0], api, h).Ok?;
      EvalAnyIsOk(cs[1..], api, h);
    }
  }

  /** Among truth values, a true child at `i` means there is a first true child. */
  lemma {:induction false} FirstTrueExists(cs: seq<Check>, i: nat, api: Api, h: History)
    requires i < |cs| && Eval(cs[i], api, h) == Ok(true)
    requires forall j :: 0 <= j < |cs| ==> Eval(cs[j], api, h).Ok?
    ensures exists k :: 0 <= k < |cs| && Eval(cs[k], api, h) == Ok(true) && forall j :: 0 <= j < k ==> Eval(cs[j], api, h) == Ok(false)
    decreases i
  {
    if forall j :: 0 <= j < i ==> Eval(cs[j], api, h) == Ok(false) {
    } else {
      var j :| 0 <= j < i && Eval(cs[j], api, h) != Ok(false);
      var v := Eval(cs[j], api, h);
      assert v.Ok? && v == Ok(v.value) && v.value;
      FirstTrueExists(cs, j, api, h);
    }
  }

  /**
   * An OrCheck whose children before `i` are false and whose child `i` is true (or raises)
   * gives child `i`'s result, and calls exactly `i + 1` children: none after child `i`.
   */
  lemma {:induction false} EvalAnyStops(cs: seq<Check>, i: nat, api: Api, h: History)
    requires i < |cs|
    requires forall j :: 0 <= j < i ==> Eval(cs[j], api, h) == Ok(false)
    requires Eval(cs[i], api, h) != Ok(false)
    ensures EvalAny(cs, api, h) == Eval(cs[i], api, h)
    ensures AnySteps(cs, api, h) == i + 1
  {
    if i > 0 {
      assert Eval(cs[0], api, h) == Ok(false);
      EvalAnyStops(cs[1..], i - 1, api, h);
    }
  }

  /** An OrCheck whose children are all false is false, after calling every child. */
  lemma {:induction false} EvalAnyFalse(cs: seq<Check>, api: Api, h: History)
    requires forall i :: 0 <= i < |cs| ==> Eval(cs[i], api, h) == Ok(false)
    ensures EvalAny(cs, api, h) == Ok(false) && AnySteps(cs, api, h) == |cs|
  {
    if cs != [] {
      assert Eval(cs[0], api, h) == Ok(false);
      EvalAnyFalse(cs[1..], api, h);
    }
  }

  /** Appending a child to an AndCheck conjoins it with the old meaning. */
  lemma {:induction false} EvalAllAppend(cs: seq<Check>, b: Check, api: Api, h: History)
    ensures EvalAll(cs + [b], api, h) == Both(EvalAll(cs, api, h), Eval(b, api, h))
  {
    if cs == [] {
      assert [] + [b] == [b];
    } else {
      assert (cs + [b])[0] == cs[0];
      assert (cs + [b])[1..] == cs[1..] + [b];
      EvalAllAppend(cs[1..], b, api, h);
    }
  }

  /** Appending a child to an OrCheck disjoins it with the old meaning. */
  lemma {:induction false} EvalAnyAppend(cs: seq<Check>, b: Check, api: Api, h: History)
    ensures EvalAny(cs + [b], api, h) == Either(EvalAny(cs, api, h), Eval(b, api, h))
  {
    if cs == [] {
      assert [] + [b] == [b];
    } else {
      assert (cs + [b])[0] == cs[0];
      assert (cs + [b])[1..] == cs[1..] + [b];
      EvalAnyAppend(cs[1..], b, api, h);
    }
  }

  /** A FuncCheck returns `func(history)` and does not use the api. */
  lemma FuncIgnoresApi(f: History -> Outcome, api1: Api, api2: Api, h: History)
    ensures Eval(Func(f), api1, h) == f(h) == Eval(Func(f), api2, h)
  {
  }

  // ---------------------------------------------------------------------------------------
  // The Python objects and their operators

  /** An AndCheck object: its list of children grows when it is the left operand of `&`. */
  class AndCheck {
    var checks: seq<Check>

    constructor (checks: seq<Check>)
      ensures this.checks == checks
    {
      this.checks := checks;
    }

    /** The check this object currently stands for. */
    function Meaning(): Check
      reads this
    {
      Conj(checks)
    }

    /** `check`: calls the children in order and returns at the first one that is not true. */
    method Evaluate(api: Api, h: History) returns (r: Outcome, ghost calls: nat)
      ensures r == EvalAll(checks, api, h)
      ensures calls == AllSteps(checks, api, h)
    {
      var i := 0;
      while i < |checks|
        invariant 0 <= i <= |checks|
        invariant forall j :: 0 <= j < i ==> Eval(checks[j], api, h) == Ok(true)
      {
        var v := Eval(checks[i], api, h);
        if v != Ok(true) {
          EvalAllStops(checks, i, api, h);
          return v, i + 1;
        }
        i := i + 1;
      }
      EvalAllTrue(checks, api, h);
      return Ok(true), i;
    }
  }

  /** An OrCheck object: its list of children grows when it is the left operand of `|`. */
  class OrCheck {
    var checks: seq<Check>

    constructor (checks: seq<Check>)
      ensures this.checks == checks
    {
      this.checks := checks;
    }

    /** The check this object currently stands for. */
    function Meaning(): Check
      reads this
    {
      Disj(checks)
    }

    /** `check`: calls the children in order and returns at the first one that is not false. */
    method Evaluate(api: Api, h: History) returns (r: Outcome, ghost calls: nat)
      ensures r == EvalAny(checks, api, h)
      ensures calls == AnySteps(checks, api, h)
    {
      var i := 0;
      while i < |checks|
        invariant 0 <= i <= |checks|
        invariant forall j :: 0 <= j < i ==> Eval(checks[j], api, h) == Ok(false)
      {
        var v := Eval(checks[i], api, h);
        if v != Ok(false) {
          EvalAnyStops(checks, i, api, h);
          return v, i + 1;
        }
        i := i + 1;
      }
      EvalAnyFalse(checks, api, h);
      return Ok(false), i;
    }
  }

  /** A Python check object used as an operand: a mutable combinator, or any other check. */
  datatype Operand =
    | AndObject(andObj: AndCheck)
    | OrObject(orObj: OrCheck)
    | Immutable(check: Check)

  function Objects(op: Operand): set<object> {
    match op
    case AndObject(a) => {a}
    case OrObject(o) => {o}
    case Immutable(_) => {}
  }

  /** The check an operand currently stands for. */
  function Meaning(op: Operand): Check
    reads Objects(op)
  {
    match op
    case AndObject(a) => a.Meaning()
    case OrObject(o) => o.Meaning()
    case Immutable(c) => c
  }

  /**
   * `left & other`.  An AndCheck on the left gets `other` appended to its own list and is
   * returned itself; any other left operand yields a new AndCheck of exactly `[left, other]`.
   * Either way the result means the conjunction of the two old meanings.
   */
  method AndOp(left: Operand, other: Operand) returns (r: AndCheck)
    modifies if left.AndObject? then {left.andObj} else {}
    ensures left.AndObject? ==> r == left.andObj && r.checks == old(left.andObj.checks) + [old(Meaning(other))]
    ensures !left.AndObject? ==> fresh(r) && r.checks == [old(Meaning(left)), old(Meaning(other))]
    ensures forall api, h :: EvalAll(r.checks, api, h) == Both(Eval(old(Meaning(left)), api, h), Eval(old(Meaning(other)), api, h))
  {
    var b := Meaning(other);
    match left
    case AndObject(a) =>
      a.checks := a.checks + [b];
      r := a;
      forall api, h ensures EvalAll(r.checks, api, h) == Both(EvalAll(old(a.checks), api, h), Eval(b, api, h)) {
        EvalAllAppend(old(a.checks), b, api, h);
      }
    case _ =>
      var a := Meaning(left);
      r := new AndCheck([a, b]);
      forall api, h ensures EvalAll([a, b], api, h) == Both(Eval(a, api, h), Eval(b, api, h)) {
        assert [a, b][1..] == [b] && [b][1..] == [];
        assert EvalAll([b], api, h) == Both(Eval(b, api, h), Ok(true));
      }
  }

  /**
   * `left | other`.  An OrCheck on the left gets `other` appended to its own list and is
   * returned itself; any other left operand yields a new OrCheck of exactly `[left, other]`.
   * Either way the result means the disjunction of the two old meanings.
   */
  method OrOp(left: Operand, other: Operand) returns (r: OrCheck)
    modifies if left.OrObject? then {left.orObj} else {}
    ensures left.OrObject? ==> r == left.orObj && r.checks == old(left.orObj.checks) + [old(Meaning(other))]
    ensures !left.OrObject? ==> fresh(r) && r.checks == [old(Meaning(left)), old(Meaning(other))]
    ensures forall api, h :: EvalAny(r.checks, api, h) == Either(Eval(old(Meaning(left)), api, h), Eval(old(Meaning(other)), api, h))
  {
    var b := Meaning(other);
    match left
    case OrObject(o) =>
      o.checks := o.checks + [b];
      r := o;
      forall api, h ensures EvalAny(r.checks, api, h) == Either(EvalAny(old(o.checks), api, h), Eval(b, api, h)) {
        EvalAnyAppend(old(o.checks), b, api, h);
      }
    case _ =>
      var a := Meaning(left);
      r := new OrCheck([a, b]);
      forall api, h ensures EvalAny([a, b], api, h) == Either(Eval(a, api, h), Eval(b, api, h)) {
        assert [a, b][1..] == [b] && [b][1..] == [];
        assert EvalAny([b], api, h) == Either(Eval(b, api, h), Ok(false));
      }
  }

  /** `~left`: a new InvertCheck around the operand. */
  function InvertOp(left: Operand): (r: Check)
    reads Objects(left)
    ensures forall api, h :: Eval(r, api, h) == Negate(Eval(Meaning(left), api, h))
  {
    Invert(Meaning(left))
  }
}
