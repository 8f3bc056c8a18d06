/**
 * The scope chain: a list of name-to-value maps, innermost scope first. The
 * last map is the global scope, so the chain is never empty.
 */
module Environment {
  import opened Wrappers
  import opened Values
  import opened Tokens
  import opened Faults

  type Scope = map<string, Value>

  type Env = e: seq<Scope> | |e| > 0 witness [map[]]

  /** Some scope of the chain binds `x`. */
  predicate Bound(env: seq<Scope>, x: string) {
    exists i :: 0 <= i < |env| && x in env[i]
  }

  /** Scope `i` is the innermost one that binds `x`. */
  predicate Innermost(env: seq<Scope>, x: string, i: int) {
    0 <= i < |env| && x in env[i] && forall j :: 0 <= j < i ==> x !in env[j]
  }

  /** Both chains have the same depth and every scope binds the same names. */
  predicate SameShape(a: seq<Scope>, b: seq<Scope>) {
    |a| == |b| && forall i :: 0 <= i < |a| ==> a[i].Keys == b[i].Keys
  }

  function UndefinedVariable(name: Token): RuntimeError {
    RuntimeError(name, "Undefined variable " + name.lexeme + ".")
  }

  /**
   * `Define`: binds a name in the current scope only. It fails, changing
   * nothing, when the current scope already binds the name; enclosing
   * scopes are neither read nor written, so shadowing succeeds.
   */
  function Define(env: Env, name: Token, value: Value): (r: Result<Env, RuntimeError>)
    ensures r.Success? <==> name.lexeme !in env[0]
    ensures r.Failure? ==> r.error == RuntimeError(name, "Variable already defined.")
    ensures r.Success? ==> |r.value| == |env| && r.value[1..] == env[1..]
    ensures r.Success? ==> r.value[0].Keys == env[0].Keys + {name.lexeme}
    ensures r.Success? ==> forall y :: y in env[0] ==> r.value[0][y] == env[0][y]
  {
    if name.lexeme in env[0] then
      Failure(RuntimeError(name, "Variable already defined."))
    else
      Success([env[0][name.lexeme := value]] + env[1..])
  }

  /**
   * `Get`: the value bound in the innermost scope that binds the name; an
   * "Undefined variable" error exactly when no scope binds it.
   */
  function Get(env: Env, name: Token): (r: Result<Value, RuntimeError>)
    ensures r.Success? <==> Bound(env, name.lexeme)
    ensures forall i :: Innermost(env, name.lexeme, i) ==> r == Success(env[i][name.lexeme])
    ensures r.Failure? ==> r.error == UndefinedVariable(name)
    decreases |env|
  {
    if name.lexeme in env[0] then
      Success(env[0][name.lexeme])
    else if |env| > 1 then
      var r := Get(env[1..], name);
      assert forall i :: Innermost(env, name.lexeme, i) ==> Innermost(env[1..], name.lexeme, i - 1);
      assert Bound(env[1..], name.lexeme) ==> Bound(env, name.lexeme) by {
        if Bound(env[1..], name.lexeme) {
          var i :| 0 <= i < |env[1..]| && name.lexeme in env[1..][i];
          assert name.lexeme in env[i + 1];
        }
      }
      r
    else
      Failure(UndefinedVariable(name))
  }

  /**
   * `Assign`: overwrites the binding in the innermost scope that binds the
   * name and leaves every other scope as it was; it never creates a
   * binding, and fails with "Undefined variable" when no scope binds the
   * name.
   */
  function Assign(env: Env, name: Token, value: Value): (r: Result<Env, RuntimeError>)
    ensures r.Success? <==> Bound(env, name.lexeme)
    ensures r.Failure? ==> r.error == UndefinedVariable(name)
    ensures r.Success? ==> SameShape(env, r.value)
    ensures r.Success? ==> forall i :: Innermost(env, name.lexeme, i) ==> r.value[i] == env[i][name.lexeme := value]
    ensures r.Success? ==> forall i, j :: Innermost(env, name.lexeme, i) && 0 <= j < |env| && j != i ==> r.value[j] == env[j]
    decreases |env|
  {
    if name.lexeme in env[0] then
      var r := [env[0][name.lexeme := value]] + env[1..];
      assert forall j :: 1 <= j < |env| ==> r[j] == env[j];
      assert forall i :: Innermost(env, name.lexeme, i) ==> i == 0;
      Success(r)
    else if |env| > 1 then
      match Assign(env[1..], name, value)
      case Success(rest) =>
        var r := [env[0]] + rest;
        assert forall i :: Innermost(env, name.lexeme, i) ==> Innermost(env[1..], name.lexeme, i - 1);
        assert r[0] == env[0] && forall j :: 1 <= j < |env| ==> r[j] == rest[j - 1] && env[j] == env[1..][j - 1];
        Success(r)
      case Failure(e) =>
        Failure(e)
    else
      Failure(UndefinedVariable(name))
  }

  /** `Define(n, v)` in a scope without `n` succeeds, and `Get(n)` then answers `v`. */
  lemma GetAfterDefine(env: Env, name: Token, value: Value)
    requires name.lexeme !in env[0]
    ensures Define(env, name, value).Success?
    ensures Get(Define(env, name, value).value, name) == Success(value)
  {
    assert Innermost(Define(env, name, value).value, name.lexeme, 0);
  }

  /** `Assign(n, v)` of a bound name succeeds, and `Get(n)` then answers `v`. */
  lemma GetAfterAssign(env: Env, name: Token, value: Value)
    requires Bound(env, name.lexeme)
    ensures Assign(env, name, value).Success?
    ensures Get(Assign(env, name, value).value, name) == Success(value)
  {
    var env' := Assign(env, name, value).value;
    var x := name.lexeme;
    var i := InnermostExists(env, x);
    assert Innermost(env', x, i) by {
      forall j | 0 <= j < i
        ensures x !in env'[j]
      {
        assert env'[j] == env[j];
      }
    }
  }

  /** A bound name has an innermost binding scope. */
  lemma InnermostExists(env: seq<Scope>, x: string) returns (i: nat)
    requires Bound(env, x)
    ensures Innermost(env, x, i)
  {
    var k :| 0 <= k < |env| && x in env[k];
    i := 0;
    while x !in env[i]
      invariant 0 <= i <= k
      invariant forall j :: 0 <= j < i ==> x !in env[j]
      decreases k - i
    {
      i := i + 1;
    }
  }

  /**
   * Defining or assigning one name leaves what `Get` answers for every
   * other name unchanged.
   */
  lemma OtherNamesUnaffected(env: Env, name: Token, other: Token, value: Value)
    requires other.lexeme != name.lexeme
    ensures Define(env, name, value).Success? ==> Get(Define(env, name, value).value, other) == Get(env, other)
    ensures Assign(env, name, value).Success? ==> Get(Assign(env, name, value).value, other) == Get(env, other)
  {
    var y := other.lexeme;
    if Define(env, name, value).Success? {
      var env' := Define(env, name, value).value;
      SameBindingsSameGet(env, env', other);
    }
    if Assign(env, name, value).Success? {
      var env' := Assign(env, name, value).value;
      var i := InnermostExists(env, name.lexeme);
      forall j | 0 <= j < |env|
        ensures y in env[j] <==> y in env'[j]
        ensures y in env[j] ==> env[j][y] == env'[j][y]
      {
        if j != i {
          assert env'[j] == env[j];
        }
      }
      SameBindingsSameGet(env, env', other);
    }
  }

  /** Chains that agree on one name answer the same to `Get` for it. */
  lemma SameBindingsSameGet(a: Env, b: Env, name: Token)
    requires |a| == |b|
    requires forall j :: 0 <= j < |a| ==> (name.lexeme in a[j] <==> name.lexeme in b[j])
    requires forall j :: 0 <= j < |a| && name.lexeme in a[j] ==> a[j][name.lexeme] == b[j][name.lexeme]
    ensures Get(a, name) == Get(b, name)
  {
    var x := name.lexeme;
    if Bound(a, x) {
      var i := InnermostExists(a, x);
      assert Innermost(b, x, i);
    } else {
      assert !Bound(b, x);
    }
  }

  /**
   * Shadowing: a name bound only in enclosing scopes can still be defined
   * in the current scope; `Get` then sees the new binding while every
   * enclosing scope keeps its own.
   */
  lemma DefineShadows(env: Env, name: Token, value: Value)
    requires name.lexeme !in env[0] && Bound(env, name.lexeme)
    ensures Define(env, name, value).Success?
    ensures Get(Define(env, name, value).value, name) == Success(value)
    ensures Define(env, name, value).value[1..] == env[1..]
  {
    GetAfterDefine(env, name, value);
  }
}
