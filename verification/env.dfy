/**
 * Environment-variable helpers: a lookup with a default that warns when
 * neither is set, and a check that every required variable is set.
 */
module Env {
  import opened Js
  import opened Seqs

  /** The build-time environment (`import.meta.env`). */
  type Environment = map<string, JsValue>

  /** A lookup's value and whether it wrote the "not defined" warning. */
  datatype Lookup = Lookup(value: JsValue, warned: bool)

  /** `defaultValue = ''`: an omitted default is the empty string. */
  function DefaultOrEmpty(defaultValue: JsValue): JsValue {
    if defaultValue == Undefined then Str("") else defaultValue
  }

  /** `getEnvVar(key, defaultValue)` */
  function GetEnvVar(env: Environment, key: string, defaultValue: JsValue): (r: Lookup)
    ensures Truthy(Get(env, key)) ==> r.value == Get(env, key)
    ensures !Truthy(Get(env, key)) ==> r.value == DefaultOrEmpty(defaultValue)
    ensures r.warned <==> !Truthy(Get(env, key)) && !Truthy(DefaultOrEmpty(defaultValue))
    ensures r.warned ==> !Truthy(r.value)
  {
    var value := Get(env, key);
    var fallback := DefaultOrEmpty(defaultValue);
    Lookup(Or(value, fallback), !Truthy(value) && !Truthy(fallback))
  }

  /** The names whose variables are unset or falsy, in the order given. */
  function MissingVars(env: Environment, requiredVars: seq<string>): (r: seq<string>)
    ensures forall v :: v in r <==> v in requiredVars && !Truthy(Get(env, v))
  {
    Filter(requiredVars, v => !Truthy(Get(env, v)))
  }

  /** The missing list of a longer list starts with the missing list of its head part. */
  lemma MissingVarsAppend(env: Environment, a: seq<string>, b: seq<string>)
    ensures MissingVars(env, a + b) == MissingVars(env, a) + MissingVars(env, b)
  {
    FilterConcat(a, b, v => !Truthy(Get(env, v)));
  }

  /** The result of the check, with the list it reports on failure. */
  datatype Validation = Validation(ok: bool, reported: seq<string>)

  /** `validateRequiredEnvVars(requiredVars)` */
  function ValidateRequiredEnvVars(env: Environment, requiredVars: seq<string>): (r: Validation)
    ensures r.ok <==> forall i :: 0 <= i < |requiredVars| ==> Truthy(Get(env, requiredVars[i]))
    ensures requiredVars == [] ==> r.ok
    ensures r.ok ==> r.reported == []
    ensures !r.ok ==> r.reported == MissingVars(env, requiredVars) && |r.reported| > 0
  {
    var missing := MissingVars(env, requiredVars);
    if |missing| > 0 then Validation(false, missing) else Validation(true, [])
  }
}
