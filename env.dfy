/** `getEnv` of lib/env.ts: reads a variable from the process environment, with
    an optional default and an optional "required" check. The environment is a
    parameter (`process.env` as a map from names to values). */
module Env {
  import opened Common

  datatype EnvError = MissingRequired(key: string)

  /** `process.env[key] ?? defaultValue`: the variable when it is set, else the default. */
  function Resolve(env: map<string, string>, key: string, default: Option<string>): Option<string> {
    if key in env then Some(env[key]) else default
  }

  /** `getEnv(key, defaultValue, required)`; a thrown error is a `Failure`. */
  function GetEnv(env: map<string, string>, key: string, default: Option<string>, required: bool)
    : (r: Result<string, EnvError>)
    // a set variable wins over the default, even when it is empty
    ensures key in env && (env[key] != "" || !required) ==> r == Success(env[key])
    // an unset variable yields the default, or "" without one
    ensures key !in env && (!required || default.GetOr("") != "") ==> r == Success(default.GetOr(""))
    // the error is raised exactly when a required variable resolves to nothing or ""
    ensures r.Failure? <==> required && Resolve(env, key, default).GetOr("") == ""
    ensures r.Failure? ==> r.error == MissingRequired(key)
    // a required variable that resolves is returned non-empty
    ensures required && r.Success? ==> r.value != ""
  {
    var value := Resolve(env, key, default);
    if required && (value.None? || value.value == "") then Failure(MissingRequired(key))
    else Success(value.GetOr(""))
  }

  /** A value read without `required` never raises. */
  lemma NotRequiredNeverRaises(env: map<string, string>, key: string, default: Option<string>)
    ensures GetEnv(env, key, default, false).Success?
  {
  }

  /** `getEnv(key)` with neither default nor `required`: the variable, or "". */
  function EnvOrEmpty(env: map<string, string>, key: string): (r: string)
    ensures key in env ==> r == env[key]
    ensures key !in env ==> r == ""
  {
    GetEnv(env, key, None, false).value
  }
}
