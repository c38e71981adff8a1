/** The environment map a CI provider reads. A variable that is absent and a
    variable whose value is the empty string mean the same thing: "not set". */
module Env {

  type Envs = map<string, string>

  /** The value of `name`, reading an absent variable as the empty string. */
  function Get(envs: Envs, name: string): (value: string)
    ensures name in envs ==> value == envs[name]
    ensures name !in envs ==> value == ""
  {
    if name in envs then envs[name] else ""
  }

  /** A variable is set when it is present with a non-empty value. */
  predicate IsSet(envs: Envs, name: string)
  {
    Get(envs, name) != ""
  }

  /** The first non-empty of two strings, or "" when both are empty
      (the `a || b || ''` chains of the providers). */
  function FirstSet(a: string, b: string): (r: string)
    ensures r == a || r == b
    ensures a != "" ==> r == a
    ensures r == "" <==> a == "" && b == ""
  {
    if a != "" then a else b
  }
}
