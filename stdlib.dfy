/** The two pieces of Go's standard library that the configuration code relies on:
    reading an environment variable and testing a string prefix. */
module Stdlib {

  /** A snapshot of the process environment: variable name to value.
      A name that is not a key is an unset variable. */
  type Environment = map<string, string>

  /** `os.Getenv`: the value of `key`, or "" when it is unset. Go gives no way to
      tell an unset variable from one set to "", and neither does this. */
  function Getenv(env: Environment, key: string): string
  {
    if key in env then env[key] else ""
  }

  /** `strings.HasPrefix`. */
  predicate HasPrefix(s: string, prefix: string)
  {
    |prefix| <= |s| && s[..|prefix|] == prefix
  }

  /** Unsetting a variable and setting it to "" are indistinguishable to `Getenv`,
      and every other variable reads the same in both snapshots. */
  lemma UnsetIsEmpty(env: Environment, key: string, other: string)
    ensures Getenv(env - {key}, key) == Getenv(env[key := ""], key) == ""
    ensures other != key ==> Getenv(env - {key}, other) == Getenv(env[key := ""], other) == Getenv(env, other)
  {
  }
}
