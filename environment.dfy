/** The process environment, as the Go runtime exposes it. */
module Environment {

  /** Environment variables by name; a name absent from the map is unset. */
  type Env = map<string, string>

  /** `os.Getenv`: the value of `key`, or the empty string when it is unset. */
  function Getenv(env: Env, key: string): string {
    if key in env then env[key] else ""
  }
}
