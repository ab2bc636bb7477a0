/** The canonical CI metadata a CI provider reports: Go's `env.Env`. */
module CiEnv {

  /** Every field is optional: the empty string means that the provider does not supply it. */
  datatype Env = Env(
    repository: string,
    commit: string,
    branch: string,
    author: string,
    repositoryUrl: string,
    integration: string,
    filepath: string)

  /** An Env with no field set, as when no CI provider supplies anything. */
  const NoEnv := Env("", "", "", "", "", "", "")

  /** `os.Getenv` on a snapshot of the process environment: an unset variable reads as "". */
  function Getenv(vars: map<string, string>, key: string): string
  {
    if key in vars then vars[key] else ""
  }
}
