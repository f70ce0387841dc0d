/**
 * main.go, lines 14-43: how the configuration path is chosen from the `-config` and `-c` flags
 * and the DDK_CONFIG environment variable. Flag parsing and the environment are inputs.
 */
module GoMain {

  const DefaultConfigPath := "/etc/ddk/config.toml"

  /**
   * The path main ends up with: DDK_CONFIG when non-empty; otherwise `-config` unless it holds
   * the default, in which case `-c` (itself the default when not given).
   */
  function ConfigPath(configFlag: string, cFlag: string, env: string): (path: string)
  {
    if env != "" then env
    else if configFlag == DefaultConfigPath then cFlag
    else configFlag
  }

  /**
   * main, lines 23-43. `configFlag` and `cFlag` are the parsed flag values (the default when
   * absent), `visited` the names of the flags the user set, as `flag.Visit` reports them, and
   * `env` the value of DDK_CONFIG ("" when unset). Whether `-c` was set never changes the result.
   */
  method ResolveConfigPath(configFlag: string, cFlag: string, visited: seq<string>, env: string) returns (path: string)
    ensures path == ConfigPath(configFlag, cFlag, env)
    ensures env != "" ==> path == env
    ensures env == "" && configFlag != DefaultConfigPath ==> path == configFlag
    ensures env == "" && configFlag == DefaultConfigPath ==> path == cFlag
  {
    path := configFlag;
    var userSetC := false;
    for i := 0 to |visited| {
      if visited[i] == "c" {
        userSetC := true;
      }
    }
    if userSetC && configFlag == DefaultConfigPath {
      path := cFlag;
    } else if configFlag == DefaultConfigPath && cFlag != DefaultConfigPath {
      path := cFlag;
    }
    if env != "" {
      path := env;
    }
  }

  /** With neither flag given and DDK_CONFIG unset, the default path is used. */
  lemma NoFlagsNoEnv()
    ensures ConfigPath(DefaultConfigPath, DefaultConfigPath, "") == "/etc/ddk/config.toml"
  {
  }
}
