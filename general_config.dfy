/**
 * The general `gitProcess` settings: whether a sync rebases by default, the OAuth token and the
 * user name for the server's API.
 */
module GeneralConfig {
  import opened Wrappers
  import opened Config

  const DefaultRebaseSyncKey: string := "defaultRebaseSync"
  const OauthTokenKey: string := "oauthToken"
  const UsernameKey: string := "username"

  /**
   * `defaultRebaseSync()`: `gitProcess.defaultRebaseSync` read as a boolean, true when unset; a
   * value that is not a boolean throws.
   */
  function DefaultRebaseSync(c: Config): (r: Try<bool>)
    ensures ConfigKey(GitProcessSection, None, DefaultRebaseSyncKey) !in c ==> r == Ok(true)
  {
    GetBoolean(c, GitProcessSection, None, DefaultRebaseSyncKey, true)
  }

  /** `defaultRebaseSync(boolean)`: stores the flag. */
  function SetDefaultRebaseSync(c: Config, value: bool): (r: Config)
    ensures r.Keys == c.Keys + {ConfigKey(GitProcessSection, None, DefaultRebaseSyncKey)}
  {
    SetBoolean(c, GitProcessSection, None, DefaultRebaseSyncKey, value)
  }

  /** The stored flag is the one read back. */
  lemma DefaultRebaseSyncRoundTrip(c: Config, value: bool)
    ensures DefaultRebaseSync(SetDefaultRebaseSync(c, value)) == Ok(value)
  {
    GetBooleanAfterSet(c, GitProcessSection, None, DefaultRebaseSyncKey, value, true);
  }

  /** `oauthToken()`: `gitProcess.oauthToken`, if set. */
  function OauthToken(c: Config): (r: Option<string>)
    ensures r.Some? <==> ConfigKey(GitProcessSection, None, OauthTokenKey) in c
  {
    GetString(c, GitProcessSection, None, OauthTokenKey)
  }

  /** `oauthToken(String)`: stores the token. */
  function SetOauthToken(c: Config, token: string): (r: Config)
    ensures r.Keys == c.Keys + {ConfigKey(GitProcessSection, None, OauthTokenKey)}
  {
    SetString(c, GitProcessSection, None, OauthTokenKey, token)
  }

  /** The stored token is the one read back, and the user name is unaffected. */
  lemma OauthTokenRoundTrip(c: Config, token: string)
    ensures OauthToken(SetOauthToken(c, token)) == Some(token)
    ensures Username(SetOauthToken(c, token)) == Username(c)
  {
  }

  /**
   * `username()`: `gitProcess.username`, else the `github.user` setting some other programs
   * write, else nothing.
   */
  function Username(c: Config): (r: Option<string>)
    ensures r.None? <==> ConfigKey(GitProcessSection, None, UsernameKey) !in c && ConfigKey("github", None, "user") !in c
    ensures ConfigKey(GitProcessSection, None, UsernameKey) in c ==> r == Some(c[ConfigKey(GitProcessSection, None, UsernameKey)])
  {
    match GetString(c, GitProcessSection, None, UsernameKey)
    case Some(name) => Some(name)
    case None => GetString(c, "github", None, "user")
  }

  /** `username(String)`: stores the user name. */
  function SetUsername(c: Config, name: string): (r: Config)
    ensures r.Keys == c.Keys + {ConfigKey(GitProcessSection, None, UsernameKey)}
  {
    SetString(c, GitProcessSection, None, UsernameKey, name)
  }

  /** The stored user name wins over `github.user`, and the token is unaffected. */
  lemma UsernameRoundTrip(c: Config, name: string)
    ensures Username(SetUsername(c, name)) == Some(name)
    ensures OauthToken(SetUsername(c, name)) == OauthToken(c)
  {
  }

  /** Without `gitProcess.username`, the `github.user` setting is the user name. */
  lemma UsernameFallsBackToGithubUser(c: Config, name: string)
    requires ConfigKey(GitProcessSection, None, UsernameKey) !in c
    ensures Username(c[ConfigKey("github", None, "user") := name]) == Some(name)
  {
  }
}
