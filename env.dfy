/** The server's environment check: the three Twitch variables the server needs, reading one
    (which fails with a message naming it when it is unset or empty), and the per-variable
    summary of which are configured. The process environment is a parameter. */
module Env {
  import opened Web

  const RequiredEnv: seq<string> := ["TWITCH_CLIENT_ID", "TWITCH_CLIENT_SECRET", "TWITCH_CALLBACK_URI"]

  const MissingSuffix := " 환경 변수가 설정되지 않았습니다."

  /** The message of the error thrown for an unset variable. */
  function MissingMessage(key: string): (m: string)
    ensures |m| == |key| + |MissingSuffix|
    ensures m[..|key|] == key && m[|key|..] == MissingSuffix
  {
    key + MissingSuffix
  }

  /** The variable is set to a non-empty string (`Boolean(process.env[key])`). */
  predicate Configured(env: map<string, string>, key: string) {
    key in env && env[key] != ""
  }

  /** `readEnv`: the value, or the error it throws. */
  function ReadEnv(env: map<string, string>, key: string): (r: Result<string, string>)
    ensures r.Ok? <==> Configured(env, key)
    ensures r.Ok? ==> r.value == env[key] && r.value != ""
    ensures r.Err? ==> r.error == MissingMessage(key)
  {
    if key in env && env[key] != "" then Ok(env[key]) else Err(MissingMessage(key))
  }

  /** The error message names the variable: two variables never share a message. */
  lemma MissingMessageNamesKey(a: string, b: string)
    requires MissingMessage(a) == MissingMessage(b)
    ensures a == b
  {
    assert |a| == |b|;
    assert a == MissingMessage(a)[..|a|];
  }

  /** `twitchEnv`'s three readers. */
  function ClientId(env: map<string, string>): Result<string, string> {
    ReadEnv(env, "TWITCH_CLIENT_ID")
  }

  function ClientSecret(env: map<string, string>): Result<string, string> {
    ReadEnv(env, "TWITCH_CLIENT_SECRET")
  }

  function CallbackUri(env: map<string, string>): Result<string, string> {
    ReadEnv(env, "TWITCH_CALLBACK_URI")
  }

  /** Each reader reads the variable the required list names in its place. */
  lemma TwitchEnvReads(env: map<string, string>)
    ensures ClientId(env) == ReadEnv(env, RequiredEnv[0])
    ensures ClientSecret(env) == ReadEnv(env, RequiredEnv[1])
    ensures CallbackUri(env) == ReadEnv(env, RequiredEnv[2])
    ensures ClientId(env).Ok? ==> ClientId(env).value == env["TWITCH_CLIENT_ID"]
    ensures ClientSecret(env).Ok? ==> ClientSecret(env).value == env["TWITCH_CLIENT_SECRET"]
    ensures CallbackUri(env).Ok? ==> CallbackUri(env).value == env["TWITCH_CALLBACK_URI"]
  {
  }

  /** One entry of the summary. */
  datatype EnvEntry = EnvEntry(key: string, configured: bool)

  /** `keys.map(key => ({ key, configured }))`: one entry per key, in order, configured exactly
      when reading that key would succeed. */
  function Summarize(env: map<string, string>, keys: seq<string>): (r: seq<EnvEntry>)
    ensures |r| == |keys|
    ensures forall i :: 0 <= i < |keys| ==> r[i].key == keys[i]
    ensures forall i :: 0 <= i < |keys| ==> (r[i].configured <==> ReadEnv(env, keys[i]).Ok?)
  {
    if keys == [] then [] else [EnvEntry(keys[0], Configured(env, keys[0]))] + Summarize(env, keys[1..])
  }

  /** `getConfiguredEnvSummary`. */
  function ConfiguredEnvSummary(env: map<string, string>): seq<EnvEntry> {
    Summarize(env, RequiredEnv)
  }

  /** The summary lists the three required variables in their declared order, and marks one
      configured exactly when the server can read it. */
  lemma SummaryAgreesWithReaders(env: map<string, string>)
    ensures var s := ConfiguredEnvSummary(env);
      && |s| == 3
      && s[0] == EnvEntry("TWITCH_CLIENT_ID", ClientId(env).Ok?)
      && s[1] == EnvEntry("TWITCH_CLIENT_SECRET", ClientSecret(env).Ok?)
      && s[2] == EnvEntry("TWITCH_CALLBACK_URI", CallbackUri(env).Ok?)
  {
  }
}
