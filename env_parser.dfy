/**
 * src/EnvParser.ts: the newer copy of the environment snapshot, reading the
 * public path from the newer configuration holder and storing it under the
 * key PUBLIC_PATH instead of PUBLIC_URL.
 */
module EnvParser {
  import opened Wrappers
  import AppConfigParser
  import DotEnv
  import Json

  const PublicPathKey := "PUBLIC_PATH"

  class EnvParser {
    const rootPath: string
    const appConfig: AppConfigParser.AppConfigParser
    const raw: map<string, string>
    const stringified: map<string, map<string, string>>

    /** The snapshot keeps the reserved keys, only `APP_` keys besides, and the encoded copy of exactly them. */
    ghost predicate Valid() {
      DotEnv.WellFormedRaw(raw, PublicPathKey) && stringified == DotEnv.Stringified(raw)
    }

    /**
     * `env` is the process environment when the parser is built; `load` stands
     * for loading the candidate dot-env files into it; `buildTime` is the
     * local time string taken at construction.
     */
    constructor (rootPath: string, appConfig: AppConfigParser.AppConfigParser, env: DotEnv.Env, load: DotEnv.Loader, buildTime: string)
      ensures Valid()
      ensures this.rootPath == rootPath && this.appConfig == appConfig
      ensures raw == DotEnv.RawEnv(
        load(env, DotEnv.CandidateFiles(rootPath, DotEnv.Mode(env))), PublicPathKey, appConfig.GetPublicPath(), buildTime)
    {
      var mode := DotEnv.Mode(env);
      var dotEnvFiles := DotEnv.CandidateFiles(rootPath, mode);
      var loaded := load(env, dotEnvFiles);
      var seed := DotEnv.Seed(loaded, PublicPathKey, appConfig.GetPublicPath(), buildTime);
      var rawEnv := DotEnv.CollectRaw(loaded, seed);
      var encoded := DotEnv.StringifyValues(rawEnv);
      DotEnv.RawEnvShape(loaded, PublicPathKey, appConfig.GetPublicPath(), buildTime);
      this.rootPath := rootPath;
      this.appConfig := appConfig;
      raw := rawEnv;
      stringified := map["process.env" := encoded];
    }

    /** The raw snapshot taken at construction. */
    function GetRaw(): (r: map<string, string>)
      requires Valid()
      ensures r == raw
      ensures DotEnv.WellFormedRaw(r, PublicPathKey)
    {
      raw
    }

    /** The encoded snapshot taken at construction: one entry, "process.env", holding every raw key. */
    function GetStringified(): (r: map<string, map<string, string>>)
      requires Valid()
      ensures r.Keys == {"process.env"}
      ensures r["process.env"].Keys == raw.Keys
      ensures r == DotEnv.Stringified(raw)
    {
      DotEnv.StringifiedDecodes(raw);
      stringified
    }
  }

  /** Every encoded value decodes back to the raw value it was taken from. */
  lemma StringifiedRoundTrip(holder: EnvParser)
    requires holder.Valid()
    ensures forall key :: key in holder.raw ==>
      Json.Decode(holder.GetStringified()["process.env"][key]) == Some(holder.raw[key])
  {
    DotEnv.StringifiedDecodes(holder.raw);
  }

  /** This copy publishes the public path as PUBLIC_PATH: the raw map never has a PUBLIC_URL key. */
  lemma NoPublicUrlKey(env: DotEnv.Env, publicPath: string, buildTime: string)
    ensures var raw := DotEnv.RawEnv(env, PublicPathKey, publicPath, buildTime);
      PublicPathKey in raw && "PUBLIC_URL" !in raw
  {
    var raw := DotEnv.RawEnv(env, PublicPathKey, publicPath, buildTime);
    assert !DotEnv.IsAppKey("PUBLIC_URL");
    assert "PUBLIC_URL" !in DotEnv.AppEntries(env);
  }
}
