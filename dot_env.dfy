/**
 * The environment snapshot algorithm shared by src/EnvHolder.ts and
 * src/EnvParser.ts: choose a mode, list the candidate dot-env files, seed the
 * raw map with three reserved keys, copy in every `APP_` variable, and
 * JSON-encode every value for the define plugin. The two files differ only in
 * the name of the public-path key, which is a parameter here.
 */
module DotEnv {
  import opened Wrappers
  import Js
  import Json
  import Paths

  /** A process environment: variable name to value. */
  type Env = map<string, string>

  /**
   * Loading the dot-env files: given the environment and the candidate files,
   * the environment afterwards. It stands for the file-system probes and the
   * dot-env parser, which are not part of this model.
   */
  type Loader = (Env, seq<string>) -> Env

  function Lookup(env: Env, key: string): (r: Option<string>)
    ensures r.Some? <==> key in env
    ensures r.Some? ==> r.value == env[key]
  {
    if key in env then Some(env[key]) else None
  }

  /** `process.env.MODE || process.env.NODE_ENV`: MODE unless it is unset or empty. */
  function Mode(env: Env): (r: Option<string>)
    ensures "MODE" in env && env["MODE"] != "" ==> r == Some(env["MODE"])
    ensures !("MODE" in env && env["MODE"] != "") ==> r == Lookup(env, "NODE_ENV")
  {
    if "MODE" in env && env["MODE"] != "" then Some(env["MODE"]) else Lookup(env, "NODE_ENV")
  }

  /**
   * The dot-env files to load, highest precedence first: the mode's local
   * file, the mode's file, the local file, the shared file. An unset mode is
   * interpolated as "undefined".
   */
  function CandidateFiles(rootPath: string, mode: Option<string>): (r: seq<string>)
    ensures |r| == 4
    ensures r[3] == Paths.Resolve([rootPath, ".env"])
    ensures r[2] == r[3] + ".local"
    ensures r[1] == r[3] + "." + Js.Interpolate(mode)
    ensures r[0] == r[1] + ".local"
    ensures forall f :: f in r ==> Paths.StartsWith(f, r[3])
  {
    var dotEnvFile := Paths.Resolve([rootPath, ".env"]);
    var m := Js.Interpolate(mode);
    var r := [dotEnvFile + "." + m + ".local", dotEnvFile + "." + m, dotEnvFile + ".local", dotEnvFile];
    assert (dotEnvFile + "." + m) + ".local" == dotEnvFile + "." + m + ".local";
    assert forall f :: f in r ==> f[..|dotEnvFile|] == dotEnvFile;
    r
  }

  function AsciiUpper(c: char): char {
    if 'a' <= c <= 'z' then (c as int - 32) as char else c
  }

  /** `/^APP_/i.test(key)`: the key starts with "APP_", letters compared case-insensitively. */
  predicate IsAppKey(key: string) {
    |key| >= 4 && AsciiUpper(key[0]) == 'A' && AsciiUpper(key[1]) == 'P' && AsciiUpper(key[2]) == 'P' && key[3] == '_'
  }

  /** The pattern accepts exactly the keys whose first four characters spell "APP_" in some letter case. */
  lemma AppKeyCases(key: string)
    ensures IsAppKey(key) <==>
      |key| >= 4 && key[0] in "aA" && key[1] in "pP" && key[2] in "pP" && key[3] == '_'
  {
  }

  /** `publicPath.replace(/\/$/, "")`: at most one trailing "/" removed. */
  function StripTrailingSlash(p: string): (r: string)
    ensures Paths.EndsWith(p, "/") ==> r + "/" == p
    ensures !Paths.EndsWith(p, "/") ==> r == p
  {
    if Paths.EndsWith(p, "/") then p[..|p| - 1] else p
  }

  lemma StripTrailingSlashExamples()
    ensures StripTrailingSlash("/") == ""
    ensures StripTrailingSlash("/app/") == "/app"
    ensures StripTrailingSlash("/app") == "/app"
    ensures StripTrailingSlash("/app//") == "/app/"
  {
  }

  /** The three reserved entries every raw environment starts from. */
  function Seed(env: Env, publicPathKey: string, publicPath: string, buildTime: string): map<string, string> {
    map[
      "NODE_ENV" := Js.Or(Lookup(env, "NODE_ENV"), "production"),
      "BUILD_TIME" := buildTime,
      publicPathKey := StripTrailingSlash(publicPath)]
  }

  /** The `APP_` variables of the environment, with their values. */
  function AppEntries(env: Env): map<string, string> {
    map key | key in env && IsAppKey(key) :: env[key]
  }

  /** The raw environment: the seed, then every `APP_` variable copied in. */
  function RawEnv(env: Env, publicPathKey: string, publicPath: string, buildTime: string): map<string, string> {
    Seed(env, publicPathKey, publicPath, buildTime) + AppEntries(env)
  }

  /** Every value JSON-encoded, under the single key "process.env". */
  function Stringified(raw: map<string, string>): map<string, map<string, string>> {
    map["process.env" := map key | key in raw :: Json.Quote(raw[key])]
  }

  predicate IsReserved(key: string, publicPathKey: string) {
    key == "NODE_ENV" || key == "BUILD_TIME" || key == publicPathKey
  }

  /** The `APP_` variables among the given keys of the environment. */
  function AppEntriesAmong(env: Env, keys: set<string>): map<string, string>
    requires keys <= env.Keys
  {
    map key | key in keys && IsAppKey(key) :: env[key]
  }

  /** Taking one more key into account adds its entry exactly when it is an `APP_` key. */
  lemma AppEntriesAmongStep(env: Env, seed: map<string, string>, done: set<string>, key: string)
    requires done <= env.Keys && key in env && key !in done
    ensures seed + AppEntriesAmong(env, done + {key}) ==
      if IsAppKey(key) then (seed + AppEntriesAmong(env, done))[key := env[key]] else seed + AppEntriesAmong(env, done)
  {
    if IsAppKey(key) {
      assert AppEntriesAmong(env, done + {key}) == AppEntriesAmong(env, done)[key := env[key]];
    } else {
      assert AppEntriesAmong(env, done + {key}) == AppEntriesAmong(env, done);
    }
  }

  /**
   * The fold that copies the `APP_` variables into the seed, one key at a
   * time in whatever order the environment lists them.
   */
  method CollectRaw(env: Env, seed: map<string, string>) returns (raw: map<string, string>)
    ensures raw == seed + AppEntries(env)
  {
    raw := seed;
    var pending := env.Keys;
    assert AppEntriesAmong(env, env.Keys - pending) == map[];
    while pending != {}
      invariant pending <= env.Keys
      invariant raw == seed + AppEntriesAmong(env, env.Keys - pending)
      decreases pending
    {
      var key :| key in pending;
      AppEntriesAmongStep(env, seed, env.Keys - pending, key);
      assert (env.Keys - pending) + {key} == env.Keys - (pending - {key});
      if IsAppKey(key) {
        raw := raw[key := env[key]];
      }
      pending := pending - {key};
    }
    assert AppEntriesAmong(env, env.Keys) == AppEntries(env);
  }

  /** The fold that JSON-encodes every raw value into a fresh accumulator. */
  method StringifyValues(raw: map<string, string>) returns (encoded: map<string, string>)
    ensures encoded == map key | key in raw :: Json.Quote(raw[key])
  {
    encoded := map[];
    var pending := raw.Keys;
    while pending != {}
      invariant pending <= raw.Keys
      invariant encoded == map key | key in raw.Keys - pending :: Json.Quote(raw[key])
      decreases pending
    {
      var key :| key in pending;
      encoded := encoded[key := Json.Quote(raw[key])];
      pending := pending - {key};
    }
  }

  /** What a raw environment promises: the reserved keys and otherwise only `APP_` keys. */
  ghost predicate WellFormedRaw(raw: map<string, string>, publicPathKey: string) {
    && "NODE_ENV" in raw && raw["NODE_ENV"] != ""
    && "BUILD_TIME" in raw
    && publicPathKey in raw
    && forall key :: key in raw ==> IsReserved(key, publicPathKey) || IsAppKey(key)
  }

  /** No reserved name is an `APP_` key, so the copied variables never overwrite the seed. */
  lemma ReservedKeysAreNotAppKeys(publicPathKey: string)
    requires publicPathKey == "PUBLIC_URL" || publicPathKey == "PUBLIC_PATH"
    ensures !IsAppKey("NODE_ENV") && !IsAppKey("BUILD_TIME") && !IsAppKey(publicPathKey)
  {
  }

  /**
   * The raw environment holds the three reserved entries with their seeded
   * values, every `APP_` variable with its value, and nothing else.
   */
  lemma RawEnvShape(env: Env, publicPathKey: string, publicPath: string, buildTime: string)
    requires publicPathKey == "PUBLIC_URL" || publicPathKey == "PUBLIC_PATH"
    ensures var raw := RawEnv(env, publicPathKey, publicPath, buildTime);
      && WellFormedRaw(raw, publicPathKey)
      && raw["NODE_ENV"] == (if "NODE_ENV" in env && env["NODE_ENV"] != "" then env["NODE_ENV"] else "production")
      && raw["BUILD_TIME"] == buildTime
      && raw[publicPathKey] == StripTrailingSlash(publicPath)
      && (forall key :: key in env && IsAppKey(key) ==> key in raw && raw[key] == env[key])
      && (forall key :: key in raw && !IsReserved(key, publicPathKey) ==> key in env && raw[key] == env[key])
  {
    ReservedKeysAreNotAppKeys(publicPathKey);
  }

  /** The stringified form has the raw keys, each mapped to a literal that decodes back to the raw value. */
  lemma StringifiedDecodes(raw: map<string, string>)
    ensures Stringified(raw).Keys == {"process.env"}
    ensures Stringified(raw)["process.env"].Keys == raw.Keys
    ensures forall key :: key in raw ==> Json.Decode(Stringified(raw)["process.env"][key]) == Some(raw[key])
  {
    forall key | key in raw
      ensures Json.Decode(Stringified(raw)["process.env"][key]) == Some(raw[key])
    {
      Json.QuoteRoundTrip(raw[key]);
    }
  }
}
