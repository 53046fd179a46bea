/**
 * Application configuration: the environment-derived settings of the GLM
 * and Google Cloud Storage clients, the timer and health-check defaults
 * (all in seconds), and the two validation helpers that list the names of
 * required settings that are empty.
 */
module Config {
  import opened Text

  // Timer defaults, in seconds.
  const WorkDuration: int := 25 * 60
  const ShortBreakDuration: int := 5 * 60
  const LongBreakDuration: int := 15 * 60
  const SessionsUntilLongBreak: int := 4

  // Health reminder intervals, in seconds.
  const PostureReminderInterval: int := 10 * 60
  const HydrationReminderInterval: int := 30 * 60
  const StretchReminderInterval: int := 60 * 60

  // Vision-based posture check: seconds after the start of a work session.
  const PostureCheckInterval: int := 10 * 60
  const PostureCheckEnabled: bool := true

  const DefaultGlmBaseUrl: string := "https://api.z.ai/api/coding/paas/v4"
  const DefaultGcsPublicUrl: string := "https://storage.googleapis.com"

  /** The process environment the configuration reads; `None` when a variable is unset. */
  datatype Env = Env(
    glmApiKey: Option<string>,
    glmBaseUrl: Option<string>,
    gcsProjectId: Option<string>,
    gcsBucketName: Option<string>,
    gcsPublicUrl: Option<string>,
    gcsCredentials: Option<string>,
    debugKeepGcsFiles: Option<string>)

  datatype GlmConfig = GlmConfig(apiKey: string, baseUrl: string)

  datatype GcsConfig = GcsConfig(projectId: string, bucketName: string, publicUrl: string, credentials: string)

  datatype Configuration = Configuration(glm: GlmConfig, gcs: GcsConfig, debugKeepGcsFiles: bool)

  /** The result of a validation helper. */
  datatype Validation = Validation(valid: bool, missing: seq<string>)

  /** `value || fallback` for an environment variable: unset and empty both fall back. */
  function OrElse(value: Option<string>, fallback: string): (r: string)
    ensures value.Some? && value.value != "" ==> r == value.value
    ensures value.None? || value.value == "" ==> r == fallback
  {
    if value.Some? && value.value != "" then value.value else fallback
  }

  /** The `config` object built from the environment. */
  function Load(env: Env): (c: Configuration)
    ensures c.glm.baseUrl != "" && c.gcs.publicUrl != ""
    ensures c.glm.apiKey == "" <==> env.glmApiKey.None? || env.glmApiKey.value == ""
    ensures c.debugKeepGcsFiles <==> env.debugKeepGcsFiles == Some("true")
  {
    Configuration(
      GlmConfig(OrElse(env.glmApiKey, ""), OrElse(env.glmBaseUrl, DefaultGlmBaseUrl)),
      GcsConfig(OrElse(env.gcsProjectId, ""), OrElse(env.gcsBucketName, ""),
                OrElse(env.gcsPublicUrl, DefaultGcsPublicUrl), OrElse(env.gcsCredentials, "")),
      env.debugKeepGcsFiles == Some("true"))
  }

  /** The names, in order, of the `(name, value)` pairs whose value is empty. */
  function EmptyNames(fields: seq<(string, string)>): (names: seq<string>)
    ensures |names| <= |fields|
    ensures forall n :: n in names ==> exists k :: 0 <= k < |fields| && fields[k].0 == n && fields[k].1 == ""
    ensures forall k :: 0 <= k < |fields| && fields[k].1 == "" ==> fields[k].0 in names
  {
    if fields == [] then []
    else (if fields[0].1 == "" then [fields[0].0] else []) + EmptyNames(fields[1..])
  }

  /** The GLM settings `validateConfig` checks, in the order it checks them. */
  function GlmFields(glm: GlmConfig): seq<(string, string)>
  {
    [("GLM_API_KEY", glm.apiKey), ("GLM_BASE_URL", glm.baseUrl)]
  }

  /** The storage settings `validateGcsConfig` checks, in the order it checks them. */
  function GcsFields(gcs: GcsConfig): seq<(string, string)>
  {
    [("GCS_PROJECT_ID", gcs.projectId), ("GCS_BUCKET_NAME", gcs.bucketName), ("GCS_CREDENTIALS", gcs.credentials)]
  }

  /** `validateConfig`: pushes the name of each empty GLM setting. */
  method ValidateConfig(glm: GlmConfig) returns (v: Validation)
    ensures v.missing == EmptyNames(GlmFields(glm))
    ensures v.valid <==> v.missing == []
    ensures "GLM_API_KEY" in v.missing <==> glm.apiKey == ""
    ensures "GLM_BASE_URL" in v.missing <==> glm.baseUrl == ""
  {
    var missing: seq<string> := [];
    if glm.apiKey == "" { missing := missing + ["GLM_API_KEY"]; }
    if glm.baseUrl == "" { missing := missing + ["GLM_BASE_URL"]; }
    v := Validation(|missing| == 0, missing);
  }

  /** `validateGcsConfig`: pushes the name of each empty storage setting. */
  method ValidateGcsConfig(gcs: GcsConfig) returns (v: Validation)
    ensures v.missing == EmptyNames(GcsFields(gcs))
    ensures v.valid <==> v.missing == []
    ensures "GCS_PROJECT_ID" in v.missing <==> gcs.projectId == ""
    ensures "GCS_BUCKET_NAME" in v.missing <==> gcs.bucketName == ""
    ensures "GCS_CREDENTIALS" in v.missing <==> gcs.credentials == ""
  {
    var missing: seq<string> := [];
    if gcs.projectId == "" { missing := missing + ["GCS_PROJECT_ID"]; }
    if gcs.bucketName == "" { missing := missing + ["GCS_BUCKET_NAME"]; }
    if gcs.credentials == "" { missing := missing + ["GCS_CREDENTIALS"]; }
    v := Validation(|missing| == 0, missing);
    GcsEmptyNames(gcs);
    assert "GCS_PROJECT_ID"[4] == 'P' && "GCS_BUCKET_NAME"[4] == 'B' && "GCS_CREDENTIALS"[4] == 'C';
  }

  lemma GcsEmptyNames(gcs: GcsConfig)
    ensures EmptyNames(GcsFields(gcs)) ==
      (if gcs.projectId == "" then ["GCS_PROJECT_ID"] else [])
      + (if gcs.bucketName == "" then ["GCS_BUCKET_NAME"] else [])
      + (if gcs.credentials == "" then ["GCS_CREDENTIALS"] else [])
  {
    var fields := GcsFields(gcs);
    assert fields[1..] == [fields[1], fields[2]];
    assert fields[1..][1..] == [fields[2]];
    assert fields[1..][1..][1..] == [];
    assert EmptyNames(fields[1..][1..]) == if gcs.credentials == "" then ["GCS_CREDENTIALS"] else [];
    assert EmptyNames(fields[1..]) ==
      (if gcs.bucketName == "" then ["GCS_BUCKET_NAME"] else []) + EmptyNames(fields[1..][1..]);
  }

  /** Because the base URL falls back to a non-empty default, a loaded
      configuration is valid exactly when the API key is set. */
  lemma LoadedGlmMissesOnlyTheKey(env: Env)
    ensures EmptyNames(GlmFields(Load(env).glm)) ==
      if env.glmApiKey.None? || env.glmApiKey.value == "" then ["GLM_API_KEY"] else []
  {
    var c := Load(env);
    assert GlmFields(c.glm)[1..] == [("GLM_BASE_URL", c.glm.baseUrl)];
    assert GlmFields(c.glm)[1..][1..] == [];
  }

  /** The default durations, and the posture trigger point they imply: the
      check interval is shorter than a work session, so the check falls
      900 seconds before the end. */
  lemma DefaultDurations()
    ensures WorkDuration == 1500 && ShortBreakDuration == 300 && LongBreakDuration == 900
    ensures SessionsUntilLongBreak == 4
    ensures 0 < PostureCheckInterval < WorkDuration && WorkDuration - PostureCheckInterval == 900
  {
  }
}
