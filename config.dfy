/**
 * Application settings: apps/api/app/core/config.py.
 * The settings object is read from the environment; here the values it was
 * given arrive as a `RawSettings` record (absent = not set).
 */
module Config {
  import opened Wrappers
  import opened Text

  /** `cors_origins` arrives either as one comma-separated string or as a list. */
  datatype CorsSetting = CorsText(text: string) | CorsList(origins: seq<string>)

  datatype RawSettings = RawSettings(
    googleApiKey: Option<string>,
    googleCloudProject: Option<string>,
    storageBucket: Option<string>,
    env: Option<string>,
    appName: Option<string>,
    appVersion: Option<string>,
    corsOrigins: Option<CorsSetting>,
    host: Option<string>,
    port: Option<int>)

  datatype Settings = Settings(
    googleApiKey: string,
    googleCloudProject: string,
    storageBucket: string,
    env: string,
    appName: string,
    appVersion: string,
    corsOrigins: seq<string>,
    host: string,
    port: int)

  const DefaultEnv := "development"
  const DefaultCorsOrigins := ["http://localhost:3000"]

  /** The `parse_cors_origins` validator: split a string on ',' and strip each piece; a list passes. */
  function ParseCorsOrigins(v: CorsSetting): (r: seq<string>)
    ensures v.CorsList? ==> r == v.origins
    ensures v.CorsText? ==> |r| == CountOf(v.text, ',') + 1
    ensures v.CorsText? ==> |r| == |SplitOn(v.text, ",")| && forall k | 0 <= k < |r| :: r[k] == Strip(SplitOn(v.text, ",")[k])
    ensures v.CorsText? ==> forall k | 0 <= k < |r| ::
      ',' !in r[k] && (|r[k]| > 0 ==> !IsSpace(r[k][0]) && !IsSpace(r[k][|r[k]| - 1]))
  {
    match v
    case CorsList(origins) => origins
    case CorsText(text) =>
      var pieces := SplitOn(text, ",");
      SplitCount(text, ',');
      SplitPiecesFree(text, ",");
      forall k | 0 <= k < |pieces| ensures ',' !in Strip(pieces[k]) {
        OccursSingle(pieces[k], ',');
        StripSubset(pieces[k]);
      }
      seq(|pieces|, k requires 0 <= k < |pieces| => Strip(pieces[k]))
  }

  /** Origins written without commas or surrounding blanks survive a join and re-parse. */
  lemma CorsRoundTrip(origins: seq<string>)
    requires |origins| >= 1
    requires forall k | 0 <= k < |origins| ::
      ',' !in origins[k] && (|origins[k]| > 0 ==> !IsSpace(origins[k][0]) && !IsSpace(origins[k][|origins[k]| - 1]))
    ensures ParseCorsOrigins(CorsText(Join(origins, ","))) == origins
  {
    SplitJoin(origins, ',');
    forall k | 0 <= k < |origins| ensures Strip(origins[k]) == origins[k] {
      StripStripped(origins[k]);
    }
  }

  /** Fields without a default that were not provided, in declaration order. */
  function MissingRequired(raw: RawSettings): (missing: seq<string>)
    ensures |missing| == 0 <==> raw.googleApiKey.Some? && raw.googleCloudProject.Some? && raw.storageBucket.Some?
    ensures "google_api_key" in missing <==> raw.googleApiKey.None?
    ensures "google_cloud_project" in missing <==> raw.googleCloudProject.None?
    ensures "storage_bucket" in missing <==> raw.storageBucket.None?
  {
    (if raw.googleApiKey.None? then ["google_api_key"] else [])
    + (if raw.googleCloudProject.None? then ["google_cloud_project"] else [])
    + (if raw.storageBucket.None? then ["storage_bucket"] else [])
  }

  function GetOr<T>(o: Option<T>, default: T): T {
    match o
    case Some(v) => v
    case None => default
  }

  /** Building `Settings`: required fields must be present; the others fall back to their defaults. */
  function LoadSettings(raw: RawSettings): (r: Result<Settings, seq<string>>)
    ensures r.Ok? <==> raw.googleApiKey.Some? && raw.googleCloudProject.Some? && raw.storageBucket.Some?
    ensures r.Err? ==> |r.error| > 0
    ensures r.Ok? ==> r.value.googleApiKey == raw.googleApiKey.value && r.value.storageBucket == raw.storageBucket.value
    ensures r.Ok? ==> r.value.googleCloudProject == raw.googleCloudProject.value
    ensures r.Ok? && raw.env.Some? ==> r.value.env == raw.env.value
    ensures r.Ok? && raw.env.None? ==> r.value.env == "development"
    ensures r.Ok? && raw.appName.Some? ==> r.value.appName == raw.appName.value
    ensures r.Ok? && raw.appName.None? ==> r.value.appName == "Ejan API"
    ensures r.Ok? && raw.appVersion.Some? ==> r.value.appVersion == raw.appVersion.value
    ensures r.Ok? && raw.appVersion.None? ==> r.value.appVersion == "1.0.0"
    ensures r.Ok? && raw.host.Some? ==> r.value.host == raw.host.value
    ensures r.Ok? && raw.host.None? ==> r.value.host == "0.0.0.0"
    ensures r.Ok? && raw.port.Some? ==> r.value.port == raw.port.value
    ensures r.Ok? && raw.corsOrigins.None? ==> r.value.corsOrigins == ["http://localhost:3000"]
    ensures r.Ok? && raw.corsOrigins.Some? ==> r.value.corsOrigins == ParseCorsOrigins(raw.corsOrigins.value)
    ensures r.Ok? && raw.port.None? ==> r.value.port == 8000
  {
    var missing := MissingRequired(raw);
    if |missing| > 0 then Err(missing)
    else
      Ok(Settings(
        raw.googleApiKey.value,
        raw.googleCloudProject.value,
        raw.storageBucket.value,
        GetOr(raw.env, DefaultEnv),
        GetOr(raw.appName, "Ejan API"),
        GetOr(raw.appVersion, "1.0.0"),
        match raw.corsOrigins case Some(c) => ParseCorsOrigins(c) case None => DefaultCorsOrigins,
        GetOr(raw.host, "0.0.0.0"),
        GetOr(raw.port, 8000)))
  }

  /** The `is_development` property. */
  function IsDevelopment(s: Settings): (r: bool)
    ensures r <==> s.env == "development"
    ensures r ==> !IsProduction(s)
  {
    s.env == DefaultEnv
  }

  /** The `is_production` property. */
  function IsProduction(s: Settings): (r: bool)
    ensures r <==> s.env == "production"
  {
    s.env == "production"
  }

  /** A deployment that sets `env` to "production" runs as production and not as development. */
  lemma ProductionDeployment(raw: RawSettings)
    requires raw.env == Some("production") && LoadSettings(raw).Ok?
    ensures IsProduction(LoadSettings(raw).value) && !IsDevelopment(LoadSettings(raw).value)
  {
  }

  /** A deployment that does not set `env` runs as development. */
  lemma DefaultIsDevelopment(raw: RawSettings)
    requires raw.env.None? && LoadSettings(raw).Ok?
    ensures IsDevelopment(LoadSettings(raw).value) && !IsProduction(LoadSettings(raw).value)
  {
  }
}
