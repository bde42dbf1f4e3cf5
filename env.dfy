/** The environment schema of config/env.js: the `clean` normaliser, the
    string constraints of each variable, and the socket-origins default.
    Lengths are counted in code points. */
module Env {
  import opened Common
  import opened JsStrings

  /** `clean(v)` on a string: the part before the first '#' with only its
      edge whitespace removed, so it holds no '#' and no edge whitespace. */
  function CleanText(s: string): (c: string)
    ensures IsTrimOf(c, BeforeFirst(s, '#'))
    ensures '#' !in c && NoEdgeWhitespace(c)
    ensures |c| <= |s|
  {
    var before := BeforeFirst(s, '#');
    var c := Trim(before);
    assert '#' !in c by {
      if '#' in c {
        TrimCharsFrom(before, '#');
      }
    }
    c
  }

  /** `clean(v)`: a missing value stays missing. */
  function Clean(v: Option<string>): (r: Option<string>)
    ensures r.None? <==> v.None?
    ensures r.Some? ==> r.value == CleanText(v.value)
  {
    match v
    case None => None
    case Some(s) => Some(CleanText(s))
  }

  /** Cleaning twice is cleaning once. */
  lemma CleanIdempotent(v: Option<string>)
    ensures Clean(Clean(v)) == Clean(v)
  {
    if v.Some? {
      var c := CleanText(v.value);
      BeforeFirstNoSeparator(c, '#');
      TrimNoEdgeWhitespace(c);
    }
  }

  /** "value # comment" cleans to "value". */
  lemma CleanExample()
    ensures CleanText("value # comment") == "value"
  {
    CommentCut();
    TrailingSpaceTrimmed();
  }

  lemma CommentCut()
    ensures BeforeFirst("value # comment", '#') == "value "
  {
    var head := "value ";
    assert forall k :: 0 <= k < |head| ==> head[k] != '#';
    assert "value # comment" == head + ['#'] + " comment";
    BeforeFirstOfJoin(head, '#', " comment");
  }

  lemma TrailingSpaceTrimmed()
    ensures Trim("value ") == "value"
  {
    var head := "value ";
    assert TrimStart(head) == head by {
      assert !IsWhitespace(head[0]);
      TrimStartIdentity(head);
    }
    assert TrimEnd(head) == "value" by {
      assert IsWhitespace(head[|head| - 1]);
      assert head[..|head| - 1] == "value";
      assert !IsWhitespace("value"[4]);
      TrimEndIdentity("value");
    }
  }

  /** `cleanedString()`: present, non-empty before and after cleaning. */
  function CleanedString(v: Option<string>): (r: Option<string>)
    ensures r.Some? <==> v.Some? && |v.value| >= 1 && |CleanText(v.value)| >= 1
    ensures r.Some? ==> r.value == CleanText(v.value) && r.value != ""
  {
    if v.None? || |v.value| < 1 || |CleanText(v.value)| < 1 then None else Some(CleanText(v.value))
  }

  /** A JWT secret: at least 32 characters both before and after cleaning. */
  function Secret(v: Option<string>): (r: Option<string>)
    ensures r.Some? <==> v.Some? && |v.value| >= 32 && |CleanText(v.value)| >= 32
    ensures r.Some? ==> r.value == CleanText(v.value)
  {
    if v.None? || |v.value| < 32 || |CleanText(v.value)| < 32 then None else Some(CleanText(v.value))
  }

  /** A long raw value can still fail once its comment is cut off. */
  lemma CommentCanShortenSecret()
    ensures Secret(Some("short # " + seq(30, _ => 'x'))) == None
  {
    var tail := seq(30, _ => 'x');
    var s := "short # " + tail;
    assert s == "short " + ['#'] + (" " + tail);
    BeforeFirstOfJoin("short ", '#', " " + tail);
  }

  const NodeEnvs: seq<string> := ["development", "test", "production"]

  /** `NODE_ENV`: default "development", cleaned, then one of the three. */
  function NodeEnv(v: Option<string>): (r: Option<string>)
    ensures r.Some? <==> CleanText(v.GetOr("development")) in NodeEnvs
    ensures r.Some? ==> r.value == CleanText(v.GetOr("development")) && r.value in NodeEnvs
  {
    var c := CleanText(v.GetOr("development"));
    if c in NodeEnvs then Some(c) else None
  }

  /** A value with no comment and no edge whitespace is already clean. */
  lemma CleanTextOfClean(s: string)
    requires '#' !in s && NoEdgeWhitespace(s)
    ensures CleanText(s) == s
  {
    BeforeFirstNoSeparator(s, '#');
    TrimNoEdgeWhitespace(s);
  }

  /** An unset `NODE_ENV` is "development". */
  lemma NodeEnvDefault()
    ensures NodeEnv(None) == Some("development")
  {
    var d := "development";
    assert d[0] == 'd' && d[|d| - 1] == 't';
    assert forall k :: 0 <= k < |d| ==> d[k] != '#';
    CleanTextOfClean(d);
    assert d == NodeEnvs[0];
  }

  /** A string with a default (`.default(d).transform(clean)`). */
  function Defaulted(v: Option<string>, d: string): (r: string)
    ensures r == CleanText(if v.Some? then v.value else d)
  {
    CleanText(v.GetOr(d))
  }

  /** The parsed environment (the numeric variables are not modelled). */
  datatype Config = Config(
    nodeEnv: string, mongoDbUrl: string, redisUrl: string, jwtAccessSecret: string, jwtRefreshSecret: string,
    jwtAccessExpiresIn: string, jwtRefreshExpiresIn: string, googleMapsApiKey: Option<string>,
    cloudinaryCloudName: string, cloudinaryApiKey: string, cloudinaryApiSecret: string,
    clientUrl: Option<string>, socketAllowedOrigins: Option<string>,
    smsWebhookUrl: Option<string>, smsWebhookToken: Option<string>)

  /** The raw `process.env` values of the same variables. */
  datatype RawEnv = RawEnv(
    nodeEnv: Option<string>, mongoDbUrl: Option<string>, redisUrl: Option<string>,
    jwtAccessSecret: Option<string>, jwtRefreshSecret: Option<string>,
    jwtAccessExpiresIn: Option<string>, jwtRefreshExpiresIn: Option<string>, googleMapsApiKey: Option<string>,
    cloudinaryCloudName: Option<string>, cloudinaryApiKey: Option<string>, cloudinaryApiSecret: Option<string>,
    clientUrl: Option<string>, socketAllowedOrigins: Option<string>,
    smsWebhookUrl: Option<string>, smsWebhookToken: Option<string>)

  /** The names of the variables that fail their constraint, in schema order. */
  function InvalidFields(raw: RawEnv): seq<string> {
    (if NodeEnv(raw.nodeEnv).None? then ["NODE_ENV"] else []) +
    (if CleanedString(raw.mongoDbUrl).None? then ["MONGO_DB_URL"] else []) +
    (if CleanedString(raw.redisUrl).None? then ["REDIS_URL"] else []) +
    (if Secret(raw.jwtAccessSecret).None? then ["JWT_ACCESS_SECRET"] else []) +
    (if Secret(raw.jwtRefreshSecret).None? then ["JWT_REFRESH_SECRET"] else []) +
    (if CleanedString(raw.cloudinaryCloudName).None? then ["CLOUDINARY_CLOUD_NAME"] else []) +
    (if CleanedString(raw.cloudinaryApiKey).None? then ["CLOUDINARY_API_KEY"] else []) +
    (if CleanedString(raw.cloudinaryApiSecret).None? then ["CLOUDINARY_API_SECRET"] else [])
  }

  /** `envSchema.safeParse(process.env)`: the parsed values, or the failing
      variables. */
  function ParseEnv(raw: RawEnv): (r: Result<Config>)
    ensures r.Ok? <==> InvalidFields(raw) == []
    ensures r.Ok? ==>
      r.value.nodeEnv in NodeEnvs && r.value.mongoDbUrl != "" && r.value.redisUrl != "" &&
      |r.value.jwtAccessSecret| >= 32 && |r.value.jwtRefreshSecret| >= 32 &&
      r.value.cloudinaryCloudName != "" && r.value.cloudinaryApiKey != "" && r.value.cloudinaryApiSecret != ""
    ensures r.Ok? ==>
      raw.mongoDbUrl.Some? && raw.redisUrl.Some? && raw.jwtAccessSecret.Some? && raw.jwtRefreshSecret.Some? &&
      raw.cloudinaryCloudName.Some? && raw.cloudinaryApiKey.Some? && raw.cloudinaryApiSecret.Some? &&
      r.value.nodeEnv == CleanText(raw.nodeEnv.GetOr("development")) &&
      r.value.mongoDbUrl == CleanText(raw.mongoDbUrl.value) && r.value.redisUrl == CleanText(raw.redisUrl.value) &&
      r.value.jwtAccessSecret == CleanText(raw.jwtAccessSecret.value) &&
      r.value.jwtRefreshSecret == CleanText(raw.jwtRefreshSecret.value) &&
      r.value.cloudinaryCloudName == CleanText(raw.cloudinaryCloudName.value) &&
      r.value.cloudinaryApiKey == CleanText(raw.cloudinaryApiKey.value) &&
      r.value.cloudinaryApiSecret == CleanText(raw.cloudinaryApiSecret.value)
    ensures r.Ok? ==>
      r.value.jwtAccessExpiresIn == Defaulted(raw.jwtAccessExpiresIn, "15m") &&
      r.value.jwtRefreshExpiresIn == Defaulted(raw.jwtRefreshExpiresIn, "7d") &&
      r.value.googleMapsApiKey == Clean(raw.googleMapsApiKey) && r.value.clientUrl == Clean(raw.clientUrl) &&
      r.value.socketAllowedOrigins == Clean(raw.socketAllowedOrigins) &&
      r.value.smsWebhookUrl == Clean(raw.smsWebhookUrl) && r.value.smsWebhookToken == Clean(raw.smsWebhookToken)
    ensures r.Err? ==> r.error == AppError(INTERNAL_SERVER_ERROR, "Invalid environment variables")
  {
    if InvalidFields(raw) != [] then Err(AppError(INTERNAL_SERVER_ERROR, "Invalid environment variables"))
    else
      Ok(Config(NodeEnv(raw.nodeEnv).value, CleanedString(raw.mongoDbUrl).value, CleanedString(raw.redisUrl).value,
                Secret(raw.jwtAccessSecret).value, Secret(raw.jwtRefreshSecret).value,
                Defaulted(raw.jwtAccessExpiresIn, "15m"), Defaulted(raw.jwtRefreshExpiresIn, "7d"),
                Clean(raw.googleMapsApiKey),
                CleanedString(raw.cloudinaryCloudName).value, CleanedString(raw.cloudinaryApiKey).value,
                CleanedString(raw.cloudinaryApiSecret).value,
                Clean(raw.clientUrl), Clean(raw.socketAllowedOrigins),
                Clean(raw.smsWebhookUrl), Clean(raw.smsWebhookToken)))
  }

  /** The exported `env` object, whose socket origins are defaulted in place. */
  class Environment {
    var config: Config

    constructor(parsed: Config)
      ensures config == parsed
    {
      config := parsed;
    }

    /** `if (!env.SOCKET_ALLOWED_ORIGINS && env.CLIENT_URL) env.SOCKET_ALLOWED_ORIGINS = env.CLIENT_URL`. */
    method DefaultSocketOrigins()
      modifies this
      ensures !Truthy(old(config.socketAllowedOrigins)) && Truthy(old(config.clientUrl)) ==>
        config == old(config).(socketAllowedOrigins := old(config.clientUrl))
      ensures !(!Truthy(old(config.socketAllowedOrigins)) && Truthy(old(config.clientUrl))) ==>
        config == old(config)
    {
      if !Truthy(config.socketAllowedOrigins) && Truthy(config.clientUrl) {
        config := config.(socketAllowedOrigins := config.clientUrl);
      }
    }
  }

  /** After the default, the origins are truthy iff either variable was,
      and a set origins value is never replaced. */
  lemma SocketDefaultEffect(e: Config)
    ensures var d := if !Truthy(e.socketAllowedOrigins) && Truthy(e.clientUrl)
                     then e.(socketAllowedOrigins := e.clientUrl) else e;
      (Truthy(d.socketAllowedOrigins) <==> Truthy(e.socketAllowedOrigins) || Truthy(e.clientUrl)) &&
      (Truthy(e.socketAllowedOrigins) ==> d == e)
  {
  }
}
