/**
 * The configuration service: reads the process environment, stops at the
 * first missing required variable (TOKEN, then GUILD_ID, then
 * DATABASE_URL), and derives the log level and the developer id list.
 * The environment is a map from names to values; a fatal exit is a
 * `Failure` naming the missing variable.
 */
module Configuration {
  import opened Common
  import opened Strings

  datatype ConfigError = MissingToken | MissingGuildId | MissingDatabaseUrl

  datatype LogLevelSetting = DebugLevel | InfoLevel

  datatype Config = Config(
    token: string,
    guildId: string,
    databaseUrl: string,
    logLevel: LogLevelSetting,
    devOnlyIds: seq<string>)

  /** `process.env[name]`: `None` when the variable is not set. */
  function Lookup(env: map<string, string>, name: string): (r: Option<string>)
    ensures r.Some? <==> name in env
    ensures r.Some? ==> r.value == env[name]
  {
    if name in env then Some(env[name]) else None
  }

  /** The variable is set to a non-empty value: JavaScript truthiness of `string | undefined`. */
  predicate Present(env: map<string, string>, name: string) {
    name in env && env[name] != ""
  }

  /** `s.split(",").map(id => id.trim())`. */
  function TrimmedIds(s: string): (ids: seq<string>)
    ensures |ids| == Count(s, ',') + 1
    ensures forall i :: 0 <= i < |ids| ==> ids[i] == Trim(Split(s, ',')[i])
  {
    var parts := Split(s, ',');
    seq(|parts|, i requires 0 <= i < |parts| => Trim(parts[i]))
  }

  /** `DEV_ONLY_IDS?.split(",").map(trim) ?? []`. */
  function DevOnlyIds(env: map<string, string>): seq<string> {
    match Lookup(env, "DEV_ONLY_IDS")
    case None => []
    case Some(v) => TrimmedIds(v)
  }

  /**
   * Without the variable the list is empty; with it, there is one id per
   * comma plus one, so an empty value gives one empty id; every id has its
   * surrounding whitespace removed and contains no comma.
   */
  lemma {:induction false} DevOnlyIdsShape(env: map<string, string>)
    ensures "DEV_ONLY_IDS" !in env ==> DevOnlyIds(env) == []
    ensures "DEV_ONLY_IDS" in env ==> |DevOnlyIds(env)| == Count(env["DEV_ONLY_IDS"], ',') + 1
    ensures "DEV_ONLY_IDS" in env && env["DEV_ONLY_IDS"] == "" ==> DevOnlyIds(env) == [""]
    ensures forall i :: 0 <= i < |DevOnlyIds(env)| ==>
      var id := DevOnlyIds(env)[i];
      ',' !in id && (id == [] || (!IsWhitespace(id[0]) && !IsWhitespace(id[|id| - 1])))
  {
    if "DEV_ONLY_IDS" in env {
      var v := env["DEV_ONLY_IDS"];
      assert DevOnlyIds(env) == TrimmedIds(v);
      TrimmedIdsClean(v);
      if v == "" {
        EmptyIds();
      }
    } else {
      assert Lookup(env, "DEV_ONLY_IDS") == None;
    }
  }

  /** An empty value is one empty id. */
  lemma {:induction false} EmptyIds()
    ensures TrimmedIds("") == [""]
  {
    assert Split("", ',') == [""];
    assert TrimStart("") == "" && TrimEnd("") == "";
    assert TrimmedIds("")[0] == Trim("");
  }

  /** Every id of a parsed list is comma-free and has no whitespace at either end. */
  lemma {:induction false} TrimmedIdsClean(v: string)
    ensures forall i :: 0 <= i < |TrimmedIds(v)| ==>
      var id := TrimmedIds(v)[i];
      ',' !in id && (id == [] || (!IsWhitespace(id[0]) && !IsWhitespace(id[|id| - 1])))
  {
    var ids := TrimmedIds(v);
    var parts := Split(v, ',');
    forall i | 0 <= i < |ids|
      ensures ',' !in ids[i]
      ensures ids[i] == [] || (!IsWhitespace(ids[i][0]) && !IsWhitespace(ids[i][|ids[i]| - 1]))
    {
      assert ids[i] == Trim(parts[i]);
      TrimmedPart(parts[i]);
    }
  }

  /** Trimming a comma-free part keeps it comma-free and leaves no whitespace at either end. */
  lemma {:induction false} TrimmedPart(part: string)
    requires ',' !in part
    ensures ',' !in Trim(part)
    ensures Trim(part) == [] || (!IsWhitespace(Trim(part)[0]) && !IsWhitespace(Trim(part)[|Trim(part)| - 1]))
  {
    TrimIsMiddle(part);
    var a, b :| 0 <= a <= b <= |part| && Trim(part) == part[a..b] && AllWhitespace(part[..a]) && AllWhitespace(part[b..]);
    assert forall c :: c in part[a..b] ==> c in part;
  }

  /**
   * A list written with single commas and no whitespace reads back as
   * itself: joining the parsed ids with commas gives the variable's value.
   */
  lemma {:induction false} DevOnlyIdsRoundTrip(env: map<string, string>)
    requires "DEV_ONLY_IDS" in env
    requires forall i :: 0 <= i < |env["DEV_ONLY_IDS"]| ==> !IsWhitespace(env["DEV_ONLY_IDS"][i])
    ensures DevOnlyIds(env) == Split(env["DEV_ONLY_IDS"], ',')
    ensures Join(DevOnlyIds(env), ',') == env["DEV_ONLY_IDS"]
  {
    var v := env["DEV_ONLY_IDS"];
    assert DevOnlyIds(env) == TrimmedIds(v);
    TrimmedIdsUntrimmed(v);
    JoinSplit(v, ',');
  }

  /** A value without whitespace parses to exactly its comma-separated parts. */
  lemma {:induction false} TrimmedIdsUntrimmed(v: string)
    requires forall i :: 0 <= i < |v| ==> !IsWhitespace(v[i])
    ensures TrimmedIds(v) == Split(v, ',')
  {
    var parts := Split(v, ',');
    var ids := TrimmedIds(v);
    forall i | 0 <= i < |parts|
      ensures ids[i] == parts[i]
    {
      UntrimmedPart(v, i);
    }
  }

  /** A part of a split of a whitespace-free value is unchanged by trimming. */
  lemma {:induction false} UntrimmedPart(v: string, i: nat)
    requires forall k :: 0 <= k < |v| ==> !IsWhitespace(v[k])
    requires i < |Split(v, ',')|
    ensures Trim(Split(v, ',')[i]) == Split(v, ',')[i]
  {
    var p := Split(v, ',')[i];
    SplitPartsOf(v, ',', i);
    if p != [] {
      assert p[0] in p && p[|p| - 1] in p;
      assert p[0] in v && p[|p| - 1] in v;
      var a :| 0 <= a < |v| && v[a] == p[0];
      var b :| 0 <= b < |v| && v[b] == p[|p| - 1];
    }
    TrimKeeps(p);
  }

  /** Every part of a split is made of characters of the string split. */
  lemma {:induction false} SplitPartsOf(s: string, sep: char, i: nat)
    requires i < |Split(s, sep)|
    ensures forall c :: c in Split(s, sep)[i] ==> c in s
  {
    if |s| > 0 {
      var rest := Split(s[1..], sep);
      if s[0] == sep {
        if i > 0 {
          SplitPartsOf(s[1..], sep, i - 1);
        }
      } else if i == 0 {
        SplitPartsOf(s[1..], sep, 0);
      } else {
        SplitPartsOf(s[1..], sep, i);
      }
    }
  }

  /**
   * The constructor's validation: TOKEN, GUILD_ID and DATABASE_URL are read
   * in that order and the first that is missing or empty is fatal; then the
   * log level and the developer ids are derived.
   */
  method LoadConfig(env: map<string, string>) returns (r: Result<Config, ConfigError>)
    ensures r == Failure(MissingToken) <==> !Present(env, "TOKEN")
    ensures r == Failure(MissingGuildId) <==> Present(env, "TOKEN") && !Present(env, "GUILD_ID")
    ensures r == Failure(MissingDatabaseUrl)
      <==> Present(env, "TOKEN") && Present(env, "GUILD_ID") && !Present(env, "DATABASE_URL")
    ensures r.Success? <==> Present(env, "TOKEN") && Present(env, "GUILD_ID") && Present(env, "DATABASE_URL")
    ensures r.Success? ==>
      r.value.token == env["TOKEN"] && r.value.guildId == env["GUILD_ID"] && r.value.databaseUrl == env["DATABASE_URL"]
    ensures r.Success? ==> (r.value.logLevel == DebugLevel <==> "LOG_LEVEL" in env && env["LOG_LEVEL"] == "debug")
    ensures r.Success? ==> r.value.devOnlyIds == DevOnlyIds(env)
  {
    var token := Lookup(env, "TOKEN");
    if token.None? || token.value == "" {
      return Failure(MissingToken);
    }
    var guildId := Lookup(env, "GUILD_ID");
    if guildId.None? || guildId.value == "" {
      return Failure(MissingGuildId);
    }
    var databaseUrl := Lookup(env, "DATABASE_URL");
    if databaseUrl.None? || databaseUrl.value == "" {
      return Failure(MissingDatabaseUrl);
    }
    var logLevel := if Lookup(env, "LOG_LEVEL") == Some("debug") then DebugLevel else InfoLevel;
    var devOnlyIds := match Lookup(env, "DEV_ONLY_IDS")
      case None => []
      case Some(v) => TrimmedIds(v);
    r := Success(Config(token.value, guildId.value, databaseUrl.value, logLevel, devOnlyIds));
  }
}
