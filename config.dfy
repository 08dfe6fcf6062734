/** The back end's settings (backend/app/core/config.py). */
module Config {
  import opened Text

  datatype Settings = Settings(
    host: string,
    port: int,
    debug: bool,
    corsOrigins: string,
    aliyunAccessKeyId: string,
    aliyunAccessKeySecret: string,
    aliyunAppKey: string,
    llmProvider: string,
    dashscopeApiKey: string,
    deepseekApiKey: string,
    deepseekBaseUrl: string,
    useMock: bool)

  /** The values the settings take when the environment sets nothing. */
  const DefaultSettings := Settings(
    "0.0.0.0", 3001, true,
    "http://localhost:3000",
    "", "", "",
    "dashscope", "", "", "https://api.deepseek.com/v1",
    true)

  /** `cors_origins_list`: the comma-separated segments, each stripped, in order. */
  function CorsOriginsList(corsOrigins: string): (origins: seq<string>)
    ensures |origins| == multiset(corsOrigins)[','] + 1
    ensures forall i :: 0 <= i < |origins| ==> IsStripOf(Split(corsOrigins, ',')[i], origins[i])
  {
    var segments := Split(corsOrigins, ',');
    seq(|segments|, i requires 0 <= i < |segments| => Strip(segments[i]))
  }

  /** A string without whitespace at either end strips to itself. */
  lemma StripUnchanged(s: string)
    requires s == [] || (!IsSpace(s[0]) && !IsSpace(s[|s| - 1]))
    ensures Strip(s) == s
  {
    assert LeadingSpaces(s) == 0;
    assert s[0..] == s;
    assert TrailingSpaces(s) == 0;
  }

  /** Joining origins that carry no comma and no surrounding whitespace with commas (and
      any whitespace around the commas) gives them back, in order. */
  lemma {:induction false} CorsOriginsRoundTrip(origins: seq<string>)
    requires |origins| >= 1
    requires forall i :: 0 <= i < |origins| ==> ',' !in origins[i]
    requires forall i :: 0 <= i < |origins| ==>
      origins[i] == [] || (!IsSpace(origins[i][0]) && !IsSpace(origins[i][|origins[i]| - 1]))
    ensures CorsOriginsList(Join(origins, ',')) == origins
  {
    SplitJoin(origins, ',');
    forall i | 0 <= i < |origins| ensures Strip(origins[i]) == origins[i] {
      StripUnchanged(origins[i]);
    }
  }

  /** The default allows exactly the development front end. */
  lemma DefaultCorsOrigins()
    ensures CorsOriginsList(DefaultSettings.corsOrigins) == ["http://localhost:3000"]
  {
    var o := "http://localhost:3000";
    assert ',' !in o;
    CorsOriginsRoundTrip([o]);
  }
}
