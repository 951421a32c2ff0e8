/** The two derived settings of `Settings`: the list of allowed CORS origins and the
    database URL. The environment and `.env` reading that fills the fields is not modelled:
    a `Settings` value is the already-loaded configuration. */
module Config {
  import opened Common
  import opened Text

  /** The fields the derived settings read. */
  datatype Settings = Settings(
    databaseUrl: Option<string>,
    postgresDb: string,
    postgresUser: string,
    postgresPassword: string,
    postgresHost: string,
    postgresPort: int,
    apiCorsOrigins: string)

  /** The field defaults. */
  const Defaults: Settings := Settings(
    None, "locksum", "locksum", "locksum_dev_password", "db", 5432,
    "http://localhost:5173,http://localhost")

  /** `[o.strip() for o in pieces if o.strip()]`. */
  function CleanOrigins(pieces: seq<string>): (r: seq<string>)
    ensures |r| <= |pieces|
    ensures forall i :: 0 <= i < |r| ==> r[i] != "" && IsTrimmed(r[i])
    ensures forall i, c :: 0 <= i < |r| && c in r[i] ==> exists k :: 0 <= k < |pieces| && c in pieces[k]
  {
    if pieces == [] then []
    else
      var o := Strip(pieces[0]);
      (if o != "" then [o] else []) + CleanOrigins(pieces[1..])
  }

  /** `CORS_ORIGINS`: the comma-separated pieces of API_CORS_ORIGINS, stripped, blanks dropped. */
  function CorsOrigins(s: Settings): (r: seq<string>)
    ensures forall i :: 0 <= i < |r| ==> r[i] != "" && IsTrimmed(r[i]) && ',' !in r[i]
  {
    CleanOrigins(Split(s.apiCorsOrigins, ','))
  }

  /** Cleaning works piece by piece, so the origins keep the order of their pieces. */
  lemma {:induction false} CleanOriginsAppend(a: seq<string>, b: seq<string>)
    ensures CleanOrigins(a + b) == CleanOrigins(a) + CleanOrigins(b)
  {
    if a != [] {
      assert (a + b)[0] == a[0] && (a + b)[1..] == a[1..] + b;
      CleanOriginsAppend(a[1..], b);
      var o := Strip(a[0]);
      var head: seq<string> := if o != "" then [o] else [];
      assert CleanOrigins(a + b) == head + (CleanOrigins(a[1..]) + CleanOrigins(b));
      assert CleanOrigins(a) == head + CleanOrigins(a[1..]);
    } else {
      assert a + b == b;
    }
  }

  /** Pieces that are already clean pass through unchanged. */
  lemma {:induction false} CleanOriginsClean(pieces: seq<string>)
    requires forall i :: 0 <= i < |pieces| ==> pieces[i] != "" && IsTrimmed(pieces[i])
    ensures CleanOrigins(pieces) == pieces
  {
    if pieces != [] {
      StripTrimmed(pieces[0]);
      CleanOriginsClean(pieces[1..]);
    }
  }

  /** Blank pieces contribute nothing. */
  lemma {:induction false} CleanOriginsBlank(pieces: seq<string>)
    requires forall i :: 0 <= i < |pieces| ==> AllSpace(pieces[i])
    ensures CleanOrigins(pieces) == []
  {
    if pieces != [] {
      CleanOriginsBlank(pieces[1..]);
    }
  }

  /** Writing clean, comma-free origins as a comma list reads them back. */
  lemma CorsRoundTrip(s: Settings, origins: seq<string>)
    requires forall i :: 0 <= i < |origins| ==> origins[i] != "" && IsTrimmed(origins[i]) && ',' !in origins[i]
    ensures CorsOrigins(s.(apiCorsOrigins := Join(origins, ','))) == origins
  {
    if origins == [] {
      assert Split("", ',') == [""];
      CleanOriginsBlank([""]);
    } else {
      SplitJoin(origins, ',');
      CleanOriginsClean(origins);
    }
  }

  /** A piece with whitespace around an origin gives that origin, without the whitespace. */
  lemma CleanOriginsPadded(pre: string, core: string, post: string)
    requires AllSpace(pre) && AllSpace(post) && IsTrimmed(core) && core != ""
    ensures CleanOrigins([pre + core + post]) == [core]
  {
    StripPadded(pre, core, post);
    assert [pre + core + post][1..] == [];
  }

  /** Pieces that strip to the given origins give exactly those origins, in order. */
  lemma {:induction false} CleanOriginsStripped(pieces: seq<string>, origins: seq<string>)
    requires |pieces| == |origins|
    requires forall i :: 0 <= i < |pieces| ==> origins[i] != "" && Strip(pieces[i]) == origins[i]
    ensures CleanOrigins(pieces) == origins
  {
    if pieces != [] {
      CleanOriginsStripped(pieces[1..], origins[1..]);
      assert origins == [origins[0]] + origins[1..];
    }
  }

  /** `pre[i] + origins[i] + post[i]` for every i. */
  function Padded(pre: seq<string>, origins: seq<string>, post: seq<string>): (r: seq<string>)
    requires |pre| == |origins| == |post|
    ensures |r| == |origins|
    ensures forall i :: 0 <= i < |r| ==> r[i] == pre[i] + origins[i] + post[i]
  {
    if origins == [] then []
    else [pre[0] + origins[0] + post[0]] + Padded(pre[1..], origins[1..], post[1..])
  }

  /** A comma list whose origins carry whitespace around them reads back as the bare origins,
      as in "http://a, http://b". */
  lemma CorsPaddedRoundTrip(s: Settings, pre: seq<string>, origins: seq<string>, post: seq<string>)
    requires |pre| == |origins| == |post|
    requires forall i :: 0 <= i < |origins| ==>
      && AllSpace(pre[i]) && AllSpace(post[i])
      && origins[i] != "" && IsTrimmed(origins[i]) && ',' !in origins[i]
    ensures CorsOrigins(s.(apiCorsOrigins := Join(Padded(pre, origins, post), ','))) == origins
  {
    var pieces := Padded(pre, origins, post);
    if origins == [] {
      assert Split("", ',') == [""];
      CleanOriginsBlank([""]);
    } else {
      forall i | 0 <= i < |pieces|
        ensures ',' !in pieces[i] && Strip(pieces[i]) == origins[i]
      {
        assert ',' !in pre[i] && ',' !in post[i] by {
          assert !IsSpace(',');
        }
        StripPadded(pre[i], origins[i], post[i]);
      }
      SplitJoin(pieces, ',');
      CleanOriginsStripped(pieces, origins);
    }
  }

  /** The default setting allows the two local front-end origins. */
  lemma DefaultCorsOrigins()
    ensures CorsOrigins(Defaults) == ["http://localhost:5173", "http://localhost"]
  {
    var origins := ["http://localhost:5173", "http://localhost"];
    assert Join(origins, ',') == Defaults.apiCorsOrigins;
    assert IsTrimmed(origins[0]) && IsTrimmed(origins[1]);
    CorsRoundTrip(Defaults, origins);
  }

  /** `DATABASE_URL and DATABASE_URL.strip()`: an override that is not blank. */
  predicate HasOverride(s: Settings) {
    s.databaseUrl.Some? && s.databaseUrl.value != "" && Strip(s.databaseUrl.value) != ""
  }

  /** The `postgresql+psycopg://user:pw@host:port/db` URL built from the POSTGRES_* fields. */
  function ComposedUrl(s: Settings): string {
    "postgresql+psycopg://" + s.postgresUser + ":" + s.postgresPassword
      + "@" + s.postgresHost + ":" + IntToString(s.postgresPort) + "/" + s.postgresDb
  }

  /** `database_url`: a non-blank DATABASE_URL stripped, otherwise the composed URL. */
  function DatabaseUrl(s: Settings): (r: string)
    ensures r != ""
    ensures HasOverride(s) ==> IsTrimmed(r)
  {
    if HasOverride(s) then Strip(s.databaseUrl.value) else ComposedUrl(s)
  }

  /** A DATABASE_URL with whitespace around it wins, without the whitespace. */
  lemma OverrideWins(s: Settings, pre: string, url: string, post: string)
    requires AllSpace(pre) && AllSpace(post) && IsTrimmed(url) && url != ""
    ensures DatabaseUrl(s.(databaseUrl := Some(pre + url + post))) == url
  {
    StripPadded(pre, url, post);
  }

  /** A missing, empty or blank DATABASE_URL falls back to the composed URL. */
  lemma BlankOverrideIgnored(s: Settings, ws: string)
    requires AllSpace(ws)
    ensures DatabaseUrl(s.(databaseUrl := Some(ws))) == ComposedUrl(s)
    ensures DatabaseUrl(s.(databaseUrl := None)) == ComposedUrl(s)
  {
  }

  /** `str(5432)`. */
  lemma DefaultPortText()
    ensures IntToString(Defaults.postgresPort) == "5432"
  {
    assert NatToString(5) == "5";
    assert NatToString(54) == "54";
    assert NatToString(543) == "543";
  }

  /** The default settings give the development database URL, built from the default
      user, password, host, port and database name. */
  lemma DefaultDatabaseUrl()
    ensures DatabaseUrl(Defaults)
      == "postgresql+psycopg://" + "locksum" + ":" + "locksum_dev_password"
         + "@" + "db" + ":" + "5432" + "/" + "locksum"
  {
    assert !HasOverride(Defaults);
    DefaultPortText();
  }
}
