/** Resolving the fields of the selected environment
    (internal/migration/config_resolver.go). */
module ConfigResolver {
  import opened Basics
  import D = Decimal
  import T = Text
  import opened ConfigParser

  datatype Source = FromLiteral | FromEnvironmentVariable | FromDevelopmentDefault | FromPostgresDefault

  /** The host environment variables. */
  type Variables = map<string, string>

  datatype Resolved = Resolved(
    database: string, username: string, password: string, host: string, port: int, sources: map<string, Source>)

  const DEVELOPMENT_HOST := "127.0.0.1"
  const DEVELOPMENT_PORT := 5435
  const DEVELOPMENT_DATABASE := "alice_guardian"
  const DEVELOPMENT_USERNAME := "postgres"
  const POSTGRES_PORT := 5432
  const DIALECT := "postgres"

  predicate Overridden(v: ConfigValue, env: Variables) {
    v.Environment? && v.name in env && T.TrimSpace(env[v.name]) != ""
  }

  /** `resolveValue`: text and number; a number of 0 stands for text. */
  function ResolveValue(v: ConfigValue, env: Variables): (string, nat) {
    if v.Literal? then (v.text, v.number)
    else if Overridden(v, env) then (env[v.name], 0)
    else (v.text, v.number)
  }

  function ResolveString(fields: Fields, name: string, env: Variables): Option<string> {
    if name !in fields then None
    else
      var (text, number) := ResolveValue(fields[name], env);
      if number != 0 || text == "" then None else Some(text)
  }

  function ResolvePort(fields: Fields, env: Variables): Option<int> {
    if "port" !in fields then None
    else
      var (text, number) := ResolveValue(fields["port"], env);
      if number != 0 then Some(number) else D.ParseInt(text)
  }

  function SourceFor(fields: Fields, name: string, env: Variables): Source {
    if name in fields && Overridden(fields[name], env) then FromEnvironmentVariable else FromLiteral
  }

  /** A label tells the truth about a text: where it was taken from. */
  predicate Honest(fields: Fields, name: string, env: Variables, development: bool, value: string, source: Source, byDefault: string) {
    match source
    case FromEnvironmentVariable => name in fields && Overridden(fields[name], env) && value == env[fields[name].name]
    case FromLiteral => name in fields && !Overridden(fields[name], env) && value == fields[name].text
    case FromDevelopmentDefault => development && ResolveString(fields, name, env).None? && value == byDefault
    case FromPostgresDefault => false
  }

  predicate HonestPort(fields: Fields, env: Variables, development: bool, value: int, source: Source) {
    match source
    case FromEnvironmentVariable =>
      "port" in fields && Overridden(fields["port"], env) && D.ParseInt(env[fields["port"].name]) == Some(value)
    case FromLiteral =>
      && "port" in fields && !Overridden(fields["port"], env)
      && (value == fields["port"].number || D.ParseInt(fields["port"].text) == Some(value))
    case FromDevelopmentDefault => development && ResolvePort(fields, env).None? && value == DEVELOPMENT_PORT
    case FromPostgresDefault => !development && ResolvePort(fields, env).None? && value == POSTGRES_PORT
  }

  /** One text field with its label; in development it may fall back. */
  method ResolveText(fields: Fields, name: string, env: Variables, development: bool, byDefault: string)
    returns (value: Option<string>, source: Source)
    requires development ==> byDefault != ""
    ensures value.None? <==> ResolveString(fields, name, env).None? && !development
    ensures value.Some? ==> value.value != "" && Honest(fields, name, env, development, value.value, source, byDefault)
  {
    hide T.TrimSpace;
    value, source := ResolveString(fields, name, env), SourceFor(fields, name, env);
    if value.None? && development {
      value, source := Some(byDefault), FromDevelopmentDefault;
    }
  }

  /** The port with its label; there is always a default. */
  method ResolveNumber(fields: Fields, env: Variables, development: bool) returns (port: int, source: Source)
    ensures HonestPort(fields, env, development, port, source)
    ensures ResolvePort(fields, env).Some? ==> port == ResolvePort(fields, env).value
    ensures ResolvePort(fields, env).None? ==> 1 <= port <= 65535
  {
    hide T.TrimSpace, D.ParseInt;
    var found := ResolvePort(fields, env);
    if found.None? {
      if development {
        return DEVELOPMENT_PORT, FromDevelopmentDefault;
      }
      return POSTGRES_PORT, FromPostgresDefault;
    }
    return found.value, SourceFor(fields, "port", env);
  }

  /** `resolveFields`. What it returns is complete and in range, and every label tells
      where its value was taken from; a development default never reaches another
      environment. It fails exactly when a field is unknown, the dialect is another one,
      the password is unresolved, a text is unresolved outside development, or the
      resolved port is out of range. */
  method ResolveFields(fields: Fields, env: Variables, development: bool) returns (r: Option<Resolved>)
    ensures r.Some? ==>
              var c := r.value;
              && c.sources.Keys == {"dialect", "database", "username", "password", "host", "port"}
              && c.database != "" && c.username != "" && c.password != "" && c.host != "" && 1 <= c.port <= 65535
              && Honest(fields, "database", env, development, c.database, c.sources["database"], DEVELOPMENT_DATABASE)
              && Honest(fields, "username", env, development, c.username, c.sources["username"], DEVELOPMENT_USERNAME)
              && Honest(fields, "host", env, development, c.host, c.sources["host"], DEVELOPMENT_HOST)
              && Honest(fields, "password", env, false, c.password, c.sources["password"], "")
              && Honest(fields, "dialect", env, false, DIALECT, c.sources["dialect"], "")
              && HonestPort(fields, env, development, c.port, c.sources["port"])
    ensures r.None? <==>
              || (exists k :: k in fields && !IsRequiredField(k))
              || ResolveString(fields, "dialect", env) != Some(DIALECT)
              || ResolveString(fields, "password", env).None?
              || (!development && (ResolveString(fields, "database", env).None? ||
                                   ResolveString(fields, "username", env).None? || ResolveString(fields, "host", env).None?))
              || (ResolvePort(fields, env).Some? && !(1 <= ResolvePort(fields, env).value <= 65535))
  {
    hide Honest, HonestPort, ResolveString, ResolvePort, IsRequiredField;
    var names := fields.Keys;
    while names != {}
      invariant names <= fields.Keys && forall k :: k in fields && k !in names ==> IsRequiredField(k)
    {
      var name :| name in names;
      if !IsRequiredField(name) {
        return None;
      }
      names := names - {name};
    }
    var dialect := ResolveString(fields, "dialect", env);
    if dialect != Some(DIALECT) {
      return None;
    }
    var database, fromDatabase := ResolveText(fields, "database", env, development, DEVELOPMENT_DATABASE);
    var username, fromUsername := ResolveText(fields, "username", env, development, DEVELOPMENT_USERNAME);
    var host, fromHost := ResolveText(fields, "host", env, development, DEVELOPMENT_HOST);
    var password, fromPassword := ResolveText(fields, "password", env, false, "");
    var port, fromPort := ResolveNumber(fields, env, development);
    if database.None? || username.None? || password.None? || host.None? || port < 1 || port > 65535 {
      return None;
    }
    var sources := map[
      "dialect" := SourceFor(fields, "dialect", env), "database" := fromDatabase, "username" := fromUsername,
      "password" := fromPassword, "host" := fromHost, "port" := fromPort];
    KeyHeads();
    DialectIsHonest(fields, env);
    return Some(Resolved(database.value, username.value, password.value, host.value, port, sources));
  }

  lemma DialectIsHonest(fields: Fields, env: Variables)
    requires ResolveString(fields, "dialect", env) == Some(DIALECT)
    ensures Honest(fields, "dialect", env, false, DIALECT, SourceFor(fields, "dialect", env), "")
  {
    hide T.TrimSpace;
  }

  lemma KeyHeads()
    ensures "dialect" != "database" && "username" != "dialect" && "password" != "port" && "host" != "port"
    ensures "username" != "database" && "password" != "username" && "host" != "password" && "port" != "username"
    ensures "database" != "password" && "database" != "host" && "database" != "port" && "username" != "host"
    ensures "dialect" != "password" && "dialect" != "host" && "dialect" != "port"
  {
    assert "dialect"[1] == 'i' && "database"[1] == 'a' && "username"[0] == 'u' && "password"[1] == 'a';
    assert "host"[0] == 'h' && "port"[1] == 'o' && "dialect"[0] == 'd' && "database"[0] == 'd';
    assert "password"[0] == 'p' && "port"[0] == 'p';
  }
}
