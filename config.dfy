/**
  Configuration resolution: get_config_value looks a setting up in the
  process environment under its upper-cased name and, when asked, coerces it
  to an integer; the job resolves its seven settings this way once, at start.
 */
module Config {
  import opened Values
  import opened IntText

  type Environment = map<string, string>

  /** ASCII upper-casing of one character (str.upper() on ASCII text). */
  function UpperChar(c: char): (u: char)
    ensures 'a' <= c <= 'z' ==> 'A' <= u <= 'Z' && u as int == c as int - 32
    ensures !('a' <= c <= 'z') ==> u == c
  {
    if 'a' <= c <= 'z' then (c as int - 32) as char else c
  }

  /** key_name.upper(): each lower-case letter becomes its capital, every other character is kept. */
  function Upper(s: string): (r: string)
    ensures |r| == |s|
    ensures forall i :: 0 <= i < |s| ==> r[i] == UpperChar(s[i])
    ensures forall i :: 0 <= i < |r| ==> !('a' <= r[i] <= 'z')
  {
    seq(|s|, i requires 0 <= i < |s| => UpperChar(s[i]))
  }

  /** Upper-casing twice is upper-casing once. */
  lemma UpperIdempotent(s: string)
    ensures Upper(Upper(s)) == Upper(s)
  {
    var u := Upper(s);
    assert forall i :: 0 <= i < |u| ==> Upper(u)[i] == u[i];
  }

  /**
    get_config_value(key_name, default, is_int): the environment value of the
    upper-cased name; the default when it is absent; with is_int, the value as
    an integer, or the default when int() rejects it. The default is returned
    as it is, never coerced.
   */
  function GetConfigValue(env: Environment, keyName: string, default: PyValue, isInt: bool): (r: PyValue)
    ensures Upper(keyName) !in env ==> r == default
    ensures Upper(keyName) in env && !isInt ==> r == Str(env[Upper(keyName)])
    ensures Upper(keyName) in env && isInt ==>
              r == (match ParseInt(env[Upper(keyName)])
                    case Some(n) => Int(n)
                    case None => default)
  {
    var key := Upper(keyName);
    if key !in env then default
    else
      var value := env[key];
      if isInt then
        match ParseInt(value)
        case Some(n) => Int(n)
        case None => default
      else Str(value)
  }

  /** A present but empty variable is returned as "", not replaced by the default. */
  lemma EmptyValueKept(env: Environment, keyName: string, default: PyValue)
    requires Upper(keyName) in env && env[Upper(keyName)] == ""
    ensures GetConfigValue(env, keyName, default, false) == Str("")
    ensures default != Str("") ==> GetConfigValue(env, keyName, default, false) != default
  {
  }

  /** An absent variable yields the default untouched even with is_int: a string default stays a string. */
  lemma AbsentDefaultNotCoerced(env: Environment, keyName: string, digits: string)
    requires Upper(keyName) !in env
    ensures GetConfigValue(env, keyName, Str(digits), true) == Str(digits)
  {
  }

  /** With is_int, the rendering of any integer is read back as that integer. */
  lemma CoercionReadsIntegers(env: Environment, keyName: string, default: PyValue, n: int)
    requires Upper(keyName) in env && env[Upper(keyName)] == IntToString(n)
    ensures GetConfigValue(env, keyName, default, true) == Int(n)
  {
    IntToStringRoundTrip(n);
  }

  /** A name with no lower-case letter is its own upper-case form. */
  lemma UpperFixed(s: string)
    requires forall i :: 0 <= i < |s| ==> !('a' <= s[i] <= 'z')
    ensures Upper(s) == s
  {
  }

  /** The seven setting names are already upper-case, so each is looked up verbatim. */
  lemma SettingNamesUpper()
    ensures Upper("N2YO_API_KEY") == "N2YO_API_KEY"
    ensures Upper("SMTP_SERVER") == "SMTP_SERVER"
    ensures Upper("SMTP_PORT") == "SMTP_PORT"
    ensures Upper("SMTP_USERNAME") == "SMTP_USERNAME"
    ensures Upper("SMTP_PASSWORD") == "SMTP_PASSWORD"
    ensures Upper("SENDER_EMAIL") == "SENDER_EMAIL"
    ensures Upper("RECEIVER_EMAIL") == "RECEIVER_EMAIL"
  {
    UpperFixed("N2YO_API_KEY");
    UpperFixed("SMTP_SERVER");
    UpperFixed("SMTP_PORT");
    UpperFixed("SMTP_USERNAME");
    UpperFixed("SMTP_PASSWORD");
    UpperFixed("SENDER_EMAIL");
    UpperFixed("RECEIVER_EMAIL");
  }

  /** The lookup is case-insensitive in the name asked for. */
  lemma LookupIgnoresCase(env: Environment, keyName: string, default: PyValue, isInt: bool)
    ensures GetConfigValue(env, Upper(keyName), default, isInt) == GetConfigValue(env, keyName, default, isInt)
  {
    UpperIdempotent(keyName);
  }

  /** The resolved configuration of one run, immutable once built. */
  datatype Settings = Settings(
    apiKey: PyValue,
    smtpServer: PyValue,
    smtpPort: PyValue,
    smtpUsername: PyValue,
    smtpPassword: PyValue,
    senderEmail: PyValue,
    receiverEmail: PyValue)

  const DefaultSmtpPort := 587

  /** The module-level settings: seven lookups, the port coerced with default 587, the sender defaulting to the username. */
  function ResolveSettings(env: Environment): (s: Settings)
    ensures "SMTP_PORT" !in env ==> s.smtpPort == Int(DefaultSmtpPort)
    ensures "SENDER_EMAIL" !in env ==> s.senderEmail == s.smtpUsername
    ensures s.apiKey.Str? <==> "N2YO_API_KEY" in env
    ensures s.smtpPort.Int?
  {
    SettingNamesUpper();
    var username := GetConfigValue(env, "SMTP_USERNAME", PyNone, false);
    Settings(
      GetConfigValue(env, "N2YO_API_KEY", PyNone, false),
      GetConfigValue(env, "SMTP_SERVER", PyNone, false),
      GetConfigValue(env, "SMTP_PORT", Int(DefaultSmtpPort), true),
      username,
      GetConfigValue(env, "SMTP_PASSWORD", PyNone, false),
      GetConfigValue(env, "SENDER_EMAIL", username, false),
      GetConfigValue(env, "RECEIVER_EMAIL", PyNone, false))
  }

  /**
    Every string setting is exactly the environment's text when its variable
    is set and None when it is not; an unset SENDER_EMAIL is the username instead.
   */
  lemma ResolvedStrings(env: Environment)
    ensures var s := ResolveSettings(env);
            && ("N2YO_API_KEY" in env ==> s.apiKey == Str(env["N2YO_API_KEY"]))
            && ("N2YO_API_KEY" !in env <==> s.apiKey == PyNone)
            && ("SMTP_SERVER" in env ==> s.smtpServer == Str(env["SMTP_SERVER"]))
            && ("SMTP_SERVER" !in env <==> s.smtpServer == PyNone)
            && ("SMTP_USERNAME" in env ==> s.smtpUsername == Str(env["SMTP_USERNAME"]))
            && ("SMTP_USERNAME" !in env <==> s.smtpUsername == PyNone)
            && ("SMTP_PASSWORD" in env ==> s.smtpPassword == Str(env["SMTP_PASSWORD"]))
            && ("SMTP_PASSWORD" !in env <==> s.smtpPassword == PyNone)
            && ("RECEIVER_EMAIL" in env ==> s.receiverEmail == Str(env["RECEIVER_EMAIL"]))
            && ("RECEIVER_EMAIL" !in env <==> s.receiverEmail == PyNone)
            && ("SENDER_EMAIL" in env ==> s.senderEmail == Str(env["SENDER_EMAIL"]))
            && ("SENDER_EMAIL" !in env ==> s.senderEmail == s.smtpUsername)
  {
    SettingNamesUpper();
  }

  /** SMTP_PORT: a readable integer wins; unreadable text falls back to 587. */
  lemma ResolvedPort(env: Environment)
    requires "SMTP_PORT" in env
    ensures ParseInt(env["SMTP_PORT"]).Some? ==> ResolveSettings(env).smtpPort == Int(ParseInt(env["SMTP_PORT"]).value)
    ensures ParseInt(env["SMTP_PORT"]).None? ==> ResolveSettings(env).smtpPort == Int(DefaultSmtpPort)
  {
    SettingNamesUpper();
  }
}
