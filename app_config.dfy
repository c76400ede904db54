/**
 * The `--auth` option of the market-data-notifier example
 * (`AuthOptionsAction` in its appconfig.py): the option text becomes the
 * session's authentication option string, plus the application, IP and
 * user of a manual authorization.
 */
module AppConfig {
  import opened Wrappers
  import opened Text

  /** The `{"ip": ..., "user": ...}` record of a manual authorization. */
  datatype Manual = Manual(ip: string, user: string)

  /** The dict stored on the namespace: the option string (None for "none") and, for "manual", the manual record. */
  datatype Auth = Auth(option: Option<string>, manual: Option<Manual>)

  const OS_LOGON: string := "AuthenticationType=OS_LOGON"
  const APP_PREFIX: string := "AuthenticationMode=APPLICATION_ONLY;ApplicationAuthenticationType=APPNAME_AND_KEY;ApplicationName="
  const USERAPP_PREFIX: string :=
    "AuthenticationMode=USER_AND_APPLICATION;AuthenticationType=OS_LOGON;ApplicationAuthenticationType=APPNAME_AND_KEY;ApplicationName="
  const DIR_PREFIX: string := "AuthenticationType=DIRECTORY_SERVICE;DirSvcPropertyName="
  const MANUAL_PREFIX: string :=
    "AuthenticationMode=USER_AND_APPLICATION;AuthenticationType=MANUAL;ApplicationAuthenticationType=APPNAME_AND_KEY;ApplicationName="

  function InvalidAuthOption(value: string): string {
    "Invalid auth option '" + value + "'"
  }

  /** The option-string prefix of the kinds that take "=value". */
  function PrefixOf(kind: string): Option<string> {
    if kind == "app" then Some(APP_PREFIX)
    else if kind == "userapp" then Some(USERAPP_PREFIX)
    else if kind == "dir" then Some(DIR_PREFIX)
    else None
  }

  /**
   * `AuthOptionsAction.__call__`: "user" and "none" are matched as whole
   * texts; otherwise the text is cut at its first "=" only, "app",
   * "userapp" and "dir" need a value, which is appended to their fixed
   * prefix, and "manual" needs a value of exactly three comma-separated
   * parts `app,ip,user`.  Anything else is a ValueError.
   */
  function AuthFor(value: string): (r: Result<Auth, string>)
    ensures r.Err? ==> r.error == InvalidAuthOption(value)
    ensures r.Ok? && r.value.option.None? <==> value == "none"
    ensures r.Ok? && r.value.manual.Some? ==> SplitOnce(value, '=')[0] == "manual"
  {
    var vals := SplitOnce(value, '=');
    if value == "user" then Ok(Auth(Some(OS_LOGON), None))
    else if value == "none" then Ok(Auth(None, None))
    else if PrefixOf(vals[0]).Some? && |vals| == 2 then Ok(Auth(Some(PrefixOf(vals[0]).value + vals[1]), None))
    else if vals[0] == "manual" then
      var parts := if |vals| == 2 then Split(vals[1], ',') else [];
      if |parts| != 3 then Err(InvalidAuthOption(value))
      else Ok(Auth(Some(MANUAL_PREFIX + parts[0]), Some(Manual(parts[1], parts[2]))))
    else Err(InvalidAuthOption(value))
  }

  /** Exactly these texts are accepted. */
  lemma AcceptedTexts(value: string)
    ensures var vals := SplitOnce(value, '=');
            AuthFor(value).Ok? <==>
              value == "user" || value == "none" ||
              (vals[0] in {"app", "userapp", "dir"} && |vals| == 2) ||
              (vals[0] == "manual" && |vals| == 2 && |Split(vals[1], ',')| == 3)
  {
  }

  /**
   * A kind that takes a value keeps everything after the first "=", further
   * "=" signs included: the option string is the kind's prefix followed by
   * that value.
   */
  lemma ValueKept(kind: string, v: string)
    requires kind in {"app", "userapp", "dir"}
    ensures AuthFor(kind + "=" + v) == Ok(Auth(Some(PrefixOf(kind).value + v), None))
  {
    SplitOnceAt(kind, '=', v);
  }

  /** A manual option with comma-free parts yields the application in the option string and the IP and user in the record. */
  lemma ManualKept(app: string, ip: string, user: string)
    requires ',' !in app && ',' !in ip && ',' !in user
    ensures AuthFor("manual=" + Join([app, ip, user], ","))
            == Ok(Auth(Some(MANUAL_PREFIX + app), Some(Manual(ip, user))))
  {
    var joined := Join([app, ip, user], ",");
    assert Split(joined, ',') == [app, ip, user] by {
      JoinSplit([app, ip, user], ',');
    }
    assert SplitOnce("manual=" + joined, '=') == ["manual", joined] by {
      assert "manual=" + joined == "manual" + ['='] + joined;
      SplitOnceAt("manual", '=', joined);
    }
    ManualAccepted("manual=" + joined);
  }

  lemma ManualAccepted(value: string)
    requires SplitOnce(value, '=')[0] == "manual" && |SplitOnce(value, '=')| == 2
    requires |Split(SplitOnce(value, '=')[1], ',')| == 3
    ensures var parts := Split(SplitOnce(value, '=')[1], ',');
            AuthFor(value) == Ok(Auth(Some(MANUAL_PREFIX + parts[0]), Some(Manual(parts[1], parts[2]))))
  {
    assert value != "user" && value != "none" by {
      assert value == "manual" + ['='] + SplitOnce(value, '=')[1];
      assert value[0] == 'm';
    }
  }

  /** "user" carries the OS logon option, and "user=x" is not accepted. */
  lemma UserIsWholeText(x: string)
    ensures AuthFor("user") == Ok(Auth(Some(OS_LOGON), None))
    ensures AuthFor("user=" + x).Err?
  {
    SplitOnceAt("user", '=', x);
    assert "user=" + x == "user" + ['='] + x;
  }
}
