/** The older single-shot entry point (Program.cs): read the credentials
    from config.ini, probe the status page for the IP, ask once for
    confirmation, send one login request and report the portal's verdict.
    Its static fields are the fields of the class Program. It hard-codes the
    China Mobile realm whatever carrier the file names, and lets more
    exceptions escape than the login service does. */
module SingleShot {
  import opened Platform
  import opened Patterns
  import opened Login

  /** The section-qualified keys of config.ini. */
  const NetTypeKey: string := "运营商:netType"
  const UserNameKey: string := "账户&密码:userName"
  const PasswordKey: string := "账户&密码:password"

  /** The flattened INI configuration; None where building it throws
      (config.ini missing or malformed). */
  type Ini = map<string, string>

  /** `config[key]`: null for a missing key. */
  function IniValue(ini: Option<Ini>, key: string): (v: Option<string>)
    ensures v.Some? <==> ini.Some? && key in ini.value
    ensures v.Some? ==> v.value == ini.value[key]
  {
    if ini.Some? && key in ini.value then Some(ini.value[key]) else None
  }

  /** `!string.IsNullOrEmpty(v)`. */
  predicate Filled(v: Option<string>) {
    v.Some? && v.value != ""
  }

  /** The three checks of ProfileReader all pass. */
  predicate Complete(ini: Option<Ini>) {
    ini.Some? && Filled(IniValue(ini, NetTypeKey)) && Filled(IniValue(ini, UserNameKey)) &&
    Filled(IniValue(ini, PasswordKey))
  }

  /** A value, or the exception that escapes every catch clause on the way. */
  datatype Flow<T> = Value(value: T) | Escaped(e: Exception)

  /** The message SendConnectRequest prints: the request error of the
      HttpRequestException handler, the verdict for "0" or "1", or nothing
      for any other digit, since the switch has no default. */
  datatype LoginReport = RequestError | LoginRejected | LoginAccepted | NoMessage

  /** How the program ends. */
  datatype ShotEnd =
    | ProfileIncomplete     // the example file is shown, then the pause
    | NoIp                  // GetLogIp gave "-1", then the pause
    | Declined              // the confirmation was refused, then the pause
    | Finished(report: LoginReport)
    | Crashed(e: Exception) // an exception escapes Main

  /** GetLogIp: "-1" where the transport fails or the page has no `ss5`
      match; a failed status escapes, since only ArgumentOutOfRangeException
      and AggregateException are caught. A real capture is never "-1", so the
      sentinel is unambiguous. */
  function LogIp(page: HttpReply): (r: Flow<string>)
    ensures r.Escaped? <==> page.Reply? && !page.statusOk
    ensures r.Escaped? ==> r.e == HttpRequestException
    ensures r == Value("-1") <==> page.TransportFailure? || (page.statusOk && ProbeIp(page).None?)
    ensures r.Value? && r.value != "-1" ==> ProbeIp(page) == Some(r.value)
  {
    match page
    case TransportFailure => Value("-1")
    case Reply(statusOk, body) =>
      if !statusOk then Escaped(HttpRequestException)
      else
        match FirstIp(body)
        case None => Value("-1")
        case Some(ip) =>
          FirstIpSpec(body);
          IpShapedEnds(ip);
          Value(ip)
  }

  /** The try block of SendConnectRequest once the reply is in. Only
      HttpRequestException is caught: a transport failure and a reply without
      a result code escape. */
  function ConnectOutcome(reply: HttpReply): (r: Flow<LoginReport>)
    ensures r == Value(LoginAccepted) <==> reply.Reply? && reply.statusOk && ResultCode(reply.body) == Some('1')
    ensures r == Value(LoginRejected) <==> reply.Reply? && reply.statusOk && ResultCode(reply.body) == Some('0')
    ensures r == Value(RequestError) <==> reply.Reply? && !reply.statusOk
    ensures r.Escaped? <==> reply.TransportFailure? || (reply.statusOk && ResultCode(reply.body).None?)
    ensures r.Escaped? ==> r.e == if reply.TransportFailure? then AggregateException else ArgumentOutOfRangeException
  {
    match reply
    case TransportFailure => Escaped(AggregateException)
    case Reply(statusOk, body) =>
      if !statusOk then Value(RequestError)
      else
        match ResultCode(body)
        case None => Escaped(ArgumentOutOfRangeException)
        case Some(code) =>
          if code == '0' then Value(LoginRejected)
          else if code == '1' then Value(LoginAccepted)
          else Value(NoMessage)
  }

  /** Both entry points judge a reply alike: success on "1", failure on "0".
      They differ only in what they let escape: the login service catches
      everything, this program only a failed status. */
  lemma VerdictsAgree(reply: HttpReply)
    ensures ConnectOutcome(reply) == Value(LoginAccepted) <==> MobileAttempt(reply) == Returned(true)
    ensures ConnectOutcome(reply) == Value(LoginRejected) <==> MobileAttempt(reply) == Returned(false)
    ensures ConnectOutcome(reply).Escaped? ==> MobileAttempt(reply).Threw?
  {
  }

  /** `string.Format` writes a null argument as nothing. */
  function Text(v: Option<string>): string {
    if v.Some? then v.value else ""
  }

  /** The whole run: how it ends and the login URLs it sends (at most one). */
  function Shot(ini: Option<Ini>, page: HttpReply, confirm: bool, draw: nat, portal: string -> HttpReply)
    : (r: (ShotEnd, seq<string>))
    ensures r.0 == ProfileIncomplete <==> !Complete(ini)
    ensures r.1 != [] <==> Complete(ini) && ProbeIp(page).Some? && confirm
    ensures r.1 != [] ==>
              r.1 == [LoginUrl(ini.value[UserNameKey], ini.value[PasswordKey], ProbeIp(page).value, Complement(draw))]
    ensures r.0 == Finished(LoginAccepted) <==>
              r.1 != [] && portal(r.1[0]).Reply? && portal(r.1[0]).statusOk && ResultCode(portal(r.1[0]).body) == Some('1')
    ensures r.0.Crashed? ==> r.0.e in {HttpRequestException, AggregateException, ArgumentOutOfRangeException}
    ensures Complete(ini) && page.Reply? && !page.statusOk ==> r == (Crashed(HttpRequestException), [])
    ensures r.0 == NoIp <==> Complete(ini) && (page.TransportFailure? || (page.statusOk && ProbeIp(page).None?))
    ensures r.0 == Declined <==> Complete(ini) && ProbeIp(page).Some? && !confirm
    ensures r.1 != [] ==>
              r.0 == match ConnectOutcome(portal(r.1[0]))
                     case Value(report) => Finished(report)
                     case Escaped(e) => Crashed(e)
  {
    if !Complete(ini) then (ProfileIncomplete, [])
    else
      match LogIp(page)
      case Escaped(e) => (Crashed(e), [])
      case Value(ip) =>
        if ip == "-1" then (NoIp, [])
        else if !confirm then (Declined, [])
        else
          var url := LoginUrl(ini.value[UserNameKey], ini.value[PasswordKey], ip, Complement(draw));
          match ConnectOutcome(portal(url))
          case Value(report) => (Finished(report), [url])
          case Escaped(e) => (Crashed(e), [url])
  }

  /** The carrier is read and checked for presence, but never used: any two
      non-empty carrier names give the same run. */
  lemma NetTypeIgnored(ini: Ini, carrier: string, page: HttpReply, confirm: bool, draw: nat,
                       portal: string -> HttpReply)
    requires carrier != "" && Complete(Some(ini))
    ensures Shot(Some(ini[NetTypeKey := carrier]), page, confirm, draw, portal) == Shot(Some(ini), page, confirm, draw, portal)
  {
    var ini' := ini[NetTypeKey := carrier];
    assert ini'[UserNameKey] == ini[UserNameKey] && ini'[PasswordKey] == ini[PasswordKey];
    assert Complete(Some(ini'));
  }

  class Program {
    var userName: Option<string>
    var password: Option<string>
    var netType: Option<string>
    var ip: Option<string>
    var complementNum: Option<string>

    /** The static fields start out null. */
    constructor ()
      ensures userName == None && password == None && netType == None && ip == None && complementNum == None
    {
      userName, password, netType, ip, complementNum := None, None, None, None, None;
    }

    /** The URL SendConnectRequest formats from the fields. */
    function RequestUrl(): (url: string)
      reads this
    {
      LoginUrl(Text(userName), Text(password), Text(ip), Text(complementNum))
    }

    /** ProfileReader: each field is assigned before it is checked, and the
        first empty one ends the read, leaving the later ones untouched. */
    method ProfileReader(ini: Option<Ini>) returns (ok: bool)
      modifies this`userName, this`password, this`netType
      ensures ok == Complete(ini)
      ensures netType == if ini.Some? then IniValue(ini, NetTypeKey) else old(netType)
      ensures userName == if ini.Some? && Filled(netType) then IniValue(ini, UserNameKey) else old(userName)
      ensures password == if ini.Some? && Filled(netType) && Filled(userName) then IniValue(ini, PasswordKey)
                          else old(password)
    {
      if ini.None? {
        return false;
      }
      netType := IniValue(ini, NetTypeKey);
      if !Filled(netType) {
        return false;
      }
      userName := IniValue(ini, UserNameKey);
      if !Filled(userName) {
        return false;
      }
      password := IniValue(ini, PasswordKey);
      if !Filled(password) {
        return false;
      }
      ok := true;
    }

    /** Sends the formatted URL; the portal's reply is an input. */
    method SendConnectRequest(portal: string -> HttpReply) returns (r: Flow<LoginReport>)
      ensures r == ConnectOutcome(portal(RequestUrl()))
    {
      var url := RequestUrl();
      r := ConnectOutcome(portal(url));
    }

    /** The body of the program's Main: the confirmation answer, the status
        page, the random draw and the portal's replies are inputs; `sent`
        lists the login URLs sent. */
    method RunOnce(ini: Option<Ini>, page: HttpReply, confirm: bool, draw: nat, portal: string -> HttpReply)
      returns (end: ShotEnd, sent: seq<string>)
      modifies this
      ensures (end, sent) == Shot(ini, page, confirm, draw, portal)
      ensures sent != [] ==> sent == [RequestUrl()] && ip == ProbeIp(page) && complementNum == Some(Complement(draw))
    {
      var ok := ProfileReader(ini);
      if !ok {
        return ProfileIncomplete, [];
      }
      ghost var creds := (ini.value[UserNameKey], ini.value[PasswordKey]);
      assert Text(userName) == creds.0 && Text(password) == creds.1;
      var probe := LogIp(page);
      if probe.Escaped? {
        return Crashed(probe.e), [];
      }
      ip := Some(probe.value);
      if probe.value == "-1" {
        return NoIp, [];
      }
      if !confirm {
        return Declined, [];
      }
      complementNum := Some(Complement(draw));
      var url := RequestUrl();
      assert url == LoginUrl(creds.0, creds.1, probe.value, Complement(draw));
      sent := [url];
      var r := SendConnectRequest(portal);
      assert r == ConnectOutcome(portal(url));
      end := if r.Value? then Finished(r.value) else Crashed(r.e);
    }
  }
}
