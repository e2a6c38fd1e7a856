/** The login service (LoginService.cs): probing the portal status page for
    the client IP, and dispatching a login attempt to the strategy of the
    profile's carrier. Only the China Mobile strategy is implemented; the
    other three throw NotImplementedException, which nothing here catches. */
module Login {
  import opened Platform
  import opened Patterns
  import opened Profiles

  /** The parts of the login request URL around its four substituted values. */
  const UrlHead: string :=
    "http://10.9.1.3:801/eportal/?c=Portal&a=login&callback=dr1003&login_method=1&user_account=%2C0%2C"
  const Realm: string := "%40zgyd"
  const PasswordField: string := "&user_password="
  const IpField: string := "&wlan_user_ip="
  const VersionField: string :=
    "&wlan_user_ipv6=&wlan_user_mac=000000000000&wlan_ac_ip=&wlan_ac_name=&jsVersion=3.3.3&v="
  const UrlEnd: string := "\r\n"

  /** The login request URL: account, password, IP and `v` substituted
      verbatim into the fixed template, the account always followed by the
      `@zgyd` realm and the whole ending in CR LF. */
  function LoginUrl(account: string, password: string, ip: string, v: string): string {
    UrlHead + account + Realm + PasswordField + password + UrlTail(ip, v)
  }

  /** Ten strings joined: each one is found again at the offset where the
      ones before it end. */
  lemma JoinedParts(h: string, a: string, r: string, pf: string, pw: string,
                    f: string, ip: string, vf: string, v: string, e: string)
    ensures var url := h + a + r + pf + pw + (f + ip + vf + v + e);
            var p := |h| + |a| + |r|;
            var q := p + |pf| + |pw|;
            var w := q + |f| + |ip|;
            var n := w + |vf| + |v|;
            n + |e| == |url| &&
            url[..|h|] == h && url[|h|..|h| + |a|] == a && url[|h| + |a|..p] == r &&
            url[p..p + |pf|] == pf && url[p + |pf|..q] == pw &&
            url[q..q + |f|] == f && url[q + |f|..w] == ip &&
            url[w..w + |vf|] == vf && url[w + |vf|..n] == v && url[n..] == e
  {
  }

  /** Every part of the login URL sits at a fixed place: after the head and
      the account come the realm, the password field, the password, the IP
      field, the IP, the version field, `v` and the CR LF ending, each
      starting where the previous one ends. */
  lemma LoginUrlLayout(account: string, password: string, ip: string, v: string)
    ensures var url := LoginUrl(account, password, ip, v);
            var p := |UrlHead| + |account| + |Realm|;
            var q := p + |PasswordField| + |password|;
            var w := q + |IpField| + |ip|;
            var e := w + |VersionField| + |v|;
            e + |UrlEnd| == |url| &&
            url[..|UrlHead|] == UrlHead &&
            url[|UrlHead|..|UrlHead| + |account|] == account &&
            url[|UrlHead| + |account|..p] == Realm &&
            url[p..p + |PasswordField|] == PasswordField &&
            url[p + |PasswordField|..q] == password &&
            url[q..q + |IpField|] == IpField &&
            url[q + |IpField|..w] == ip &&
            url[w..w + |VersionField|] == VersionField &&
            url[w + |VersionField|..e] == v &&
            url[e..] == UrlEnd
  {
    JoinedParts(UrlHead, account, Realm, PasswordField, password, IpField, ip, VersionField, v, UrlEnd);
  }

  function UrlTail(ip: string, v: string): string {
    IpField + ip + VersionField + v + UrlEnd
  }

  /** Because nothing is escaped, different credentials can produce the very
      same request: an account that itself carries the realm and the password
      field is indistinguishable from a shorter account with a longer password. */
  lemma UnescapedCredentialsCollide(a: string, b: string, c: string, ip: string, v: string)
    ensures LoginUrl(a + Realm + PasswordField + b, c, ip, v) == LoginUrl(a, b + Realm + PasswordField + c, ip, v)
  {
    Regroup(UrlHead, a, b, c, Realm, PasswordField, UrlTail(ip, v));
  }

  lemma Regroup(h: string, a: string, b: string, c: string, r: string, p: string, t: string)
    ensures h + (a + r + p + b) + r + p + c + t == h + a + r + p + (b + r + p + c) + t
  {
  }

  /** The `v` query value: `new Random().Next(1, 999).ToString()`, one to
      three digits without a leading zero, denoting a number in 1..998. */
  function Complement(draw: nat): (v: string)
    ensures 1 <= |v| <= 3 && AllDigits(v) && v[0] != '0'
    ensures 1 <= DecimalValue(v) <= 998
  {
    var n := Random(1, 999, draw);
    DecimalRoundTrip(n);
    DecimalLength(n, 3);
    DecimalString(n)
  }

  /** The try block of ChinaMobileLogin.TryLogin once the reply is in: the
      value it returns or the exception it throws. */
  function MobileAttempt(reply: HttpReply): (r: LoginOutcome)
    ensures r == Returned(true) <==> reply.Reply? && reply.statusOk && ResultCode(reply.body) == Some('1')
    ensures r == Returned(false) <==> reply.Reply? && reply.statusOk && ResultCode(reply.body) == Some('0')
    ensures r.Threw? ==> r.e in {AggregateException, HttpRequestException, ArgumentOutOfRangeException, InvalidCastException}
  {
    match reply
    case TransportFailure => Threw(AggregateException)
    case Reply(statusOk, body) =>
      if !statusOk then Threw(HttpRequestException)
      else
        match ResultCode(body)
        case None => Threw(ArgumentOutOfRangeException)
        case Some(code) =>
          if code == '0' then Returned(false)
          else if code == '1' then Returned(true)
          else Threw(InvalidCastException)
  }

  /** ChinaMobileLogin.TryLogin: sends the login URL to the portal (its reply
      to each URL is an input) and catches every exception as a failure. It
      succeeds exactly when the reply is a success whose first result code
      is "1". */
  function MobileLogin(profile: LoginProfile, ip: string, draw: nat, portal: string -> HttpReply): (ok: bool)
    ensures var reply := portal(LoginUrl(profile.account, profile.password, ip, Complement(draw)));
            ok <==> reply.Reply? && reply.statusOk && ResultCode(reply.body) == Some('1')
  {
    var url := LoginUrl(profile.account, profile.password, ip, Complement(draw));
    match MobileAttempt(portal(url))
    case Returned(success) => success
    case Threw(_) => false
  }

  /** The result of a strategy's TryLogin: a value, or an exception that
      escapes to the caller. */
  datatype LoginOutcome = Returned(success: bool) | Threw(e: Exception)

  datatype Strategy = ChinaTelecomLogin | ChinaMobileLogin | ChinaUnicomLogin | SudaLogin

  /** The dispatch switch of LoginService.TryLogin. */
  function StrategyFor(t: AccountType): Strategy {
    match t
    case ChinaTelecom => ChinaTelecomLogin
    case ChinaMobile => ChinaMobileLogin
    case ChinaUnicom => ChinaUnicomLogin
    case Suda => SudaLogin
  }

  /** Each carrier has a strategy of its own. */
  lemma StrategyForIsOneToOne(a: AccountType, b: AccountType)
    ensures StrategyFor(a) == StrategyFor(b) <==> a == b
  {
  }

  function StrategyLogin(s: Strategy, profile: LoginProfile, ip: string, draw: nat,
                         portal: string -> HttpReply): LoginOutcome
  {
    match s
    case ChinaMobileLogin => Returned(MobileLogin(profile, ip, draw, portal))
    case ChinaTelecomLogin => Threw(NotImplementedException)
    case ChinaUnicomLogin => Threw(NotImplementedException)
    case SudaLogin => Threw(NotImplementedException)
  }

  /** What LoginService.TryLogin yields: the China Mobile strategy never
      throws, and every other carrier throws NotImplementedException. */
  function Dispatch(profile: LoginProfile, ip: string, draw: nat, portal: string -> HttpReply): (r: LoginOutcome)
    ensures r.Threw? <==> profile.accountType != ChinaMobile
    ensures r.Threw? ==> r.e == NotImplementedException
    ensures r.Returned? ==> r.success == MobileLogin(profile, ip, draw, portal)
  {
    StrategyLogin(StrategyFor(profile.accountType), profile, ip, draw, portal)
  }

  /** The try block of TryGetIp: the first `ss5` capture of a successfully
      fetched status page; None where a transport failure, an unsuccessful
      status or the missing match throws. */
  function ProbeIp(page: HttpReply): Option<string> {
    if page.TransportFailure? || !page.statusOk then None else FirstIp(page.body)
  }

  /** The probe yields an IP exactly when the page arrives with a success
      status and the `ss5` pattern matches somewhere in it; that IP is the
      first capture, four digit runs joined by single characters. */
  lemma ProbeIpSpec(page: HttpReply)
    ensures ProbeIp(page).Some? <==> page.Reply? && page.statusOk && exists p :: IpMatchAt(page.body, p)
    ensures ProbeIp(page).Some? ==> ProbeIp(page) == FirstIp(page.body) && IpShaped(ProbeIp(page).value)
  {
    if page.Reply? {
      FirstIpSpec(page.body);
    }
  }

  class LoginService {
    /** The strategy the last TryLogin chose; null until then. */
    var strategy: Option<Strategy>

    constructor ()
      ensures strategy == None
    {
      strategy := None;
    }

    /** `ip` is a `ref` parameter: it is assigned only after a successful
        match and otherwise keeps the caller's value. */
    method TryGetIp(page: HttpReply, ip: string) returns (ok: bool, ip': string)
      ensures ok <==> ProbeIp(page).Some?
      ensures ok ==> Some(ip') == ProbeIp(page)
      ensures !ok ==> ip' == ip
    {
      ip' := ip;
      if page.TransportFailure? || !page.statusOk {
        return false, ip';
      }
      var found := FirstIp(page.body);
      if found.None? {
        return false, ip';   // ArgumentOutOfRangeException, caught
      }
      ip' := found.value;
      ok := true;
    }

    method TryLogin(profile: LoginProfile, ip: string, draw: nat, portal: string -> HttpReply)
      returns (r: LoginOutcome)
      modifies this
      ensures strategy == Some(StrategyFor(profile.accountType))
      ensures r == Dispatch(profile, ip, draw, portal)
    {
      var s := StrategyFor(profile.accountType);
      strategy := Some(s);
      r := StrategyLogin(s, profile, ip, draw, portal);
    }
  }
}
