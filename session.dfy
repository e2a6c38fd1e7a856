/** The interactive session controller (App.cs): a menu loop over three
    actions around one in-memory login profile, which is read from the
    profile store at most once, replaced by the user's answers when that read
    fails or on request, and written back on exit only if it changed.

    The answers to the prompts, the portal's replies, the random draws and
    whether the final write throws are inputs. RunSpec states what a whole
    run does; the class methods are proved to do exactly that. */
module Session {
  import opened Platform
  import opened Patterns
  import opened Profiles
  import opened Login

  datatype UserAction = LogInOrRetry | ChangeProfile | Exit

  /** The three menu entries, in the order the menu offers them. */
  function MenuLabel(a: UserAction): string {
    match a
    case LogInOrRetry => "按此配置登录"
    case ChangeProfile => "修改配置文件"
    case Exit => "退出"
  }

  /** The switch of GetUserAction; None on its throwing default branch,
      which the menu prompt never reaches. It accepts exactly the menu
      entries. */
  function ParseUserAction(choice: string): (a: Option<UserAction>)
    ensures a.Some? ==> MenuLabel(a.value) == choice
    ensures a.None? ==> forall b :: MenuLabel(b) != choice
  {
    if choice == "按此配置登录" then Some(LogInOrRetry)
    else if choice == "修改配置文件" then Some(ChangeProfile)
    else if choice == "退出" then Some(Exit)
    else None
  }

  /** The carrier entries of the profile prompt. */
  function CarrierLabel(t: AccountType): string {
    match t
    case ChinaTelecom => "中国电信"
    case ChinaMobile => "中国移动"
    case ChinaUnicom => "中国联通"
    case Suda => "校园网"
  }

  /** The carrier switch of CreateLoginProfile; None where it throws
      InvalidCastException. It accepts exactly the carrier entries. */
  function ParseCarrier(entry: string): (t: Option<AccountType>)
    ensures t.Some? ==> CarrierLabel(t.value) == entry
    ensures t.None? ==> forall a :: CarrierLabel(a) != entry
  {
    if entry == "中国电信" then Some(ChinaTelecom)
    else if entry == "中国移动" then Some(ChinaMobile)
    else if entry == "中国联通" then Some(ChinaUnicom)
    else if entry == "校园网" then Some(Suda)
    else None
  }

  /** Different carriers have different entries, and different actions
      different menu labels. */
  lemma LabelsAreDistinct(a: AccountType, b: AccountType, x: UserAction, y: UserAction)
    ensures CarrierLabel(a) == CarrierLabel(b) <==> a == b
    ensures MenuLabel(x) == MenuLabel(y) <==> x == y
  {
  }

  /** The menu switch undoes the prompt: the label of the selected entry maps
      back to that entry, so the throwing branch is never taken. */
  lemma MenuRoundTrip(a: UserAction)
    ensures ParseUserAction(MenuLabel(a)) == Some(a)
  {
  }

  /** Likewise for the carrier prompt and its switch. */
  lemma CarrierRoundTrip(t: AccountType)
    ensures ParseCarrier(CarrierLabel(t)) == Some(t)
  {
  }

  /** The answers to the three prompts of CreateLoginProfile: the carrier
      entry selected (a selection prompt returns only an offered entry), then
      the account and password as typed. */
  datatype ProfileForm = ProfileForm(carrier: AccountType, account: string, password: string)

  /** The profile the answers describe. */
  function Answered(form: ProfileForm): LoginProfile {
    LoginProfile(form.carrier, form.account, form.password)
  }

  /** What one pass of the menu loop takes from outside: the menu entry
      selected, the answers to the profile prompts (used by ChangeProfile),
      the status page reply, the random draw and the portal's reply to each
      login URL (used by LogInOrRetry). */
  datatype Turn = Turn(action: UserAction, form: ProfileForm, statusPage: HttpReply, draw: nat,
                       portal: string -> HttpReply)

  /** The controller's state, with the number of profile reads and writes so far. */
  datatype SessionState = SessionState(profile: LoginProfile, hasReadProfile: bool,
                                       hasChangedProfile: bool, readCount: nat, writeCount: nat)

  /** The store as the controller sees it until exit: it is not written before. */
  datatype StoreView = StoreView(config: Option<Settings>, fileExists: bool)

  /** How a login attempt ends for the controller. */
  datatype Attempt = IpUnavailable | Rejected | LoggedIn | Aborted(e: Exception)

  /** How a run ends: by the Exit action, by an exception nothing catches, or
      still waiting at the menu once the given turns are used up. */
  datatype RunEnd = Exited | Crashed(e: Exception) | AwaitingInput

  datatype ExitReport = NothingToSave | SaveSucceeded | SaveFailed

  /** EnsureProfileLoaded: the first call reads the store, and when that
      fails replaces the profile with the user's answers and marks it changed;
      later calls do nothing. */
  function Load(st: SessionState, store: StoreView, initialForm: ProfileForm): SessionState
  {
    if st.hasReadProfile then st
    else
      var read := ReadProfile(store.config, store.fileExists, st.profile);
      var st' := st.(hasReadProfile := true, readCount := st.readCount + 1, profile := read.1);
      if read.0 then st'
      else st'.(profile := Answered(initialForm), hasChangedProfile := true)
  }

  /** HandleLogin: probe the IP, then dispatch on the profile's carrier. */
  function AttemptSpec(profile: LoginProfile, statusPage: HttpReply, draw: nat, portal: string -> HttpReply)
    : (a: Attempt)
    ensures a == LoggedIn ==> profile.accountType == ChinaMobile && ProbeIp(statusPage).Some?
    ensures a.Aborted? <==> ProbeIp(statusPage).Some? && profile.accountType != ChinaMobile
    ensures a.Aborted? ==> a.e == NotImplementedException
  {
    match ProbeIp(statusPage)
    case None => IpUnavailable
    case Some(ip) =>
      match Dispatch(profile, ip, draw, portal)
      case Returned(success) => if success then LoggedIn else Rejected
      case Threw(e) => Aborted(e)
  }

  /** Every outcome of a login attempt, in both directions: no IP exactly
      when the probe fails; with an IP, China Mobile logs in or is rejected
      as its strategy decides. */
  lemma AttemptOutcomes(profile: LoginProfile, statusPage: HttpReply, draw: nat, portal: string -> HttpReply)
    ensures AttemptSpec(profile, statusPage, draw, portal) == IpUnavailable <==> ProbeIp(statusPage).None?
    ensures AttemptSpec(profile, statusPage, draw, portal) == LoggedIn <==>
              profile.accountType == ChinaMobile && ProbeIp(statusPage).Some? &&
              MobileLogin(profile, ProbeIp(statusPage).value, draw, portal)
    ensures AttemptSpec(profile, statusPage, draw, portal) == Rejected <==>
              profile.accountType == ChinaMobile && ProbeIp(statusPage).Some? &&
              !MobileLogin(profile, ProbeIp(statusPage).value, draw, portal)
  {
  }

  /** One pass of the loop: load, then the chosen action. Only Exit and an
      uncaught exception stop the loop; a successful login does not. */
  function TurnSpec(st: SessionState, store: StoreView, initialForm: ProfileForm, t: Turn)
    : (SessionState, Option<RunEnd>)
  {
    var st' := Load(st, store, initialForm);
    match t.action
    case Exit =>
      (st'.(writeCount := st'.writeCount + if st'.hasChangedProfile then 1 else 0), Some(Exited))
    case ChangeProfile =>
      (st'.(profile := Answered(t.form), hasChangedProfile := true), None)
    case LogInOrRetry =>
      match AttemptSpec(st'.profile, t.statusPage, t.draw, t.portal)
      case Aborted(e) => (st', Some(Crashed(e)))
      case _ => (st', None)
  }

  /** A run's result with `i` more turns counted. */
  function Shift(r: (SessionState, RunEnd, nat), i: nat): (SessionState, RunEnd, nat) {
    (r.0, r.1, r.2 + i)
  }

  /** A whole run over the given turns: the final state, how it ended and how
      many turns it consumed. */
  function RunSpec(st: SessionState, store: StoreView, initialForm: ProfileForm, script: seq<Turn>)
    : (SessionState, RunEnd, nat)
    decreases |script|
  {
    if script == [] then (st, AwaitingInput, 0)
    else
      var next := TurnSpec(st, store, initialForm, script[0]);
      if next.1.Some? then (next.0, next.1.value, 1)
      else Shift(RunSpec(next.0, store, initialForm, script[1..]), 1)
  }

  /** RunSpec takes the first turn, and stops or goes on with the rest. */
  lemma RunSpecCons(st: SessionState, store: StoreView, initialForm: ProfileForm, script: seq<Turn>,
                    after: SessionState, stop: Option<RunEnd>)
    requires script != []
    requires (after, stop) == TurnSpec(st, store, initialForm, script[0])
    ensures stop.Some? ==> RunSpec(st, store, initialForm, script) == (after, stop.value, 1)
    ensures stop.None? ==> RunSpec(st, store, initialForm, script) == Shift(RunSpec(after, store, initialForm, script[1..]), 1)
  {
  }

  /** The counters agree with the flag: the store has been read once exactly
      when the profile has been loaded. */
  predicate ReadOnce(st: SessionState) {
    st.readCount == if st.hasReadProfile then 1 else 0
  }

  /** The profile is read at most once per run, and it has been read once any
      turn has been taken. */
  lemma {:induction false} RunReadsProfileOnce(st: SessionState, store: StoreView, initialForm: ProfileForm,
                                               script: seq<Turn>)
    requires ReadOnce(st)
    ensures var (final, _, n) := RunSpec(st, store, initialForm, script);
            ReadOnce(final) && final.readCount <= 1 && (n > 0 ==> final.hasReadProfile)
    decreases |script|
  {
    if script != [] {
      var (st', stop) := TurnSpec(st, store, initialForm, script[0]);
      if stop.None? {
        RunReadsProfileOnce(st', store, initialForm, script[1..]);
      }
    }
  }

  /** The changed flag is never cleared. */
  lemma {:induction false} RunKeepsChangedFlag(st: SessionState, store: StoreView, initialForm: ProfileForm,
                                               script: seq<Turn>)
    ensures st.hasChangedProfile ==> RunSpec(st, store, initialForm, script).0.hasChangedProfile
    decreases |script|
  {
    if script != [] {
      var (st', stop) := TurnSpec(st, store, initialForm, script[0]);
      if stop.None? {
        RunKeepsChangedFlag(st', store, initialForm, script[1..]);
      }
    }
  }

  /** When the first read fails, the created profile is marked changed, so a
      run that reaches Exit writes it. */
  lemma FailedReadForcesSave(st: SessionState, store: StoreView, initialForm: ProfileForm, script: seq<Turn>)
    requires script != []
    requires !st.hasReadProfile && !ReadProfile(store.config, store.fileExists, st.profile).0
    ensures RunSpec(st, store, initialForm, script).0.hasChangedProfile
    ensures RunSpec(st, store, initialForm, script).1 == Exited ==>
              RunSpec(st, store, initialForm, script).0.writeCount == st.writeCount + 1
  {
    var (st', stop) := TurnSpec(st, store, initialForm, script[0]);
    assert st'.hasChangedProfile;
    if stop.None? {
      RunKeepsChangedFlag(st', store, initialForm, script[1..]);
      RunWritesOnlyOnExit(st', store, initialForm, script[1..]);
    }
  }

  /** The profile is written only by Exit, exactly once, and only when it changed. */
  lemma {:induction false} RunWritesOnlyOnExit(st: SessionState, store: StoreView, initialForm: ProfileForm,
                                               script: seq<Turn>)
    ensures var (final, end, _) := RunSpec(st, store, initialForm, script);
            final.writeCount == st.writeCount + if end == Exited && final.hasChangedProfile then 1 else 0
    decreases |script|
  {
    if script != [] {
      var (st', stop) := TurnSpec(st, store, initialForm, script[0]);
      if stop.None? {
        RunWritesOnlyOnExit(st', store, initialForm, script[1..]);
      }
    }
  }

  /** Only the Exit action ends a run normally: the last turn consumed is the
      first Exit, every earlier turn continued the loop (successful logins
      included), and a crash happens only on a login attempt. */
  lemma {:induction false} RunEndsOnlyOnExit(st: SessionState, store: StoreView, initialForm: ProfileForm,
                                             script: seq<Turn>)
    ensures var (_, end, n) := RunSpec(st, store, initialForm, script);
            n <= |script| &&
            (forall k :: 0 <= k < n - 1 ==> script[k].action != Exit) &&
            (end == Exited <==> n > 0 && script[n - 1].action == Exit) &&
            (end.Crashed? ==> n > 0 && script[n - 1].action == LogInOrRetry) &&
            (end == AwaitingInput ==> n == |script| && forall k :: 0 <= k < |script| ==> script[k].action != Exit)
    decreases |script|
  {
    if script != [] {
      var (st', stop) := TurnSpec(st, store, initialForm, script[0]);
      if stop.None? {
        RunEndsOnlyOnExit(st', store, initialForm, script[1..]);
        var (_, end, n) := RunSpec(st', store, initialForm, script[1..]);
        assert forall k :: 1 <= k < n + 1 ==> script[k] == script[1..][k - 1];
      }
    }
  }

  /** One pass stops the loop exactly on Exit or on a login attempt that
      aborts; a login that succeeds, is rejected or finds no IP goes back to
      the menu. */
  lemma TurnStops(st: SessionState, store: StoreView, initialForm: ProfileForm, t: Turn)
    ensures TurnSpec(st, store, initialForm, t).1.Some? <==>
              t.action == Exit ||
              (t.action == LogInOrRetry &&
               AttemptSpec(Load(st, store, initialForm).profile, t.statusPage, t.draw, t.portal).Aborted?)
    ensures TurnSpec(st, store, initialForm, t).1 == Some(Exited) <==> t.action == Exit
  {
  }

  /** With a China Mobile profile once loaded and no ChangeProfile turn, no
      login attempt aborts, so the run never crashes. */
  lemma {:induction false} MobileRunNeverCrashes(st: SessionState, store: StoreView, initialForm: ProfileForm,
                                                 script: seq<Turn>)
    requires Load(st, store, initialForm).profile.accountType == ChinaMobile
    requires forall k :: 0 <= k < |script| ==> script[k].action != ChangeProfile
    ensures !RunSpec(st, store, initialForm, script).1.Crashed?
    decreases |script|
  {
    if script != [] {
      var (st', stop) := TurnSpec(st, store, initialForm, script[0]);
      if stop.None? {
        assert st' == Load(st, store, initialForm);
        MobileRunNeverCrashes(st', store, initialForm, script[1..]);
      }
    }
  }

  /** Login attempts leave the profile and the changed flag alone: a run with
      no ChangeProfile turn ends with the profile as first loaded. */
  lemma {:induction false} LoginsKeepProfile(st: SessionState, store: StoreView, initialForm: ProfileForm,
                                             script: seq<Turn>)
    requires forall k :: 0 <= k < |script| ==> script[k].action != ChangeProfile
    ensures script != [] ==>
              var loaded := Load(st, store, initialForm);
              var final := RunSpec(st, store, initialForm, script).0;
              final.profile == loaded.profile && final.hasChangedProfile == loaded.hasChangedProfile
    decreases |script|
  {
    if script != [] {
      var (st', stop) := TurnSpec(st, store, initialForm, script[0]);
      if stop.None? && script[1..] != [] {
        LoginsKeepProfile(st', store, initialForm, script[1..]);
      }
    }
  }

  class App {
    var profile: LoginProfile
    var hasReadProfile: bool
    var hasChangedProfile: bool
    const profileService: ProfileService
    const loginService: LoginService
    /** Calls made so far to TryReadProfile and TryWriteProfile. */
    ghost var readCount: nat
    ghost var writeCount: nat

    ghost function State(): SessionState
      reads this
    {
      SessionState(profile, hasReadProfile, hasChangedProfile, readCount, writeCount)
    }

    ghost function Store(): StoreView
      reads this, profileService
    {
      StoreView(profileService.config, profileService.FileExists())
    }

    /** The services are created with the controller; opening the
        configuration file is the store's input. */
    constructor (config: Option<Settings>, file: ConfigFile)
      ensures State() == SessionState(DefaultProfile, false, false, 0, 0)
      ensures fresh(profileService) && fresh(loginService)
      ensures profileService.config == config && profileService.file == file
      ensures loginService.strategy == None
    {
      profile := DefaultProfile;
      hasReadProfile := false;
      hasChangedProfile := false;
      readCount, writeCount := 0, 0;
      profileService := new ProfileService(config, file);
      loginService := new LoginService();
    }

    /** The menu loop. It returns only on Exit or when an exception escapes;
        once the given turns are used up it is still waiting at the menu. */
    method Run(initialForm: ProfileForm, script: seq<Turn>, ioFails: bool) returns (end: RunEnd, turns: nat)
      modifies this, profileService, loginService
      ensures (State(), end, turns) == RunSpec(old(State()), old(Store()), initialForm, script)
      ensures end == Exited && hasChangedProfile ==>
                (profileService.config, profileService.file) ==
                WriteProfile(old(profileService.config), old(profileService.file), profile, ioFails)
      ensures !(end == Exited && hasChangedProfile) ==>
                profileService.config == old(profileService.config) && profileService.file == old(profileService.file)
    {
      ghost var store := Store();
      ghost var goal := RunSpec(State(), store, initialForm, script);
      var i := 0;
      while i < |script|
        invariant i <= |script|
        invariant profileService.config == old(profileService.config)
        invariant profileService.file == old(profileService.file)
        invariant goal == Shift(RunSpec(State(), store, initialForm, script[i..]), i)
      {
        assert Store() == store;
        assert script[i..][1..] == script[i + 1..];
        var stop := Step(initialForm, script[i], ioFails, script[i..]);
        if stop.Some? {
          assert goal == (State(), stop.value, i + 1);
          return stop.value, i + 1;
        }
        assert goal == Shift(RunSpec(State(), store, initialForm, script[i + 1..]), i + 1);
        i := i + 1;
      }
      return AwaitingInput, i;
    }

    /** Takes the first of the remaining turns: it stops the run, or leaves
        the rest of the run to the later turns. */
    method Step(initialForm: ProfileForm, t: Turn, ioFails: bool, ghost rest: seq<Turn>) returns (stop: Option<RunEnd>)
      requires rest != [] && rest[0] == t
      modifies this, profileService, loginService
      ensures stop.Some? ==> RunSpec(old(State()), old(Store()), initialForm, rest) == (State(), stop.value, 1)
      ensures stop.None? ==>
                RunSpec(old(State()), old(Store()), initialForm, rest) ==
                Shift(RunSpec(State(), old(Store()), initialForm, rest[1..]), 1)
      ensures stop == Some(Exited) && hasChangedProfile ==>
                (profileService.config, profileService.file) ==
                WriteProfile(old(profileService.config), old(profileService.file), profile, ioFails)
      ensures !(stop == Some(Exited) && hasChangedProfile) ==>
                profileService.config == old(profileService.config) && profileService.file == old(profileService.file)
    {
      ghost var before, store := State(), Store();
      stop := HandleTurn(initialForm, t, ioFails);
      RunSpecCons(before, store, initialForm, rest, State(), stop);
    }

    /** One pass of the menu loop. Only Exit touches the store. */
    method HandleTurn(initialForm: ProfileForm, t: Turn, ioFails: bool) returns (stop: Option<RunEnd>)
      modifies this, profileService, loginService
      ensures (State(), stop) == TurnSpec(old(State()), old(Store()), initialForm, t)
      ensures stop == Some(Exited) && hasChangedProfile ==>
                (profileService.config, profileService.file) ==
                WriteProfile(old(profileService.config), old(profileService.file), profile, ioFails)
      ensures !(stop == Some(Exited) && hasChangedProfile) ==>
                profileService.config == old(profileService.config) && profileService.file == old(profileService.file)
    {
      EnsureProfileLoaded(initialForm);
      ghost var loaded := State();
      assert loaded == Load(old(State()), old(Store()), initialForm);
      var choice := MenuLabel(t.action);
      MenuRoundTrip(t.action);
      match ParseUserAction(choice).value
      case Exit =>
        var _ := HandleExit(ioFails);
        stop := Some(Exited);
      case ChangeProfile =>
        HandleChangeProfile(t.form);
        stop := None;
      case LogInOrRetry =>
        var attempt := HandleLogin(t.statusPage, t.draw, t.portal);
        stop := if attempt.Aborted? then Some(Crashed(attempt.e)) else None;
    }

    method EnsureProfileLoaded(initialForm: ProfileForm)
        modifies this
      ensures State() == Load(old(State()), Store(), initialForm)
    {
      if !hasReadProfile {
        hasReadProfile := true;
        readCount := readCount + 1;
        var ok, read := profileService.TryReadProfile(profile);
        profile := read;
        if !ok {
          PromptForNewProfile(initialForm);
        }
      }
    }

    method PromptForNewProfile(form: ProfileForm)
      modifies this`profile, this`hasChangedProfile
      ensures profile == Answered(form) && hasChangedProfile
    {
      profile := CreateLoginProfile(form);
      hasChangedProfile := true;
    }

    method HandleChangeProfile(form: ProfileForm)
      modifies this`profile, this`hasChangedProfile
      ensures profile == Answered(form) && hasChangedProfile
    {
      profile := CreateLoginProfile(form);
      hasChangedProfile := true;
    }

    /** The carrier prompt yields the selected entry's label and the switch
        maps it back; the new profile holds that carrier with the account and
        password exactly as typed. */
    static method CreateLoginProfile(form: ProfileForm) returns (p: LoginProfile)
      ensures p.accountType == form.carrier
      ensures p.account == form.account && p.password == form.password
    {
      var entry := CarrierLabel(form.carrier);
      CarrierRoundTrip(form.carrier);
      var carrier := ParseCarrier(entry).value;
      p := LoginProfile(carrier, form.account, form.password);
    }

    /** Changes only the login service's chosen strategy: the profile, both
        flags and the counters are the same on every path. */
    method HandleLogin(statusPage: HttpReply, draw: nat, portal: string -> HttpReply) returns (a: Attempt)
      modifies loginService
      ensures State() == old(State())
      ensures a == AttemptSpec(profile, statusPage, draw, portal)
    {
      var ok, ip := loginService.TryGetIp(statusPage, "");
      if !ok {
        return IpUnavailable;
      }
      var r := loginService.TryLogin(profile, ip, draw, portal);
      match r
      case Threw(e) => a := Aborted(e);
      case Returned(success) => a := if success then LoggedIn else Rejected;
    }

    /** Saves only when the profile changed; a failed save is reported, not raised. */
    method HandleExit(ioFails: bool) returns (report: ExitReport)
      modifies this`writeCount, profileService
      ensures writeCount == old(writeCount) + if hasChangedProfile then 1 else 0
      ensures report == if !hasChangedProfile then NothingToSave else if ioFails then SaveFailed else SaveSucceeded
      ensures hasChangedProfile ==>
                (profileService.config, profileService.file) ==
                WriteProfile(old(profileService.config), old(profileService.file), profile, ioFails)
      ensures !hasChangedProfile ==>
                profileService.config == old(profileService.config) && profileService.file == old(profileService.file)
    {
      report := NothingToSave;
      if hasChangedProfile {
        var ok := SaveProfile(ioFails);
        report := if ok then SaveSucceeded else SaveFailed;
      }
    }

    method SaveProfile(ioFails: bool) returns (ok: bool)
      modifies this`writeCount, profileService
      ensures writeCount == old(writeCount) + 1 && ok == !ioFails
      ensures (profileService.config, profileService.file) ==
              WriteProfile(old(profileService.config), old(profileService.file), profile, ioFails)
    {
      writeCount := writeCount + 1;
      ok := profileService.TryWriteProfile(profile, ioFails);
    }
  }
}
