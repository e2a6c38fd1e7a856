/** The profile store (ProfileService.cs): a login profile kept as three keys
    of an application-settings map, read with a strict carrier name and
    lenient account and password, and written back key by key or, when no
    configuration file exists yet, as a freshly generated file. */
module Profiles {
  import opened Platform

  datatype AccountType = ChinaTelecom | ChinaMobile | ChinaUnicom | Suda

  /** The login profile, a value type: callers receive copies. */
  datatype LoginProfile = LoginProfile(accountType: AccountType, account: string, password: string)

  /** `default(LoginProfile)`; the null strings of the default value are read as "". */
  const DefaultProfile := LoginProfile(ChinaTelecom, "", "")

  type Settings = map<string, string>

  const AccountKey: string := "Account"
  const AccountTypeKey: string := "AccountType"
  const PasswordKey: string := "Password"

  /** `AccountType.ToString()`. */
  function AccountTypeName(t: AccountType): string {
    match t
    case ChinaTelecom => "ChinaTelecom"
    case ChinaMobile => "ChinaMobile"
    case ChinaUnicom => "ChinaUnicom"
    case Suda => "Suda"
  }

  /** The carrier switch of TryReadProfile; None on its throwing default
      branch, whose exception TryReadProfile catches. It accepts exactly the
      enum names. */
  function ParseAccountType(name: string): (t: Option<AccountType>)
    ensures t.Some? ==> AccountTypeName(t.value) == name
    ensures t.None? ==> forall a :: AccountTypeName(a) != name
  {
    if name == "ChinaTelecom" then Some(ChinaTelecom)
    else if name == "ChinaMobile" then Some(ChinaMobile)
    else if name == "ChinaUnicom" then Some(ChinaUnicom)
    else if name == "Suda" then Some(Suda)
    else None
  }

  /** The value stored under `key`, or the default when there is no
      configuration or no such key. */
  function GetConfigValue(config: Option<Settings>, key: string, default: string): (v: string)
    ensures config.Some? && key in config.value ==> v == config.value[key]
    ensures config.None? || key !in config.value ==> v == default
  {
    if config.Some? && key in config.value then config.value[key] else default
  }

  /** What TryReadProfile reports and leaves in its `ref` argument. The fields
      are assigned one by one, so a bad carrier name leaves the new account in
      place while the carrier and password keep their old values. */
  function ReadProfile(config: Option<Settings>, fileExists: bool, profile: LoginProfile): (r: (bool, LoginProfile))
    ensures config.None? || !fileExists ==> r == (false, profile)
    ensures r.0 <==> config.Some? && fileExists && AccountTypeKey in config.value &&
                     ParseAccountType(config.value[AccountTypeKey]).Some?
    ensures r.0 ==> r.1 == LoginProfile(ParseAccountType(config.value[AccountTypeKey]).value,
                                        GetConfigValue(config, AccountKey, ""),
                                        GetConfigValue(config, PasswordKey, ""))
    ensures !r.0 ==> r.1.accountType == profile.accountType && r.1.password == profile.password
    ensures config.Some? && fileExists ==> r.1.account == GetConfigValue(config, AccountKey, "")
  {
    if config.None? || !fileExists then (false, profile)
    else
      var withAccount := profile.(account := GetConfigValue(config, AccountKey, ""));
      match ParseAccountType(GetConfigValue(config, AccountTypeKey, ""))
      case None => (false, withAccount)
      case Some(t) => (true, withAccount.(accountType := t, password := GetConfigValue(config, PasswordKey, "")))
  }

  /** The settings after the three SetConfigValue calls of TryWriteProfile. */
  function WriteSettings(settings: Settings, profile: LoginProfile): (r: Settings)
    ensures r.Keys == settings.Keys + {AccountKey, AccountTypeKey, PasswordKey}
    ensures r[AccountKey] == profile.account && r[PasswordKey] == profile.password
    ensures r[AccountTypeKey] == AccountTypeName(profile.accountType)
    ensures forall k :: k in settings && k != AccountKey && k != AccountTypeKey && k != PasswordKey ==>
                        r[k] == settings[k]
  {
    settings[AccountKey := profile.account]
            [AccountTypeKey := AccountTypeName(profile.accountType)]
            [PasswordKey := profile.password]
  }

  /** Writing a profile into the settings and reading it back gives it back,
      whatever the reader's target held before. */
  lemma WriteThenRead(settings: Settings, profile: LoginProfile, target: LoginProfile)
    ensures ReadProfile(Some(WriteSettings(settings, profile)), true, target) == (true, profile)
  {
    var written := WriteSettings(settings, profile);
    assert ParseAccountType(written[AccountTypeKey]) == Some(profile.accountType);
  }

  const ConfigHeader: string :=
    "<?xml version=\"1.0\" encoding=\"utf-8\" ?>\n<configuration>\n  <appSettings>\n"
  const ConfigFooter: string := "  </appSettings>\n</configuration>"

  function AddEntry(key: string, value: string): string {
    "    <add key=\"" + key + "\" value=\"" + value + "\" />\n"
  }

  /** The text CreateProfile writes: the fixed template with Account,
      AccountType and Password in that order, each value interpolated as it
      is, without escaping. */
  function ConfigText(profile: LoginProfile): (text: string)
    ensures |text| == |ConfigHeader| + |ConfigFooter| + 3 * |AddEntry("", "")| +
                      |AccountKey| + |AccountTypeKey| + |PasswordKey| +
                      |profile.account| + |AccountTypeName(profile.accountType)| + |profile.password|
    ensures text[..|ConfigHeader|] == ConfigHeader
    ensures text[|text| - |ConfigFooter|..] == ConfigFooter
  {
    ConfigHeader
      + AddEntry(AccountKey, profile.account)
      + AddEntry(AccountTypeKey, AccountTypeName(profile.accountType))
      + AddEntry(PasswordKey, profile.password)
      + ConfigFooter
  }

  /** The state of Login.config on disk. */
  datatype ConfigFile =
    | Missing
    | Existing                      // present from an earlier run; its text is not modelled
    | Created(text: string)         // written by CreateProfile
    | Saved(settings: Settings)     // written by Configuration.Save

  class ProfileService {
    /** The application settings of the opened configuration; None when
        opening it threw. */
    var config: Option<Settings>
    var file: ConfigFile

    /** Opening the configuration happens in the constructor; whether it
        succeeded and what it holds are inputs. */
    constructor (config: Option<Settings>, file: ConfigFile)
      ensures this.config == config && this.file == file
    {
      this.config := config;
      this.file := file;
    }

    function FileExists(): bool
      reads this
    {
      !file.Missing?
    }

    method TryReadProfile(profile: LoginProfile) returns (ok: bool, profile': LoginProfile)
      ensures (ok, profile') == ReadProfile(config, FileExists(), profile)
    {
      if config.None? || !FileExists() {
        return false, profile;
      }
      profile' := profile;
      profile' := profile'.(account := GetConfigValue(config, AccountKey, ""));
      var t := ParseAccountType(GetConfigValue(config, AccountTypeKey, ""));
      if t.None? {
        return false, profile';   // the switch threw; caught
      }
      profile' := profile'.(accountType := t.value);
      profile' := profile'.(password := GetConfigValue(config, PasswordKey, ""));
      ok := true;
    }

    /** Adds the key when it is absent and updates it otherwise. */
    method SetConfigValue(key: string, value: string)
      requires config.Some?
      modifies this`config
      ensures config == Some(old(config.value)[key := value])
    {
      config := Some(config.value[key := value]);
    }

    /** `ioFails` says whether the file write (File.WriteAllText or
        Configuration.Save) throws; every exception is caught and reported as
        false. */
    method TryWriteProfile(profile: LoginProfile, ioFails: bool) returns (ok: bool)
      modifies this
      ensures ok == !ioFails
      ensures (config, file) == WriteProfile(old(config), old(file), profile, ioFails)
    {
      if config.None? || !FileExists() {
        // CreateProfile
        if ioFails {
          return false;
        }
        file := Created(ConfigText(profile));
        return true;
      }
      SetConfigValue(AccountKey, profile.account);
      SetConfigValue(AccountTypeKey, AccountTypeName(profile.accountType));
      SetConfigValue(PasswordKey, profile.password);
      assert config.value == WriteSettings(old(config.value), profile);
      if ioFails {
        return false;
      }
      file := Saved(config.value);
      ok := true;
    }
  }

  /** The configuration and file after TryWriteProfile. Without a
      configuration or file it takes the CreateProfile path and leaves the
      configuration alone; otherwise it updates the three keys in memory, and
      then saves them unless the save throws. */
  function WriteProfile(config: Option<Settings>, file: ConfigFile, profile: LoginProfile, ioFails: bool)
    : (r: (Option<Settings>, ConfigFile))
    ensures config.None? || file.Missing? ==>
              r.0 == config && r.1 == if ioFails then file else Created(ConfigText(profile))
    ensures config.Some? && !file.Missing? ==> r.0 == Some(WriteSettings(config.value, profile))
    ensures config.Some? && !file.Missing? ==>
              r.0.Some? && ReadProfile(r.0, true, DefaultProfile) == (true, profile) &&
              r.1 == if ioFails then file else Saved(r.0.value)
  {
    if config.None? || file.Missing? then
      (config, if ioFails then file else Created(ConfigText(profile)))
    else
      var settings := WriteSettings(config.value, profile);
      WriteThenRead(config.value, profile, DefaultProfile);
      (Some(settings), if ioFails then file else Saved(settings))
  }
}
