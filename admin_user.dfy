/** The single administrator account of the web admin (app/models/user.py): its user id is
    "1" and its name and password are the `ADMIN_USERNAME` and `ADMIN_PASSWORD` settings. */
module AdminUser {
  import opened Wrappers
  import opened Settings

  const AdminId: string := "1"
  const UsernameKey: string := "ADMIN_USERNAME"
  const PasswordKey: string := "ADMIN_PASSWORD"

  /** `password_hash` holds the configured password as it is, not a hash. */
  datatype User = User(id: string, username: Option<string>, passwordHash: Option<string>)

  /** `config.get(key)`: None for a missing key. */
  function Lookup(config: Config, key: string): (v: Option<string>)
    ensures v.Some? <==> key in config
    ensures v.Some? ==> v.value == config[key]
  {
    if key in config then Some(config[key]) else None
  }

  /** The account described by the settings. */
  function Admin(config: Config): (u: User)
    ensures u.id == AdminId
  {
    User(AdminId, Lookup(config, UsernameKey), Lookup(config, PasswordKey))
  }

  /** `User.get(user_id)` (lines 12-23): the session loader knows only user "1", and only while
      a non-empty administrator name is configured. */
  function Get(config: Config, userId: string): (u: Option<User>)
    ensures u.Some? <==> userId == AdminId && Setting(config, UsernameKey) != ""
    ensures u.Some? ==> u.value == User(AdminId, Some(config[UsernameKey]), Lookup(config, PasswordKey))
  {
    if userId == AdminId && Lookup(config, UsernameKey).Some? && Lookup(config, UsernameKey).value != "" then
      Some(Admin(config))
    else None
  }

  /** `User.authenticate(username, password)` (lines 25-38). A form field that was not sent is
      None, and so is a setting that is missing: equality of the two optional values decides. */
  function Authenticate(config: Config, username: Option<string>, password: Option<string>): (u: Option<User>)
    ensures u.Some? <==> username == Lookup(config, UsernameKey) && password == Lookup(config, PasswordKey)
    ensures u.Some? ==> u.value == User(AdminId, username, password)
  {
    if username == Lookup(config, UsernameKey) && password == Lookup(config, PasswordKey) then
      Some(Admin(config))
    else None
  }

  /** With a name and a password configured, exactly that pair is accepted. */
  lemma ConfiguredPairOnly(config: Config, username: string, password: string)
    requires UsernameKey in config && PasswordKey in config
    ensures Authenticate(config, Some(username), Some(password)).Some?
      <==> username == config[UsernameKey] && password == config[PasswordKey]
  {
  }

  /** With neither setting present, a login request that sends neither field is accepted. */
  lemma MissingSettingsAcceptEmptyForm(config: Config)
    requires UsernameKey !in config && PasswordKey !in config
    ensures Authenticate(config, None, None) == Some(User(AdminId, None, None))
    ensures forall name :: Authenticate(config, Some(name), None).None?
  {
  }

  /** An accepted login yields a user the session loader finds again, as long as the name is
      not empty. */
  lemma AuthenticatedUserReloads(config: Config, username: Option<string>, password: Option<string>)
    requires Authenticate(config, username, password).Some?
    ensures var u := Authenticate(config, username, password).value;
      Get(config, u.id) == (if username.Some? && username.value != "" then Some(u) else None)
  {
  }
}
