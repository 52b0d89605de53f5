/** The settings dictionary of the subscription tracker (app/services/config_service.py), as
    the notification service and the admin account read it. */
module Settings {
  /** The configuration dictionary, with the string values it holds. */
  type Config = map<string, string>

  /** `config.get(key, '')` */
  function Setting(config: Config, key: string): string
  {
    if key in config then config[key] else ""
  }
}
