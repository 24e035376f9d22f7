/**
 * Startup configuration: the four values read from the environment and the
 * check that stops the program when a required one is empty.
 */
module Config {
  import opened Wrappers

  const UsernameKey: string := "GITHUB_USERNAME"
  const GitHubTokenKey: string := "GITHUB_TOKEN"
  const TelegramTokenKey: string := "TELEGRAM_TOKEN"
  const ChatIdKey: string := "TELEGRAM_CHAT_ID"

  /** The text of the fatal log line written when a required value is missing. */
  const MissingConfigMessage: string :=
    "Please set the environment variables: GITHUB_USERNAME, TELEGRAM_TOKEN, and TELEGRAM_CHAT_ID"

  /** The process-wide configuration, fixed once startup has passed. */
  datatype Config = Config(githubUsername: string, githubToken: string, telegramToken: string, chatID: string)

  /** A configuration the program may run with: every required value is present. */
  predicate Valid(cfg: Config)
  {
    cfg.githubUsername != "" && cfg.telegramToken != "" && cfg.chatID != ""
  }

  /** `os.Getenv`: an unset variable reads as the empty string. */
  function Getenv(env: map<string, string>, key: string): string
  {
    if key in env then env[key] else ""
  }

  /**
   * Read the configuration from the (already `.env`-augmented) environment.
   * Startup fails exactly when the username, the Telegram token or the chat
   * ID is empty; the GitHub token may be empty.
   */
  function LoadConfig(env: map<string, string>): (r: Result<Config, string>)
    ensures r.Failure? <==>
      Getenv(env, UsernameKey) == "" || Getenv(env, TelegramTokenKey) == "" || Getenv(env, ChatIdKey) == ""
    ensures r.Failure? ==> r.error == MissingConfigMessage
    ensures r.Success? ==> Valid(r.value)
    ensures r.Success? ==>
      && r.value.githubUsername == Getenv(env, UsernameKey)
      && r.value.githubToken == Getenv(env, GitHubTokenKey)
      && r.value.telegramToken == Getenv(env, TelegramTokenKey)
      && r.value.chatID == Getenv(env, ChatIdKey)
  {
    var githubUsername := Getenv(env, UsernameKey);
    var githubToken := Getenv(env, GitHubTokenKey);
    var telegramToken := Getenv(env, TelegramTokenKey);
    var chatID := Getenv(env, ChatIdKey);
    if githubUsername == "" || telegramToken == "" || chatID == "" then
      Failure(MissingConfigMessage)
    else
      Success(Config(githubUsername, githubToken, telegramToken, chatID))
  }

  /** The GitHub token is optional: whatever it is set to, or if it is unset, startup is accepted or rejected alike. */
  lemma GitHubTokenNeverRejects(env: map<string, string>, token: string)
    ensures LoadConfig(env[GitHubTokenKey := token]).Failure? == LoadConfig(env).Failure?
    ensures LoadConfig(env - {GitHubTokenKey}).Failure? == LoadConfig(env).Failure?
  {
  }
}
