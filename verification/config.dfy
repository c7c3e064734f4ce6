/**
 * `config/config.go`: settings read from the process environment with a
 * default for each, kept in one package-level instance.
 */
module Config {
  import opened Base
  import Strconv

  /** The process environment after `.env` has been loaded. */
  type Env = map<string, string>

  /** `os.Getenv`: the value, or the empty string for an unset variable. */
  function Getenv(env: Env, key: string): string {
    if key in env then env[key] else ""
  }

  /** `GetString`: the variable when it is set and non-empty, else the default. */
  function GetString(env: Env, key: string, defaultValue: string): (r: string)
    ensures Getenv(env, key) != "" ==> r == env[key]
    ensures Getenv(env, key) == "" ==> r == defaultValue
  {
    var value := Getenv(env, key);
    if value != "" then value else defaultValue
  }

  /** `GetInt`: the variable when it parses with `Atoi`, else the default. */
  function GetInt(env: Env, key: string, defaultValue: int): (r: int)
    ensures Strconv.Atoi(Getenv(env, key)).Ok? ==> r == Strconv.Atoi(env[key]).value
    ensures !Strconv.Atoi(Getenv(env, key)).Ok? ==> r == defaultValue
  {
    var value := Getenv(env, key);
    if value != "" then
      match Strconv.Atoi(value)
      case Ok(n) => n
      case Err(_) => defaultValue
    else defaultValue
  }

  /** `GetBool`: the variable when it parses with `ParseBool`, else the default. */
  function GetBool(env: Env, key: string, defaultValue: bool): (r: bool)
    ensures Strconv.ParseBool(Getenv(env, key)).Ok? ==> r == Strconv.ParseBool(env[key]).value
    ensures !Strconv.ParseBool(Getenv(env, key)).Ok? ==> r == defaultValue
  {
    var value := Getenv(env, key);
    if value != "" then
      match Strconv.ParseBool(value)
      case Ok(b) => b
      case Err(_) => defaultValue
    else defaultValue
  }

  /** A set variable that is not a number leaves the default in place. */
  lemma GetIntIgnoresGarbage(env: Env, key: string, defaultValue: int)
    requires key in env && env[key] == "24h"
    ensures GetInt(env, key, defaultValue) == defaultValue
  {
    assert !Strconv.AllDigits("24h") by { assert !Strconv.IsDigit("24h"[2]); }
  }

  /** The configuration record. */
  datatype Settings = Settings(
    Port: string, GinMode: string,
    DBHost: string, DBPort: string, DBUser: string, DBPassword: string, DBName: string, DBSSLMode: string,
    JWTSecret: string, JWTExpires: int,
    ChromaHost: string, ChromaPort: string, ChromaCollection: string,
    LLMAPIURL: string, LLMAPIKey: string, LLMModel: string,
    LogLevel: string, LogFile: string)

  const DefaultLLMAPIURL := "https://pictureai.pp.ua/v1beta/models/gemini-2.0-flash:generateContent"

  /**
   * The record `LoadConfig` builds. The default API key is a parameter:
   * the model does not reproduce the credential the source hard-codes.
   */
  function FromEnv(env: Env, defaultAPIKey: string): (c: Settings)
  {
    Settings(
      Port := GetString(env, "PORT", "8080"),
      GinMode := GetString(env, "GIN_MODE", "debug"),
      DBHost := GetString(env, "DB_HOST", "localhost"),
      DBPort := GetString(env, "DB_PORT", "5432"),
      DBUser := GetString(env, "DB_USER", "postgres"),
      DBPassword := GetString(env, "DB_PASSWORD", "password123"),
      DBName := GetString(env, "DB_NAME", "go_chat_db"),
      DBSSLMode := GetString(env, "DB_SSLMODE", "disable"),
      JWTSecret := GetString(env, "JWT_SECRET", "your_super_secret_jwt_key_change_this_in_production"),
      JWTExpires := GetInt(env, "JWT_EXPIRES_HOURS", 24),
      ChromaHost := GetString(env, "CHROMA_HOST", "chroma"),
      ChromaPort := GetString(env, "CHROMA_PORT", "8000"),
      ChromaCollection := GetString(env, "CHROMA_COLLECTION_NAME", "chat_memory"),
      LLMAPIURL := GetString(env, "LLM_API_URL", DefaultLLMAPIURL),
      LLMAPIKey := GetString(env, "LLM_API_KEY", defaultAPIKey),
      LLMModel := GetString(env, "LLM_MODEL", "gemini-2.0-flash"),
      LogLevel := GetString(env, "LOG_LEVEL", "info"),
      LogFile := GetString(env, "LOG_FILE", "logs/app.log"))
  }

  /** With nothing set, every field takes its default. */
  lemma EmptyEnvDefaults(defaultAPIKey: string)
    ensures var c := FromEnv(map[], defaultAPIKey);
      && c.Port == "8080" && c.GinMode == "debug"
      && c.DBHost == "localhost" && c.DBPort == "5432" && c.DBUser == "postgres"
      && c.DBPassword == "password123" && c.DBName == "go_chat_db" && c.DBSSLMode == "disable"
      && c.JWTExpires == 24
      && c.ChromaHost == "chroma" && c.ChromaPort == "8000" && c.ChromaCollection == "chat_memory"
      && c.LLMAPIURL == DefaultLLMAPIURL && c.LLMAPIKey == defaultAPIKey && c.LLMModel == "gemini-2.0-flash"
      && c.LogLevel == "info" && c.LogFile == "logs/app.log"
  {
    assert !Strconv.IsDecimalSyntax("");
  }

  /** A variable set to the empty string counts as unset. */
  lemma EmptyValueIsUnset(env: Env, defaultAPIKey: string)
    requires "PORT" in env && env["PORT"] == ""
    ensures FromEnv(env, defaultAPIKey).Port == "8080"
  {
  }

  /** The package-level `cfg` variable, nil until `LoadConfig` runs. */
  class Holder {
    var cfg: Option<Settings>

    constructor ()
      ensures Get() == None
    {
      cfg := None;
    }

    /** `LoadConfig`: replaces the instance by one built from the environment. */
    method LoadConfig(env: Env, defaultAPIKey: string)
      modifies this
      ensures Get() == Some(FromEnv(env, defaultAPIKey))
    {
      cfg := Some(FromEnv(env, defaultAPIKey));
    }

    /** `Get`: the instance last stored. */
    function Get(): Option<Settings>
      reads this
    {
      cfg
    }
  }
}
