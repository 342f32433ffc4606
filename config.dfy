/**
 * Configuration loading (backend/internal/config/config.go): every field
 * is an environment variable with a fallback; numeric fields fall back
 * when the value does not parse. The environment is a map from variable
 * to value; a variable that is set to "" is present in it.
 */
module Config {
  import opened Wrappers
  import Decimal

  type Env = map<string, string>

  const MinInt64: int := -0x8000_0000_0000_0000
  const MaxInt64: int := 0x7FFF_FFFF_FFFF_FFFF

  /** time.Duration values, in nanoseconds. */
  const Second: int := 1_000_000_000
  const Minute: int := 60 * Second

  /** `strconv.Atoi` on a 64-bit platform: an optional sign, then one or more decimal digits, within int64. */
  function Atoi(s: string): (r: Option<int>)
    ensures r.Some? ==> MinInt64 <= r.value <= MaxInt64
    ensures r.Some? ==> |s| > 0 && (Decimal.IsDigit(s[0]) || s[0] == '-' || s[0] == '+')
  {
    var signed := |s| > 0 && (s[0] == '-' || s[0] == '+');
    var digits := if signed then s[1..] else s;
    if |digits| == 0 || !Decimal.AllDigits(digits) then None
    else
      var magnitude: int := Decimal.DigitsValue(digits);
      var v := if signed && s[0] == '-' then -magnitude else magnitude;
      if MinInt64 <= v <= MaxInt64 then Some(v) else None
  }

  /** Atoi reads back the decimal text of every int64. */
  lemma AtoiShowRoundTrip(n: int)
    requires MinInt64 <= n <= MaxInt64
    ensures Atoi(Decimal.Show(n)) == Some(n)
  {
    var s := Decimal.Show(n);
    if n >= 0 {
      Decimal.ShowNatValue(n);
      assert !Decimal.IsDigit('-') && !Decimal.IsDigit('+');
    } else {
      Decimal.ShowNatValue(-n);
      assert s[1..] == Decimal.ShowNat(-n);
    }
  }

  /** Empty text, a bare sign and a stray character are rejected. */
  lemma AtoiRejects(s: string)
    ensures Atoi("") == None && Atoi("-") == None && Atoi("+") == None
    ensures (exists i :: 1 <= i < |s| && !Decimal.IsDigit(s[i])) ==> Atoi(s) == None
  {
    if exists i :: 1 <= i < |s| && !Decimal.IsDigit(s[i]) {
      var i :| 1 <= i < |s| && !Decimal.IsDigit(s[i]);
      if |s| > 0 && (s[0] == '-' || s[0] == '+') {
        assert s[1..][i - 1] == s[i];
      }
    }
  }

  /** getEnv: the value whenever the variable is set, even to "", else the fallback. */
  function GetEnv(env: Env, key: string, fallback: string): (r: string)
    ensures key in env ==> r == env[key]
    ensures key !in env ==> r == fallback
  {
    if key in env then env[key] else fallback
  }

  /** getEnvInt: the parsed value when the variable is set and parses, else the fallback. */
  function GetEnvInt(env: Env, key: string, fallback: int): (r: int)
    ensures key in env && Atoi(env[key]).Some? ==> r == Atoi(env[key]).value
    ensures key !in env || Atoi(env[key]).None? ==> r == fallback
  {
    if key in env && Atoi(env[key]).Some? then Atoi(env[key]).value else fallback
  }

  datatype ServerConfig = ServerConfig(port: string, readTimeout: int, writeTimeout: int)
  datatype RedisConfig = RedisConfig(host: string, port: string, poolSize: int, minIdleConns: int)
  datatype DatabaseConfig = DatabaseConfig(host: string, port: string, name: string, user: string, password: string,
                                           maxOpenConns: int, maxIdleConns: int)
  datatype WorkerConfig = WorkerConfig(numWorkers: int, maxRetries: int, jobTimeout: int)
  datatype LlmConfig = LlmConfig(provider: string, apiKey: string, model: string, maxTokens: int)
  datatype Config = Config(server: ServerConfig, redis: RedisConfig, database: DatabaseConfig,
                           worker: WorkerConfig, llm: LlmConfig)

  /** Load */
  function Load(env: Env): Config {
    Config(
      ServerConfig(GetEnv(env, "SERVER_PORT", "8080"), 30 * Second, 30 * Second),
      RedisConfig(GetEnv(env, "REDIS_HOST", "localhost"), GetEnv(env, "REDIS_PORT", "6379"),
                  GetEnvInt(env, "REDIS_POOL_SIZE", 100), GetEnvInt(env, "REDIS_MIN_IDLE_CONNS", 10)),
      DatabaseConfig(GetEnv(env, "DB_HOST", "localhost"), GetEnv(env, "DB_PORT", "5432"),
                     GetEnv(env, "DB_NAME", "workflow_db"), GetEnv(env, "DB_USER", "postgres"),
                     GetEnv(env, "DB_PASSWORD", "postgres"),
                     GetEnvInt(env, "DB_MAX_OPEN_CONNS", 50), GetEnvInt(env, "DB_MAX_IDLE_CONNS", 25)),
      WorkerConfig(GetEnvInt(env, "WORKER_POOL_SIZE", 10), GetEnvInt(env, "WORKER_MAX_RETRIES", 3), 5 * Minute),
      LlmConfig(GetEnv(env, "LLM_PROVIDER", "openai"), GetEnv(env, "LLM_API_KEY", ""),
                GetEnv(env, "LLM_MODEL", "gpt-4"), GetEnvInt(env, "LLM_MAX_TOKENS", 4000)))
  }

  /** With nothing set, every field takes its default. */
  lemma LoadDefaults()
    ensures var c := Load(map[]);
      && c.server == ServerConfig("8080", 30_000_000_000, 30_000_000_000)
      && c.redis == RedisConfig("localhost", "6379", 100, 10)
      && c.database == DatabaseConfig("localhost", "5432", "workflow_db", "postgres", "postgres", 50, 25)
      && c.worker == WorkerConfig(10, 3, 300_000_000_000)
      && c.llm == LlmConfig("openai", "", "gpt-4", 4000)
  {
  }

  /** The timeouts do not depend on the environment. */
  lemma FixedTimeouts(env: Env)
    ensures Load(env).server.readTimeout == 30 * Second && Load(env).server.writeTimeout == 30 * Second
    ensures Load(env).worker.jobTimeout == 5 * Minute
  {
  }

  /** A set but empty SERVER_PORT is used as is; an unparsable pool size falls back to 100. */
  lemma SetButEmptyOrInvalid(env: Env)
    requires "SERVER_PORT" in env && env["SERVER_PORT"] == ""
    requires "REDIS_POOL_SIZE" in env && env["REDIS_POOL_SIZE"] == "lots"
    ensures Load(env).server.port == ""
    ensures Load(env).redis.poolSize == 100
  {
    assert !Decimal.IsDigit('l');
  }

  /** Any int64 written in decimal into WORKER_POOL_SIZE is the worker count. */
  lemma WorkerCountFromEnv(env: Env, n: int)
    requires MinInt64 <= n <= MaxInt64
    requires "WORKER_POOL_SIZE" in env && env["WORKER_POOL_SIZE"] == Decimal.Show(n)
    ensures Load(env).worker.numWorkers == n
  {
    AtoiShowRoundTrip(n);
  }
}
