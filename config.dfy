/**
 * pkg/config: the crawler's settings, read from the environment with a
 * default for every value that is missing or does not parse. The
 * environment is a map from variable names to values; strconv.Atoi is
 * modelled as Go's base-10 parser for a 64-bit `int`.
 */
module Config {
  import opened Wrappers
  import Models

  // pkg/config/constants.go
  const KeyWebPage: string := "TICK_MESSAGE"
  const KeyWorkers: string := "TOCK_MESSAGE"
  const DefaultWebPage: string := "example.com"
  const DefaultWorkers: int := 5

  /** The range of Go's `int` on a 64-bit platform. */
  const MinInt: int := -0x8000_0000_0000_0000
  const MaxInt: int := 0x7FFF_FFFF_FFFF_FFFF

  type Env = map<string, string>

  /** os.Getenv: an unset variable reads as the empty string. */
  function Getenv(env: Env, key: string): string {
    if key in env then env[key] else ""
  }

  predicate IsDigit(c: char) {
    '0' <= c <= '9'
  }

  predicate AllDigits(s: string) {
    forall i :: 0 <= i < |s| ==> IsDigit(s[i])
  }

  /** The digits of `s` after one optional leading sign. */
  function Unsigned(s: string): string {
    if |s| > 0 && (s[0] == '+' || s[0] == '-') then s[1..] else s
  }

  /** The syntax strconv.Atoi accepts: an optional sign followed by one or more decimal digits. */
  predicate IsDecimal(s: string) {
    |Unsigned(s)| > 0 && AllDigits(Unsigned(s))
  }

  /** The value of a string of decimal digits, most significant first. */
  function DigitsValue(s: string): nat
    requires AllDigits(s)
  {
    if s == [] then 0 else 10 * DigitsValue(s[..|s| - 1]) + (s[|s| - 1] as int - '0' as int)
  }

  /** strconv.Atoi: None where Go returns a syntax or range error. */
  function Atoi(s: string): (r: Option<int>)
    ensures r.Some? ==> IsDecimal(s) && MinInt <= r.value <= MaxInt
    ensures r.Some? ==> r.value == if s[0] == '-' then -(DigitsValue(Unsigned(s)) as int) else DigitsValue(Unsigned(s))
    ensures IsDecimal(s) && MinInt <= (if s[0] == '-' then -(DigitsValue(Unsigned(s)) as int) else DigitsValue(Unsigned(s))) <= MaxInt ==> r.Some?
  {
    if |s| == 0 then None
    else
      var neg := s[0] == '-';
      var body := if s[0] == '+' || s[0] == '-' then s[1..] else s;
      if |body| == 0 || !AllDigits(body) then None
      else
        var v := if neg then -(DigitsValue(body) as int) else DigitsValue(body);
        if MinInt <= v <= MaxInt then Some(v) else None
  }

  function DigitChar(d: nat): (c: char)
    requires d < 10
    ensures IsDigit(c) && c as int - '0' as int == d
  {
    ('0' as int + d) as char
  }

  /** The shortest decimal spelling of `n`. */
  function NatDigits(n: nat): (s: string)
    ensures |s| > 0 && AllDigits(s) && DigitsValue(s) == n
  {
    if n < 10 then [DigitChar(n)]
    else
      var s := NatDigits(n / 10) + [DigitChar(n % 10)];
      assert s[..|s| - 1] == NatDigits(n / 10);
      s
  }

  /** strconv.Itoa, a reference spelling of an integer used to state what Atoi accepts. */
  function Itoa(n: int): string {
    if n < 0 then "-" + NatDigits(-n) else NatDigits(n)
  }

  /** Atoi reads back every integer in range from its decimal spelling, zero and negative ones included. */
  lemma AtoiItoa(n: int)
    requires MinInt <= n <= MaxInt
    ensures Atoi(Itoa(n)) == Some(n)
  {
    var s := Itoa(n);
    if n < 0 {
      assert s[1..] == NatDigits(-n);
    } else {
      assert IsDigit(s[0]);
    }
  }

  /** Inputs strconv.Atoi rejects. */
  lemma AtoiRejects()
    ensures Atoi("") == None && Atoi("+") == None && Atoi("-") == None
    ensures Atoi("not_an_integer") == None
    ensures Atoi(" 42") == None && Atoi("4 2") == None
  {
    assert !IsDigit(' ');
    assert !IsDigit('n');
    assert !AllDigits("4 2") by { assert !IsDigit("4 2"[1]); }
  }

  /** Atoi rejects the spelling of every integer outside the 64-bit range. */
  lemma AtoiOutOfRange(n: int)
    requires n < MinInt || MaxInt < n
    ensures Atoi(Itoa(n)) == None
  {
    var s := Itoa(n);
    if n < 0 {
      assert s[1..] == NatDigits(-n);
    } else {
      assert IsDigit(s[0]);
    }
  }

  /** getStringVal: the environment value, or the default when that is empty. */
  function GetStringVal(env: Env, key: string, def: string): (r: string)
    ensures Getenv(env, key) == "" ==> r == def
    ensures Getenv(env, key) != "" ==> r == Getenv(env, key)
    ensures r == "" ==> def == ""
  {
    var val := Getenv(env, key);
    if val == "" then def else val
  }

  /** getIntValue: the integer the environment value spells, or the default when it is empty or not an integer. */
  function GetIntValue(env: Env, key: string, def: int): (r: int)
    ensures r == def || Atoi(Getenv(env, key)) == Some(r)
    ensures !IsDecimal(Getenv(env, key)) ==> r == def
    ensures Atoi(Getenv(env, key)).Some? ==> r == Atoi(Getenv(env, key)).value
  {
    var val := Getenv(env, key);
    if val == "" then def
    else
      match Atoi(val)
      case None => def
      case Some(n) => n
  }

  /** Any in-range integer spelled in the environment is used as is; there is no range check of its own. */
  lemma GetIntValueUsesSpelledInteger(env: Env, key: string, def: int, n: int)
    requires MinInt <= n <= MaxInt
    requires key in env && env[key] == Itoa(n)
    ensures GetIntValue(env, key, def) == n
  {
    AtoiItoa(n);
  }

  /** The getIntValue and getStringVal cases of config_test.go's TestConfig. */
  lemma GetValueTestCases()
    ensures GetStringVal(map["EXISTING_KEY" := "existing_value"], "EXISTING_KEY", "default_value") == "existing_value"
    ensures GetStringVal(map["MISSING_KEY" := ""], "MISSING_KEY", "default_value") == "default_value"
    ensures GetIntValue(map["EXISTING_INT_KEY" := "42"], "EXISTING_INT_KEY", 24) == 42
    ensures GetIntValue(map["INVALID_INT_KEY" := "not_an_integer"], "INVALID_INT_KEY", 24) == 24
    ensures GetIntValue(map["MISSING_INT_KEY" := ""], "MISSING_INT_KEY", 24) == 24
    ensures GetIntValue(map["K" := "0"], "K", 24) == 0
    ensures GetIntValue(map["K" := "-3"], "K", 24) == -3
  {
    AtoiRejects();
    assert DigitsValue("42") == 42;
    assert DigitsValue("3") == 3;
  }

  /** The config struct: holds one models.Config. */
  datatype ConfigHolder = ConfigHolder(cfg: Models.Config) {

    /** GetConfig: the stored configuration. */
    function GetConfig(): (c: Models.Config)
      ensures c == cfg
    {
      cfg
    }
  }

  /**
   * NewConfig: the web page from TICK_MESSAGE (default "example.com") and the
   * worker count from TOCK_MESSAGE (default 5). The queue size reads a
   * constant `detaultQueueSize` that constants.go does not define; its value
   * is a parameter here.
   */
  function NewConfig(env: Env, detaultQueueSize: int): (c: ConfigHolder)
    ensures c.cfg.wepPage == GetStringVal(env, KeyWebPage, DefaultWebPage)
    ensures c.cfg.workers == GetIntValue(env, KeyWorkers, DefaultWorkers)
    ensures c.cfg.queueSize == detaultQueueSize
  {
    var wepPage := GetStringVal(env, KeyWebPage, DefaultWebPage);
    var workers := GetIntValue(env, KeyWorkers, DefaultWorkers);
    ConfigHolder(Models.Config(workers, wepPage, detaultQueueSize))
  }

  /** The three cases of config_test.go's TestNewConfig and TestGetConfig. */
  lemma NewConfigTestCases(q: int)
    ensures var c := NewConfig(map[KeyWebPage := "https://example.com", KeyWorkers := "5"], q).GetConfig();
            c.wepPage == "https://example.com" && c.workers == 5
    ensures var c := NewConfig(map[KeyWebPage := "", KeyWorkers := ""], q).GetConfig();
            c.wepPage == DefaultWebPage && c.workers == DefaultWorkers
    ensures var c := NewConfig(map[KeyWebPage := "https://example.com", KeyWorkers := "invalid"], q).GetConfig();
            c.wepPage == "https://example.com" && c.workers == DefaultWorkers
  {
    assert DigitsValue("5") == 5;
    assert !IsDigit('i');
  }
}
