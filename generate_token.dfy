/**
 * The token script emvr/deployment/scripts/generate_token.py: `load_env`, the `.env`
 * parser, and what `generate_token` signs: the secret it picks and the payload.
 *
 * The file's lines, the process environment, the clock and the JWT encoder are
 * parameters. Times are whole seconds.
 */
module GenerateToken {
  import opened Outcomes
  import opened Text

  /** What one line of the file contributes. */
  datatype Line = Skip | Pair(key: string, value: string) | Malformed

  /** What `line.strip()` followed by the skip test and `line.split("=", 1)` make of a line. */
  function Classify(raw: string): Line
  {
    var line := Strip(raw);
    if line == [] || StartsWith(line, "#") then Skip
    else match SplitFirst(line, '=')
      case None => Malformed
      case Some((key, value)) => Pair(key, value)
  }

  /**
   * A stripped line that is empty or starts with "#" is skipped; any other is split at its
   * first "=", so the value keeps later "=" and neither side is trimmed further; a line
   * without "=" fails the two-way unpacking.
   */
  lemma ClassifyFacts(raw: string)
    ensures var line := Strip(raw);
            var l := Classify(raw);
            && (l.Skip? <==> line == [] || StartsWith(line, "#"))
            && (l.Pair? ==> '=' !in l.key && line == l.key + "=" + l.value)
            && (l.Malformed? <==> line != [] && !StartsWith(line, "#") && '=' !in line)
  {
  }

  const UnpackError: string := "not enough values to unpack (expected 2, got 1)"

  /** The classification of every line, in order. */
  function ClassifyAll(lines: seq<string>): (ls: seq<Line>)
    ensures |ls| == |lines|
  {
    if lines == [] then [] else [Classify(lines[0])] + ClassifyAll(lines[1..])
  }

  lemma {:induction false} ClassifyAllAt(lines: seq<string>, i: nat)
    requires i < |lines|
    ensures ClassifyAll(lines)[i] == Classify(lines[i])
    decreases i
  {
    if i > 0 {
      ClassifyAllAt(lines[1..], i - 1);
    }
  }

  /** The variables the classified lines define, or the ValueError of a malformed one. */
  function EnvFold(ls: seq<Line>): Result<map<string, string>>
  {
    if ls == [] then Ok(map[])
    else match EnvFold(ls[..|ls| - 1])
      case Err(e) => Err(e)
      case Ok(env) =>
        match ls[|ls| - 1]
        case Skip => Ok(env)
        case Pair(key, value) => Ok(env[key := value])
        case Malformed => Err(UnpackError)
  }

  /** The variables of a file's lines. */
  function EnvOf(lines: seq<string>): Result<map<string, string>>
  {
    EnvFold(ClassifyAll(lines))
  }

  /** `load_env`: a missing file (None) gives no variables. */
  function LoadEnvSpec(file: Option<seq<string>>): (r: Result<map<string, string>>)
    ensures file.None? ==> r == Ok(map[])
  {
    match file
    case None => Ok(map[])
    case Some(lines) => EnvOf(lines)
  }

  /** Line `i` assigns `key`. */
  predicate Assigns(ls: seq<Line>, i: int, key: string)
    requires 0 <= i < |ls|
  {
    ls[i].Pair? && ls[i].key == key
  }

  /** Reading fails exactly when some line is malformed, and then with the unpacking error. */
  lemma {:induction false} EnvFoldFails(ls: seq<Line>)
    ensures EnvFold(ls).Err? <==> exists i :: 0 <= i < |ls| && ls[i].Malformed?
    ensures EnvFold(ls).Err? ==> EnvFold(ls).error == UnpackError
    decreases |ls|
  {
    if ls != [] {
      var init := ls[..|ls| - 1];
      EnvFoldFails(init);
      if exists i :: 0 <= i < |init| && init[i].Malformed? {
        var i :| 0 <= i < |init| && init[i].Malformed?;
        assert ls[i] == init[i];
      }
      if exists i :: 0 <= i < |ls| && ls[i].Malformed? {
        var i :| 0 <= i < |ls| && ls[i].Malformed?;
        if i < |init| {
          assert init[i] == ls[i];
        }
      }
    }
  }

  /**
   * A variable is defined exactly when some line assigns it, and it holds the value of the
   * last such line: a later assignment overwrites an earlier one.
   */
  lemma {:induction false} EnvFoldLastWins(ls: seq<Line>, key: string)
    requires EnvFold(ls).Ok?
    ensures key in EnvFold(ls).value <==> exists i :: 0 <= i < |ls| && Assigns(ls, i, key)
    ensures forall i :: 0 <= i < |ls| && Assigns(ls, i, key)
                        && (forall j :: i < j < |ls| ==> !Assigns(ls, j, key)) ==>
                          key in EnvFold(ls).value && EnvFold(ls).value[key] == ls[i].value
    decreases |ls|
  {
    if ls != [] {
      var n := |ls| - 1;
      var init := ls[..n];
      assert EnvFold(init).Ok?;
      EnvFoldLastWins(init, key);
      var env := EnvFold(init).value;
      forall i | 0 <= i < n
        ensures Assigns(ls, i, key) == Assigns(init, i, key)
      {
        assert ls[i] == init[i];
      }
      if Assigns(ls, n, key) {
        assert EnvFold(ls).value == env[key := ls[n].value];
      } else {
        assert key in EnvFold(ls).value <==> key in env;
        if key in env {
          assert EnvFold(ls).value[key] == env[key];
          var i :| 0 <= i < n && Assigns(init, i, key);
          assert Assigns(ls, i, key);
        }
        if exists i :: 0 <= i < |ls| && Assigns(ls, i, key) {
          var i :| 0 <= i < |ls| && Assigns(ls, i, key);
          assert Assigns(init, i, key);
        }
      }
    }
  }

  /** Once a prefix fails, so does the whole file, with the same error. */
  lemma {:induction false} EnvFoldPrefixFails(ls: seq<Line>, k: nat)
    requires k <= |ls| && EnvFold(ls[..k]).Err?
    ensures EnvFold(ls) == EnvFold(ls[..k])
    decreases |ls| - k
  {
    if k < |ls| {
      assert ls[..k + 1][..k] == ls[..k];
      EnvFoldPrefixFails(ls, k + 1);
    } else {
      assert ls[..k] == ls;
    }
  }

  /**
   * Over the file's own lines: a key is defined exactly when some kept line assigns it,
   * and holds the value after the first "=" of the last such line; reading fails exactly
   * when a kept line has no "=".
   */
  lemma LoadEnvFacts(lines: seq<string>, key: string)
    ensures EnvOf(lines).Err? <==> exists i :: 0 <= i < |lines| && Classify(lines[i]).Malformed?
    ensures EnvOf(lines).Ok? ==>
              (key in EnvOf(lines).value <==> exists i :: 0 <= i < |lines| && Classify(lines[i]).Pair? && Classify(lines[i]).key == key)
    ensures EnvOf(lines).Ok? ==>
              forall i :: 0 <= i < |lines| && Classify(lines[i]).Pair? && Classify(lines[i]).key == key
                          && (forall j :: i < j < |lines| ==> !(Classify(lines[j]).Pair? && Classify(lines[j]).key == key)) ==>
                            key in EnvOf(lines).value && EnvOf(lines).value[key] == Classify(lines[i]).value
  {
    var ls := ClassifyAll(lines);
    forall i | 0 <= i < |lines| {
      ClassifyAllAt(lines, i);
    }
    EnvFoldFails(ls);
    if EnvOf(lines).Ok? {
      EnvFoldLastWins(ls, key);
    }
  }

  /** One line of the loop of `load_env`: strip, skip, split. */
  method ParseLine(raw: string) returns (l: Line)
    ensures l == Classify(raw)
  {
    var line := Strip(raw);
    if line == [] || StartsWith(line, "#") {
      return Skip;
    }
    var parts := SplitFirst(line, '=');
    if parts.None? {
      return Malformed;
    }
    l := Pair(parts.value.0, parts.value.1);
  }

  /** `load_env`: one line at a time into the variables. */
  method LoadEnv(file: Option<seq<string>>) returns (r: Result<map<string, string>>)
    ensures r == LoadEnvSpec(file)
  {
    var envVars: map<string, string> := map[];
    if file.None? {
      return Ok(envVars);
    }
    var lines := file.value;
    ghost var ls := ClassifyAll(lines);
    var i := 0;
    while i < |lines|
      invariant 0 <= i <= |lines|
      invariant EnvFold(ls[..i]) == Ok(envVars)
    {
      assert ls[..i + 1][..i] == ls[..i];
      var l := ParseLine(lines[i]);
      ClassifyAllAt(lines, i);
      match l {
        case Skip =>
        case Pair(key, value) =>
          envVars := envVars[key := value];
        case Malformed =>
          EnvFoldPrefixFails(ls, i + 1);
          return Err(UnpackError);
      }
      i := i + 1;
    }
    assert ls[..i] == ls;
    r := Ok(envVars);
  }

  const DefaultSecret: string := "your-jwt-secret-key"

  /**
   * `env_vars.get("JWT_SECRET") or os.environ.get("JWT_SECRET", default)`: a non-empty
   * value from the file wins, then the process environment (even an empty one), then the
   * default.
   */
  function Secret(envVars: map<string, string>, processSecret: Option<string>): (s: string)
    ensures "JWT_SECRET" in envVars && envVars["JWT_SECRET"] != "" ==> s == envVars["JWT_SECRET"]
    ensures ("JWT_SECRET" !in envVars || envVars["JWT_SECRET"] == "") && processSecret.Some? ==> s == processSecret.value
    ensures ("JWT_SECRET" !in envVars || envVars["JWT_SECRET"] == "") && processSecret.None? ==> s == DefaultSecret
  {
    if "JWT_SECRET" in envVars && envVars["JWT_SECRET"] != "" then envVars["JWT_SECRET"]
    else processSecret.GetOr(DefaultSecret)
  }

  /** The claims of a token. */
  datatype Claims = Claims(sub: string, iat: int, exp: int)

  /**
   * What reading `security/rbac.json` comes to: no such file, a raised exception (a file
   * that is not JSON, or a document whose `users` lookup fails) with its text, or a read
   * that at most prints a warning.
   */
  datatype Rbac = NoRbacFile | RbacFails(error: string) | RbacRead

  const SecondsPerDay: int := 86400

  /** The largest magnitude of `days` a `datetime.timedelta` accepts. */
  const MaxDeltaDays: int := 999999999

  /** 0001-01-01T00:00:00 and 9999-12-31T23:59:59, the ends of `datetime`'s range, in seconds from the epoch. */
  const MinTime: int := -62135596800
  const MaxTime: int := 253402300799

  const DateRangeError: string := "date value out of range"

  /** `datetime.timedelta(days=d)` in seconds. */
  function DaysToSeconds(days: int): int
  {
    days * SecondsPerDay
  }

  /**
   * `utcnow() + timedelta(days=expiry_days)`: the OverflowError of a `days` beyond the
   * timedelta range, then the OverflowError of a sum outside the datetime range.
   */
  function ExpiryOf(expiryDays: int, expiryClock: int): Result<int>
  {
    if expiryDays < -MaxDeltaDays || MaxDeltaDays < expiryDays then
      Err("days=" + IntToString(expiryDays) + "; must have magnitude <= 999999999")
    else
      var t := expiryClock + DaysToSeconds(expiryDays);
      if t < MinTime || MaxTime < t then Err(DateRangeError) else Ok(t)
  }

  /**
   * `generate_token`: the encoder applied to the claims and the secret, or the first error
   * raised on the way. `expiryClock` is the time read for the expiry, `issueClock` the later
   * read for `iat`.
   */
  function GenerateTokenSpec(userId: string, expiryDays: int, file: Option<seq<string>>, rbac: Rbac,
                             processSecret: Option<string>, expiryClock: int, issueClock: int,
                             encode: (Claims, string) -> string): Result<string>
  {
    Signed(userId, expiryDays, LoadEnvSpec(file), rbac, processSecret, expiryClock, issueClock, encode)
  }

  /** The token signed once the variables are loaded and the RBAC file read, or the first error. */
  function Signed(userId: string, expiryDays: int, loaded: Result<map<string, string>>, rbac: Rbac,
                  processSecret: Option<string>, expiryClock: int, issueClock: int,
                  encode: (Claims, string) -> string): Result<string>
  {
    match loaded
    case Err(e) => Err(e)
    case Ok(envVars) =>
      if rbac.RbacFails? then Err(rbac.error)
      else match ExpiryOf(expiryDays, expiryClock)
        case Err(e) => Err(e)
        case Ok(exp) => Ok(encode(Claims(userId, issueClock, exp), Secret(envVars, processSecret)))
  }

  /**
   * The errors, in the order they are raised: a malformed `.env` line fails with the
   * unpacking error; then an RBAC file that cannot be read as expected fails with its own
   * error; then an `expiry_days` beyond 999999999 in magnitude overflows the timedelta; then
   * an expiry outside years 1 to 9999 overflows the datetime. Nothing else fails.
   */
  lemma GenerateTokenFacts(userId: string, expiryDays: int, file: Option<seq<string>>, rbac: Rbac,
                           processSecret: Option<string>, expiryClock: int, issueClock: int,
                           encode: (Claims, string) -> string)
    ensures var r := GenerateTokenSpec(userId, expiryDays, file, rbac, processSecret, expiryClock, issueClock, encode);
            var malformed := file.Some? && exists i :: 0 <= i < |file.value| && Classify(file.value[i]).Malformed?;
            var daysOver := expiryDays < -999999999 || 999999999 < expiryDays;
            var exp := expiryClock + 86400 * expiryDays;
            var outOfRange := exp < -62135596800 || 253402300799 < exp;
            && (r.Err? <==> malformed || rbac.RbacFails? || daysOver || outOfRange)
            && (malformed ==> r == Err("not enough values to unpack (expected 2, got 1)"))
            && (!malformed && rbac.RbacFails? ==> r == Err(rbac.error))
            && (!malformed && !rbac.RbacFails? && daysOver ==>
                  r == Err("days=" + IntToString(expiryDays) + "; must have magnitude <= 999999999"))
            && (!malformed && !rbac.RbacFails? && !daysOver && outOfRange ==> r == Err("date value out of range"))
  {
    if file.Some? {
      EnvFoldFails(ClassifyAll(file.value));
      forall i | 0 <= i < |file.value| {
        ClassifyAllAt(file.value, i);
      }
    }
  }

  /**
   * A token that is signed signs `sub` = the user id, `iat` = the second clock reading and
   * `exp` = `expiry_days` after the first, with the secret chosen from the file and the
   * environment; with no `.env` file the secret comes from the environment or the default.
   */
  lemma GenerateTokenSigns(userId: string, expiryDays: int, file: Option<seq<string>>, rbac: Rbac,
                           processSecret: Option<string>, expiryClock: int, issueClock: int,
                           encode: (Claims, string) -> string)
    ensures var r := GenerateTokenSpec(userId, expiryDays, file, rbac, processSecret, expiryClock, issueClock, encode);
            var claims := Claims(userId, issueClock, expiryClock + 86400 * expiryDays);
            && (file.Some? && r.Ok? ==> EnvOf(file.value).Ok? && r.value == encode(claims, Secret(EnvOf(file.value).value, processSecret)))
            && (file.None? && r.Ok? ==> r.value == encode(claims, processSecret.GetOr("your-jwt-secret-key")))
  {
  }

  /** `generate_token`. */
  method GenerateToken(userId: string, expiryDays: int, file: Option<seq<string>>, rbac: Rbac,
                       processSecret: Option<string>, expiryClock: int, issueClock: int,
                       encode: (Claims, string) -> string) returns (r: Result<string>)
    ensures r == GenerateTokenSpec(userId, expiryDays, file, rbac, processSecret, expiryClock, issueClock, encode)
  {
    var envVars := LoadEnv(file);
    assert GenerateTokenSpec(userId, expiryDays, file, rbac, processSecret, expiryClock, issueClock, encode)
        == Signed(userId, expiryDays, envVars, rbac, processSecret, expiryClock, issueClock, encode);
    if envVars.Err? {
      return Err(envVars.error);
    }
    var jwtSecret := Secret(envVars.value, processSecret);
    if rbac.RbacFails? {
      return Err(rbac.error);
    }
    if expiryDays < -MaxDeltaDays || MaxDeltaDays < expiryDays {
      return Err("days=" + IntToString(expiryDays) + "; must have magnitude <= 999999999");
    }
    var expiry := expiryClock + DaysToSeconds(expiryDays);
    if expiry < MinTime || MaxTime < expiry {
      return Err(DateRangeError);
    }
    var payload := Claims(userId, issueClock, expiry);
    r := Ok(encode(payload, jwtSecret));
  }
}
