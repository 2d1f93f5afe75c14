/** The environment-variable readers the settings are built from. The same
    five readers appear, letter for letter, in src/app/settings.ts:8-49 and in
    src/core/Settings.ts:4-45; they are defined once here. Every variable is
    read under the service's namespace prefix, `<namespace>_<name>`. */
module EnvParsers {
  import opened Js

  /** The process environment. */
  type Env = map<string, string>

  /** A value, or the message of the exception thrown instead. */
  datatype Outcome<T> = Ok(value: T) | Thrown(message: string)

  /** The variable read for `name`. */
  function VarName(ns: string, name: string): string
  {
    ns + "_" + name
  }

  /** `getEnvVar(name)` */
  function GetEnvVar(env: Env, ns: string, name: string): Option<string>
  {
    var key := VarName(ns, name);
    if key in env then Some(env[key]) else None
  }

  /** `!!getEnvVar(name)`: the variable is set and not empty. */
  predicate IsSet(env: Env, ns: string, name: string)
  {
    VarName(ns, name) in env && env[VarName(ns, name)] != ""
  }

  /** `stringENVVal(name, defval)`: `getEnvVar(name) || defval`. */
  function StringEnvVal(env: Env, ns: string, name: string, defval: string): (r: string)
    ensures IsSet(env, ns, name) ==> r == env[VarName(ns, name)]
    ensures !IsSet(env, ns, name) ==> r == defval
    ensures r == "" ==> defval == ""
  {
    match GetEnvVar(env, ns, name)
    case Some(v) => if v != "" then v else defval
    case None => defval
  }

  /** `homieIDENVVal(name, defval)`; whether a string is a valid homie id is
      decided by the homie library and is a parameter here. */
  function HomieIdEnvVal(env: Env, ns: string, name: string, defval: string, isHomieId: string -> bool): (r: Outcome<string>)
    ensures r.Ok? <==> isHomieId(StringEnvVal(env, ns, name, defval))
    ensures r.Ok? ==> r.value == StringEnvVal(env, ns, name, defval) && isHomieId(r.value)
    ensures r.Thrown? ==> r.message == "[" + StringEnvVal(env, ns, name, defval) + "] is not a valid homie-id"
  {
    var val := StringEnvVal(env, ns, name, defval);
    if !isHomieId(val) then Thrown("[" + val + "] is not a valid homie-id") else Ok(val)
  }

  // ---------------------------------------------------------------------------
  // parseInt(s, 10)
  // ---------------------------------------------------------------------------

  /** The characters `parseInt` skips before the numeral: the ECMAScript
      white space and line terminators. */
  predicate IsJsSpace(c: char)
  {
    || c == '\t' || c == '\n' || c == '\U{B}' || c == '\U{C}' || c == '\r' || c == ' '
    || c == '\U{A0}' || c == '\U{1680}' || ('\U{2000}' <= c <= '\U{200A}')
    || c == '\U{2028}' || c == '\U{2029}' || c == '\U{202F}' || c == '\U{205F}'
    || c == '\U{3000}' || c == '\U{FEFF}'
  }

  predicate IsDigit(c: char)
  {
    '0' <= c <= '9'
  }

  function TrimStart(s: string): (r: string)
    ensures |r| <= |s| && r == s[|s| - |r|..]
    ensures r != [] ==> !IsJsSpace(r[0])
  {
    if s != [] && IsJsSpace(s[0]) then TrimStart(s[1..]) else s
  }

  /** The leading run of decimal digits. */
  function DigitPrefix(s: string): (r: string)
    ensures r <= s
    ensures forall i :: 0 <= i < |r| ==> IsDigit(r[i])
    ensures |r| < |s| ==> !IsDigit(s[|r|])
  {
    if s != [] && IsDigit(s[0]) then [s[0]] + DigitPrefix(s[1..]) else []
  }

  /** The value of a decimal numeral. */
  function DigitsValue(ds: string): nat
    requires forall i :: 0 <= i < |ds| ==> IsDigit(ds[i])
  {
    if ds == [] then 0
    else
      assert IsDigit(ds[|ds| - 1]);
      DigitsValue(ds[..|ds| - 1]) * 10 + (ds[|ds| - 1] as int - '0' as int)
  }

  /** The value of the leading digits, `None` if there are none. */
  function LeadingNumber(u: string): (r: Option<nat>)
    ensures r.None? <==> u == [] || !IsDigit(u[0])
  {
    var digits := DigitPrefix(u);
    if digits == [] then None else Some(DigitsValue(digits))
  }

  /** A numeral after white space has been skipped: one sign, then the
      leading digits. */
  function ParseSigned(t: string): Option<int>
  {
    if t != [] && t[0] == '-' then
      (match LeadingNumber(t[1..]) case Some(v) => Some(-(v as int)) case None => None)
    else if t != [] && t[0] == '+' then
      (match LeadingNumber(t[1..]) case Some(v) => Some(v as int) case None => None)
    else
      (match LeadingNumber(t) case Some(v) => Some(v as int) case None => None)
  }

  /** `parseInt(s, 10)`, with `None` for `NaN`: leading white space is
      skipped, one sign is read, then the longest run of digits; anything
      after it is ignored. */
  function ParseInt(s: string): (r: Option<int>)
    ensures r.None? <==>
      var t := TrimStart(s);
      var u := if t != [] && (t[0] == '-' || t[0] == '+') then t[1..] else t;
      u == [] || !IsDigit(u[0])
  {
    ParseSigned(TrimStart(s))
  }

  lemma {:induction false} DigitPrefixOfNumeral(ds: string, rest: string)
    requires forall i :: 0 <= i < |ds| ==> IsDigit(ds[i])
    requires rest == [] || !IsDigit(rest[0])
    ensures DigitPrefix(ds + rest) == ds
  {
    if ds != [] {
      assert (ds + rest)[1..] == ds[1..] + rest;
      DigitPrefixOfNumeral(ds[1..], rest);
    } else {
      assert ds + rest == rest;
    }
  }

  lemma {:induction false} NumeralValue(n: nat)
    ensures DigitsValue(NatToString(n)) == n
    decreases n
  {
    if n >= 10 {
      NumeralValue(n / 10);
      var s := NatToString(n);
      assert s == NatToString(n / 10) + [DigitChar(n % 10)];
      assert s[..|s| - 1] == NatToString(n / 10);
    }
  }

  lemma NothingToTrim(s: string)
    requires s != [] && (s[0] == '-' || IsDigit(s[0]))
    ensures TrimStart(s) == s
  {
  }

  /** A numeral followed by a non-digit has the numeral's value. */
  lemma LeadingNumeral(m: nat, rest: string)
    requires rest == [] || !IsDigit(rest[0])
    ensures LeadingNumber(NatToString(m) + rest) == Some(m)
  {
    var numeral := NatToString(m);
    NumeralValue(m);
    DigitPrefixOfNumeral(numeral, rest);
  }

  lemma ParseNumeral(m: nat, rest: string)
    requires rest == [] || !IsDigit(rest[0])
    ensures ParseInt(NatToString(m) + rest) == Some(m)
  {
    var u := NatToString(m) + rest;
    LeadingNumeral(m, rest);
    assert u[0] == NatToString(m)[0];
    NothingToTrim(u);
  }

  lemma ParseNegativeInt(n: int, rest: string)
    requires n < 0 && (rest == [] || !IsDigit(rest[0]))
    ensures ParseInt(IntToString(n) + rest) == Some(n)
  {
    var u := NatToString(-n) + rest;
    LeadingNumeral(-n, rest);
    NegativeSign(u, -n);
    NegativeNumeral(n, rest);
  }

  lemma NegativeNumeral(n: int, rest: string)
    requires n < 0
    ensures IntToString(n) + rest == ['-'] + (NatToString(-n) + rest)
  {
  }

  lemma NegativeSign(u: string, m: nat)
    requires LeadingNumber(u) == Some(m)
    ensures ParseInt(['-'] + u) == Some(-(m as int))
  {
    var s := ['-'] + u;
    NothingToTrim(s);
    assert s[1..] == u;
  }

  lemma ParseNonNegativeInt(n: int, rest: string)
    requires n >= 0 && (rest == [] || !IsDigit(rest[0]))
    ensures ParseInt(IntToString(n) + rest) == Some(n)
  {
    ParseNumeral(n, rest);
  }

  /** `parseInt` reads back the numeral of any integer, whatever follows it
      that is not a digit. */
  lemma ParseIntRoundTrip(n: int, rest: string)
    requires rest == [] || !IsDigit(rest[0])
    ensures ParseInt(IntToString(n) + rest) == Some(n)
  {
    if n < 0 {
      ParseNegativeInt(n, rest);
    } else {
      ParseNonNegativeInt(n, rest);
    }
  }

  /** `numberENVVal(name, defval)`: the variable parsed as a decimal integer,
      the default when it is unset, empty or not a number. */
  function NumberEnvVal(env: Env, ns: string, name: string, defval: int): (r: int)
    ensures !IsSet(env, ns, name) ==> r == defval
    ensures IsSet(env, ns, name) ==> r == match ParseInt(env[VarName(ns, name)]) case Some(n) => n case None => defval
  {
    match GetEnvVar(env, ns, name)
    case Some(v) =>
      if v == "" then defval
      else (match ParseInt(v) case Some(n) => n case None => defval)
    case None => defval
  }

  /** Whatever integer is written to the variable is read back. */
  lemma NumberEnvValRoundTrip(env: Env, ns: string, name: string, n: int, defval: int)
    ensures NumberEnvVal(env[VarName(ns, name) := IntToString(n)], ns, name, defval) == n
  {
    ParseIntRoundTrip(n, "");
    assert IntToString(n) + "" == IntToString(n);
  }

  // ---------------------------------------------------------------------------
  // Booleans
  // ---------------------------------------------------------------------------

  /** `boolENVVal(name, defval)`: `true` in any case or `1` is true, `false`
      in any case or `0` is false; unset, empty or anything else gives the
      default. JavaScript lower-cases beyond ASCII, but no other character
      lower-cases to a letter of `true` or `false`. */
  function BoolEnvVal(env: Env, ns: string, name: string, defval: bool): (r: bool)
    ensures !IsSet(env, ns, name) ==> r == defval
    ensures r != defval ==> IsSet(env, ns, name) && 1 <= |env[VarName(ns, name)]| <= 5
  {
    match GetEnvVar(env, ns, name)
    case None => defval
    case Some(v) =>
      if v == "" then defval
      else if ToLowerAscii(v) == "true" || v == "1" then true
      else if ToLowerAscii(v) == "false" || v == "0" then false
      else defval
  }

  lemma LowerOnlyFixesDigits(v: string, digit: string)
    requires digit == "0" || digit == "1"
    ensures ToLowerAscii(v) == digit <==> v == digit
  {
    if ToLowerAscii(v) == digit {
      assert |v| == 1 && LowerChar(v[0]) == digit[0];
    }
  }

  /** A set value moves the result off the default exactly when it spells the
      other boolean: with default true, `false` in any case or `0`; with
      default false, `true` in any case or `1`. Every other value, the empty
      one included, gives the default. */
  lemma BoolEnvValDecides(env: Env, ns: string, name: string, v: string, defval: bool)
    ensures BoolEnvVal(env[VarName(ns, name) := v], ns, name, defval) != defval <==>
      if defval then ToLowerAscii(v) == "false" || v == "0" else ToLowerAscii(v) == "true" || v == "1"
  {
    var e := env[VarName(ns, name) := v];
    assert GetEnvVar(e, ns, name) == Some(v);
    LowerOnlyFixesDigits(v, "0");
    LowerOnlyFixesDigits(v, "1");
    if ToLowerAscii(v) == "false" {
      assert ToLowerAscii(v) != "true" && v != "";
    }
    if ToLowerAscii(v) == "true" {
      assert v != "";
    }
  }

  /** The reader ignores the case of what is written. */
  lemma BoolEnvValIgnoresCase(env: Env, ns: string, name: string, v: string, w: string, defval: bool)
    requires ToLowerAscii(v) == ToLowerAscii(w)
    ensures BoolEnvVal(env[VarName(ns, name) := v], ns, name, defval)
         == BoolEnvVal(env[VarName(ns, name) := w], ns, name, defval)
  {
    LowerOnlyFixesDigits(v, "0");
    LowerOnlyFixesDigits(v, "1");
    LowerOnlyFixesDigits(w, "0");
    LowerOnlyFixesDigits(w, "1");
    assert v == "" <==> w == "";
  }

  /** The spellings the reader accepts are read back as the value they spell. */
  lemma BoolEnvValRoundTrip(env: Env, ns: string, name: string, b: bool, defval: bool)
    ensures BoolEnvVal(env[VarName(ns, name) := if b then "true" else "false"], ns, name, defval) == b
    ensures BoolEnvVal(env[VarName(ns, name) := if b then "TRUE" else "FALSE"], ns, name, defval) == b
    ensures BoolEnvVal(env[VarName(ns, name) := if b then "1" else "0"], ns, name, defval) == b
  {
    if b {
      ReadsSpelling(env, ns, name, "true", defval);
      ReadsSpelling(env, ns, name, "TRUE", defval);
      ReadsSpelling(env, ns, name, "1", defval);
    } else {
      ReadsSpelling(env, ns, name, "false", defval);
      ReadsSpelling(env, ns, name, "FALSE", defval);
      ReadsSpelling(env, ns, name, "0", defval);
    }
  }

  lemma ReadsSpelling(env: Env, ns: string, name: string, v: string, defval: bool)
    requires v in {"true", "TRUE", "1", "false", "FALSE", "0"}
    ensures BoolEnvVal(env[VarName(ns, name) := v], ns, name, defval) == (v in {"true", "TRUE", "1"})
  {
    if v == "true" || v == "TRUE" {
      assert ToLowerAscii(v) == "true";
    } else if v == "false" || v == "FALSE" {
      assert ToLowerAscii(v) == "false";
      LowerOnlyFixesDigits(v, "1");
    } else if v == "0" {
      LowerOnlyFixesDigits(v, "1");
      assert ToLowerAscii(v) != "true";
    }
  }

  // ---------------------------------------------------------------------------
  // Comma-separated lists
  // ---------------------------------------------------------------------------

  const SplitOfUndefined := "Cannot read properties of undefined (reading 'split')"

  /** `csvENVVal(name, defval)` as written: it tests the prefixed variable but
      splits the unprefixed one, which is undefined unless that is set too. */
  function CsvEnvValAsWritten(env: Env, ns: string, name: string, defval: seq<string>): (r: Outcome<seq<string>>)
    ensures !IsSet(env, ns, name) ==> r == Ok(defval)
    ensures IsSet(env, ns, name) ==> (r.Thrown? <==> name !in env)
  {
    if !IsSet(env, ns, name) then Ok(defval)
    else if name in env then Ok(Split(env[name], ','))
    else Thrown(SplitOfUndefined)
  }

  /** With only the prefixed variable set, the reader as written throws
      instead of returning its parts. */
  lemma CsvAsWrittenMissesPrefixedVariable()
    ensures var env := map["SVC_HOSTS" := "a,b"];
            && IsSet(env, "SVC", "HOSTS")
            && CsvEnvValAsWritten(env, "SVC", "HOSTS", []) == Thrown(SplitOfUndefined)
  {
    var env := map["SVC_HOSTS" := "a,b"];
    assert VarName("SVC", "HOSTS") == "SVC_HOSTS";
    assert "HOSTS" !in env;
  }

  /** `csvENVVal` reading the variable it tests: the comma-separated parts of
      the prefixed variable, or the default when it is unset or empty. */
  function CsvEnvVal(env: Env, ns: string, name: string, defval: seq<string>): (r: seq<string>)
    ensures !IsSet(env, ns, name) ==> r == defval
    ensures IsSet(env, ns, name) ==> Join(r, ',') == env[VarName(ns, name)]
    ensures IsSet(env, ns, name) ==> forall i :: 0 <= i < |r| ==> ',' !in r[i]
  {
    match GetEnvVar(env, ns, name)
    case Some(v) =>
      if v != "" then JoinSplit(v, ','); Split(v, ',') else defval
    case None => defval
  }
}
