/**
 TensorFold resource names: how a deployment ID, a generation and a role are printed
 into one name and matched out of it again.
 */
module ResourceNames {
  import opened Common

  datatype Parsed = Parsed(id: string, generation: int, role: string)

  const PREFIX := "yokai-deployment-"
  const MAX_INT := 0x7FFF_FFFF_FFFF_FFFF

  // ---------------------------------------------------------------- numbers

  predicate Digit(c: char) { '0' <= c <= '9' }

  predicate AllDigits(s: string) { forall i :: 0 <= i < |s| ==> Digit(s[i]) }

  /** [1-9][0-9]* */
  predicate Numeral(s: string) { s != "" && AllDigits(s) && s[0] != '0' }

  /** The %d of a positive number. */
  function Decimal(n: nat): (s: string)
    ensures AllDigits(s) && (n > 0 ==> Numeral(s))
  {
    if n == 0 then "" else Decimal(n / 10) + [('0' as int + n % 10) as char]
  }

  function Value(s: string): nat
    requires AllDigits(s)
  {
    if s == "" then 0 else 10 * Value(s[..|s| - 1]) + (s[|s| - 1] as int - '0' as int)
  }

  lemma {:induction false} ValueOfDecimal(n: nat)
    ensures Value(Decimal(n)) == n
  {
    if n > 0 {
      ValueOfDecimal(n / 10);
      assert Decimal(n)[..|Decimal(n)| - 1] == Decimal(n / 10);
    }
  }

  function Pow10(k: nat): nat { if k == 0 then 1 else 10 * Pow10(k - 1) }

  /** Value reads a decimal numeral: every digit counts for itself, times ten for each
      digit after it. */
  lemma {:induction false} ValueIsPositional(a: string, b: string)
    requires AllDigits(a) && AllDigits(b)
    ensures AllDigits(a + b) && Value(a + b) == Value(a) * Pow10(|b|) + Value(b)
    ensures |b| == 1 ==> Value(b) == b[0] as int - '0' as int
    decreases |b|
  {
    if b == "" {
      assert a + b == a;
    } else {
      var front := b[..|b| - 1];
      ValueIsPositional(a, front);
      assert (a + b)[..|a + b| - 1] == a + front;
      assert (Value(a) * Pow10(|front|)) * 10 == Value(a) * Pow10(|b|);
    }
  }

  /** The %d of a positive number is the one numeral that has its value. */
  lemma {:induction false} DecimalExactly(s: string, n: nat)
    ensures Numeral(s) && Value(s) == n <==> 0 < n && s == Decimal(n)
    decreases |s|
  {
    ValueOfDecimal(n);
    if Numeral(s) && Value(s) == n { NumeralIsDecimal(s); }
  }

  lemma {:induction false} NumeralIsDecimal(s: string)
    requires Numeral(s)
    ensures 0 < Value(s) && s == Decimal(Value(s))
    decreases |s|
  {
    hide Decimal;
    var front, last := s[..|s| - 1], s[|s| - 1];
    var digit := last as int - '0' as int;
    assert s == front + [last] && Value(s) == 10 * Value(front) + digit;
    assert Value(s) / 10 == Value(front) && Value(s) % 10 == digit;
    if front != "" { NumeralIsDecimal(front); }
    DecimalUnfolds(Value(s));
    assert ('0' as int + digit) as char == last;
  }

  lemma DecimalUnfolds(n: nat)
    ensures Decimal(0) == ""
    ensures 0 < n ==> Decimal(n) == Decimal(n / 10) + [('0' as int + n % 10) as char]
  {
  }

  // ---------------------------------------------------------------- the pattern

  predicate Role(role: string) { role == "head" || role == "worker" }

  /** One way to match the whole pattern, capture by capture. */
  predicate Matches(name: string, id: string, digits: string, role: string) {
    && name == PREFIX + id + "-g" + digits + "-" + role
    && id != "" && '\n' !in id && Numeral(digits) && Role(role)
  }

  /** Where the run of digits that ends `s` starts. */
  function DigitsFrom(s: string): (at: nat)
    ensures at <= |s| && AllDigits(s[at..]) && (at > 0 ==> !Digit(s[at - 1]))
  {
    if s == "" || !Digit(s[|s| - 1]) then |s| else DigitsFrom(s[..|s| - 1])
  }

  predicate HasSuffix(s: string, suffix: string) { |suffix| <= |s| && s[|s| - |suffix|..] == suffix }

  function RoleOf(name: string): string { if HasSuffix(name, "-head") then "head" else "worker" }

  /** parseTensorFoldResourceName: the submatches, then Atoi of the second. */
  function Parse(name: string): Option<Parsed> {
    var role := RoleOf(name);
    if HasSuffix(name, "-" + role) then ParseBody(name[..|name| - |role| - 1], role) else None
  }

  /** The part before "-head" or "-worker". */
  function ParseBody(body: string, role: string): Option<Parsed> {
    var at := DigitsFrom(body);
    if at < |PREFIX| + 3 || body[at - 2..at] != "-g" || body[..|PREFIX|] != PREFIX then None
    else if !Numeral(body[at..]) || '\n' in body[|PREFIX|..at - 2] || Value(body[at..]) > MAX_INT then None
    else Some(Parsed(body[|PREFIX|..at - 2], Value(body[at..]), role))
  }

  /** The name that create and the coordinator build. */
  function Print(id: string, generation: nat, role: string): string {
    PREFIX + id + "-g" + Decimal(generation) + "-" + role
  }

  lemma RoleIs(name: string, id: string, digits: string, role: string)
    requires Matches(name, id, digits, role)
    ensures RoleOf(name) == role && HasSuffix(name, "-" + role)
    ensures name[..|name| - |role| - 1] == PREFIX + id + "-g" + digits
  {
    var body := PREFIX + id + "-g" + digits;
    assert name == body + ("-" + role);
    if role == "worker" { assert name[|name| - 1] == 'r'; }
  }

  lemma {:induction false} DigitsAre(s: string, digits: string)
    requires s != "" && !Digit(s[|s| - 1]) && AllDigits(digits)
    ensures DigitsFrom(s + digits) == |s|
    decreases |digits|
  {
    if digits == "" {
      assert s + digits == s;
    } else {
      var n := |digits| - 1;
      assert (s + digits)[..|s + digits| - 1] == s + digits[..n];
      DigitsAre(s, digits[..n]);
    }
  }

  /** The body of a match comes apart at its last "-g". */
  lemma BodyIsParsed(id: string, digits: string, role: string)
    requires id != "" && '\n' !in id && Numeral(digits)
    ensures ParseBody(PREFIX + id + "-g" + digits, role) ==
            if Value(digits) > MAX_INT then None else Some(Parsed(id, Value(digits), role))
  {
    hide DigitsFrom, Value;
    var front := PREFIX + id + "-g";
    var body, at := front + digits, |front|;
    assert front[at - 1] == 'g';
    DigitsAre(front, digits);
    assert body[at..] == digits;
    assert body[at - 2..at] == "-g";
    assert body[..|PREFIX|] == PREFIX;
    assert body[|PREFIX|..at - 2] == id;
  }

  lemma BodyMatches(body: string, role: string) returns (digits: string)
    requires ParseBody(body, role).Some?
    ensures var p := ParseBody(body, role).value;
      && p.id != "" && '\n' !in p.id && Numeral(digits) && p.role == role
      && body == PREFIX + p.id + "-g" + digits && Value(digits) == p.generation <= MAX_INT
  {
    hide DigitsFrom, Value;
    var at := DigitsFrom(body);
    digits := body[at..];
    assert body == body[..|PREFIX|] + body[|PREFIX|..at - 2] + body[at - 2..at] + digits;
  }

  /** Whatever the pattern can match, it matches in this way only. */
  lemma MatchIsParsed(name: string, id: string, digits: string, role: string)
    requires Matches(name, id, digits, role)
    ensures Parse(name) == if Value(digits) > MAX_INT then None else Some(Parsed(id, Value(digits), role))
  {
    hide ParseBody, Value, RoleOf, HasSuffix;
    RoleIs(name, id, digits, role);
    BodyIsParsed(id, digits, role);
  }

  /** What parsing takes apart is a match of the pattern. */
  lemma ParsedMatches(name: string) returns (digits: string)
    requires Parse(name).Some?
    ensures var p := Parse(name).value;
      Matches(name, p.id, digits, p.role) && Value(digits) == p.generation <= MAX_INT
  {
    hide ParseBody, Value;
    var role := RoleOf(name);
    var body := name[..|name| - |role| - 1];
    digits := BodyMatches(body, role);
    assert name == body + ("-" + role);
  }

  predicate Fits(digits: string) { AllDigits(digits) && Value(digits) <= MAX_INT }

  /** A name parses exactly when the pattern matches it and its number fits an int. */
  lemma ParsedExactly(name: string)
    ensures Parse(name).Some? <==> exists id, digits, role :: Matches(name, id, digits, role) && Fits(digits)
  {
    hide Parse, Value;
    if Parse(name).Some? {
      var digits := ParsedMatches(name);
      assert Fits(digits);
    }
    if id, digits, role :| Matches(name, id, digits, role) && Fits(digits) {
      MatchIsParsed(name, id, digits, role);
    }
  }

  /** [a-zA-Z0-9._-]+ */
  predicate DeploymentId(id: string) {
    id != "" && forall i :: 0 <= i < |id| ==>
      'a' <= id[i] <= 'z' || 'A' <= id[i] <= 'Z' || Digit(id[i]) || id[i] == '.' || id[i] == '_' || id[i] == '-'
  }

  /** Even an ID that itself ends in "-g3-head" comes back whole. */
  lemma PrintParses(id: string, generation: int, role: string)
    requires DeploymentId(id) && 1 <= generation <= MAX_INT && Role(role)
    ensures Parse(Print(id, generation, role)) == Some(Parsed(id, generation, role))
  {
    ValueOfDecimal(generation);
    assert forall i :: 0 <= i < |id| ==> id[i] != '\n';
    MatchIsParsed(Print(id, generation, role), id, Decimal(generation), role);
  }

  /** Distinct deployments, generations and roles never share a resource name. */
  lemma PrintIsInjective(a: Parsed, b: Parsed)
    requires DeploymentId(a.id) && 1 <= a.generation <= MAX_INT && Role(a.role)
    requires DeploymentId(b.id) && 1 <= b.generation <= MAX_INT && Role(b.role)
    requires Print(a.id, a.generation, a.role) == Print(b.id, b.generation, b.role)
    ensures a == b
  {
    PrintParses(a.id, a.generation, a.role);
    PrintParses(b.id, b.generation, b.role);
  }
}
