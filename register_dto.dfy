/** The validation rules of the registration request: every text field must
    be non-empty, and the password must have at least eight characters and
    match `^(?=.*[a-z])(?=.*[A-Z])(?=.*\d)(?=.*[!@#$%^&*])`. */
module RegisterValidation {
  import opened Strings
  import opened Auth

  /** The four character classes the password pattern asks for. */
  datatype CharClass = Lower | Upper | Digit | Special

  predicate InClass(c: char, k: CharClass) {
    match k
    case Lower => 'a' <= c <= 'z'
    case Upper => 'A' <= c <= 'Z'
    case Digit => IsAsciiDigit(c)
    case Special => c in "!@#$%^&*"
  }

  /** The text before the first line terminator: `.` does not match one, so
      `.*` cannot look past it. */
  function FirstLine(s: string): (r: string)
    ensures r <= s
    ensures forall i :: 0 <= i < |r| ==> !IsLineTerminator(r[i])
    ensures |r| < |s| ==> IsLineTerminator(s[|r|])
  {
    if s == [] || IsLineTerminator(s[0]) then [] else [s[0]] + FirstLine(s[1..])
  }

  /** Some character of `s` is in class `k`. */
  function AnyIn(s: string, k: CharClass): (b: bool)
    ensures b <==> exists i :: 0 <= i < |s| && InClass(s[i], k)
  {
    if s == [] then false
    else
      assert forall i :: 1 <= i < |s| ==> s[i] == s[1..][i - 1];
      InClass(s[0], k) || AnyIn(s[1..], k)
  }

  /** The lookahead `(?=.*X)` at the start of `s`, read as the regular
      expression defines it: some character of class X is preceded by no line
      terminator. */
  ghost predicate LookaheadAtStart(s: string, k: CharClass) {
    exists i :: 0 <= i < |s| && InClass(s[i], k) && forall j :: 0 <= j < i ==> !IsLineTerminator(s[j])
  }

  /** The pattern test as the validator evaluates it, on the first line:
      exactly the four lookaheads at the start of the password. */
  predicate MatchesPasswordPattern(p: string): (b: bool)
    ensures b <==>
              LookaheadAtStart(p, Lower) && LookaheadAtStart(p, Upper) &&
              LookaheadAtStart(p, Digit) && LookaheadAtStart(p, Special)
  {
    FirstLineLookahead(p, Lower);
    FirstLineLookahead(p, Upper);
    FirstLineLookahead(p, Digit);
    FirstLineLookahead(p, Special);
    var line := FirstLine(p);
    AnyIn(line, Lower) && AnyIn(line, Upper) && AnyIn(line, Digit) && AnyIn(line, Special)
  }

  /** `@MinLength(8)` and `@Matches(...)` together: a password that passes
      has at least eight characters and holds a character of every class. */
  predicate MeetsPasswordPolicy(p: string): (b: bool)
    ensures |p| < 8 ==> !b
    ensures b ==> AnyIn(p, Lower) && AnyIn(p, Upper) && AnyIn(p, Digit) && AnyIn(p, Special)
  {
    |p| >= 8 && MatchesPasswordPattern(p)
  }

  lemma FirstLineLookahead(p: string, k: CharClass)
    ensures AnyIn(FirstLine(p), k) <==> LookaheadAtStart(p, k)
  {
    var line := FirstLine(p);
    if LookaheadAtStart(p, k) {
      var i :| 0 <= i < |p| && InClass(p[i], k) && forall j :: 0 <= j < i ==> !IsLineTerminator(p[j]);
      assert i < |line|;
      assert line[i] == p[i];
    }
  }

  /** Text after the required characters never hurts: the pattern has no end
      anchor. */
  lemma {:induction false} PolicyAllowsAnySuffix(p: string, q: string)
    requires MeetsPasswordPolicy(p)
    ensures MeetsPasswordPolicy(p + q)
  {
    FirstLineOfConcat(p, q);
    forall k: CharClass | AnyIn(FirstLine(p), k) ensures AnyIn(FirstLine(p + q), k) {
      var i :| 0 <= i < |FirstLine(p)| && InClass(FirstLine(p)[i], k);
      assert FirstLine(p + q)[i] == FirstLine(p)[i];
    }
  }

  /** The first line of `p + q` starts with the first line of `p`. */
  lemma {:induction false} FirstLineOfConcat(p: string, q: string)
    ensures FirstLine(p) <= FirstLine(p + q)
  {
    if p != [] && !IsLineTerminator(p[0]) {
      assert (p + q)[1..] == p[1..] + q;
      FirstLineOfConcat(p[1..], q);
    }
  }

  /** Nor does text in front of them, as long as it holds no line break. */
  lemma {:induction false} PolicyAllowsPrefixWithoutLineBreak(q: string, p: string)
    requires MeetsPasswordPolicy(p)
    requires forall i :: 0 <= i < |q| ==> !IsLineTerminator(q[i])
    ensures MeetsPasswordPolicy(q + p)
  {
    FirstLineAfterPrefix(q, p);
    forall k: CharClass | AnyIn(FirstLine(p), k) ensures AnyIn(FirstLine(q + p), k) {
      var i :| 0 <= i < |FirstLine(p)| && InClass(FirstLine(p)[i], k);
      assert FirstLine(q + p)[|q| + i] == FirstLine(p)[i];
    }
  }

  lemma {:induction false} FirstLineAfterPrefix(q: string, p: string)
    requires forall i :: 0 <= i < |q| ==> !IsLineTerminator(q[i])
    ensures FirstLine(q + p) == q + FirstLine(p)
  {
    if q == [] {
      assert q + p == p;
    } else {
      var rest := q[1..];
      assert forall i :: 0 <= i < |rest| ==> rest[i] == q[i + 1];
      FirstLineAfterPrefix(rest, p);
      assert q + p == [q[0]] + (rest + p);
      FirstLineCons(q[0], rest + p);
      assert [q[0]] + rest == q;
    }
  }

  lemma FirstLineCons(c: char, s: string)
    requires !IsLineTerminator(c)
    ensures FirstLine([c] + s) == [c] + FirstLine(s)
  {
    assert ([c] + s)[1..] == s;
  }

  /** A line break in front of the required characters makes the pattern
      fail, although every class occurs in the password. */
  lemma LineBreakFirstIsRefused()
    ensures !MeetsPasswordPolicy("\nAbcdef1!")
    ensures MeetsPasswordPolicy("Abcdef1!\n")
  {
    assert FirstLine("\nAbcdef1!") == [];
    var word := "Abcdef1!";
    FirstLineAfterPrefix(word, "\n");
    assert word + "\n" == "Abcdef1!\n";
    assert FirstLine("\n") == [];
    assert FirstLine("Abcdef1!\n") == word;
    assert InClass(word[1], Lower) && InClass(word[0], Upper) && InClass(word[6], Digit) && InClass(word[7], Special);
  }

  /** `@IsNotEmpty()`. */
  predicate NotEmpty(s: string) {
    s != ""
  }

  /** The rules of `RegisterDto` (the `@IsEmail` check on `email` is not part
      of this model). `confirmPassword` is only required to be non-empty; its
      equality with `password` is checked by the service. */
  predicate ValidRegisterDto(dto: RegisterDto): (b: bool)
    ensures b ==> dto.email != [] && dto.otpCode != [] && dto.fullName != [] && dto.companyName != []
    ensures b ==> dto.siret != [] && dto.kbis != [] && dto.confirmPassword != []
    ensures b ==> |dto.password| >= 8 && MeetsPasswordPolicy(dto.password)
    ensures dto.confirmPassword == [] ==> !b
  {
    && NotEmpty(dto.email)
    && NotEmpty(dto.otpCode)
    && NotEmpty(dto.fullName)
    && NotEmpty(dto.companyName)
    && NotEmpty(dto.siret)
    && NotEmpty(dto.kbis)
    && MeetsPasswordPolicy(dto.password)
    && NotEmpty(dto.confirmPassword)
  }

  /** A request can pass validation with a confirmation that is not itself a
      valid password (and differs from the password). */
  lemma ConfirmationNotHeldToPolicy()
    ensures var dto := RegisterDto("a@x.com", "123456", "Ann", "Acme", "12345678901234", "KBIS1", "Abc123!@", "x");
            ValidRegisterDto(dto) && !MeetsPasswordPolicy(dto.confirmPassword)
  {
    SamplePasswordMeetsPolicy();
  }

  lemma SamplePasswordMeetsPolicy()
    ensures MeetsPasswordPolicy("Abc123!@")
  {
    var p := "Abc123!@";
    PolicyFromWitnesses(p, 1, 0, 3, 6);
  }

  /** A password of eight or more characters without a line break meets the
      policy once each class has a witness in it. */
  lemma PolicyFromWitnesses(p: string, lower: nat, upper: nat, digit: nat, special: nat)
    requires |p| >= 8 && forall i :: 0 <= i < |p| ==> !IsLineTerminator(p[i])
    requires lower < |p| && upper < |p| && digit < |p| && special < |p|
    requires InClass(p[lower], Lower) && InClass(p[upper], Upper) && InClass(p[digit], Digit) && InClass(p[special], Special)
    ensures MeetsPasswordPolicy(p)
  {
    FirstLineAfterPrefix(p, []);
    assert p + [] == p;
  }
}
