/** The sign-up validators of src/schemas/signUpSchema.ts: the username rule
    (length 2..20 and the pattern `^[a-zA-Z0-9_]+$`), the password rule
    (length at least 6) and their conjunction with an email rule. Lengths are
    JavaScript string lengths, that is, counts of UTF-16 code units. */
module SignUp {

  const UsernameMinLength: nat := 2
  const UsernameMaxLength: nat := 20
  const PasswordMinLength: nat := 6

  /** One character of the class `[a-zA-Z0-9_]`. */
  predicate IsUsernameChar(c: char) {
    || ('a' <= c <= 'z')
    || ('A' <= c <= 'Z')
    || ('0' <= c <= '9')
    || c == '_'
  }

  /** The number of UTF-16 code units that encode one character: characters
      outside the Basic Multilingual Plane take a surrogate pair. */
  function CodeUnits(c: char): nat {
    if c as int < 0x1_0000 then 1 else 2
  }

  /** JavaScript's `length` of a string. */
  function Utf16Length(s: string): (n: nat)
    ensures |s| <= n <= 2 * |s|
  {
    if |s| == 0 then 0 else CodeUnits(s[0]) + Utf16Length(s[1..])
  }

  /** True when every character is in the Basic Multilingual Plane, where
      JavaScript's length and the character count agree. */
  predicate AllSingleUnit(s: string) {
    forall i | 0 <= i < |s| :: s[i] as int < 0x1_0000
  }

  /** The anchored pattern `^[a-zA-Z0-9_]+$`: one or more class characters
      and nothing else. A character outside the Basic Multilingual Plane is a
      surrogate pair in JavaScript, and neither surrogate is in the class, so
      matching by characters and by code units agree. */
  predicate MatchesUsernamePattern(s: string) {
    |s| >= 1 && forall i | 0 <= i < |s| :: IsUsernameChar(s[i])
  }

  /** `usernameValidation`: the `min(2)`, `max(20)` and `regex` checks all pass. */
  predicate ValidUsername(s: string) {
    && UsernameMinLength <= Utf16Length(s)
    && Utf16Length(s) <= UsernameMaxLength
    && MatchesUsernamePattern(s)
  }

  /** The password field: `z.string().min(6)`. */
  predicate ValidPassword(p: string) {
    Utf16Length(p) >= PasswordMinLength
  }

  /** The body of a sign-up request. */
  datatype SignUpInput = SignUpInput(username: string, email: string, password: string)

  /** The fields `signUpSchema` can report. */
  datatype Field = Username | Email | Password

  /** The fields whose checks fail; zod reports every failing field rather
      than stopping at the first. The email rule (`z.email`) is a parameter. */
  function FieldErrors(input: SignUpInput, emailOk: string -> bool): (errs: set<Field>)
    ensures Username in errs <==> !ValidUsername(input.username)
    ensures Email in errs <==> !emailOk(input.email)
    ensures Password in errs <==> !ValidPassword(input.password)
  {
    (if ValidUsername(input.username) then {} else {Username})
    + (if emailOk(input.email) then {} else {Email})
    + (if ValidPassword(input.password) then {} else {Password})
  }

  /** `signUpSchema.safeParse(input).success`. */
  predicate ValidSignUp(input: SignUpInput, emailOk: string -> bool) {
    FieldErrors(input, emailOk) == {}
  }

  /** JavaScript length distributes over concatenation. */
  lemma {:induction false} Utf16LengthAppend(a: string, b: string)
    ensures Utf16Length(a + b) == Utf16Length(a) + Utf16Length(b)
    decreases |a|
  {
    if |a| == 0 {
      assert a + b == b;
    } else {
      assert (a + b)[1..] == a[1..] + b;
      Utf16LengthAppend(a[1..], b);
    }
  }

  /** On Basic Multilingual Plane text JavaScript's length is the character count. */
  lemma {:induction false} SingleUnitLength(s: string)
    requires AllSingleUnit(s)
    ensures Utf16Length(s) == |s|
    decreases |s|
  {
    if |s| > 0 {
      assert AllSingleUnit(s[1..]) by {
        forall i | 0 <= i < |s[1..]| ensures s[1..][i] as int < 0x1_0000 {
          assert s[1..][i] == s[i + 1];
        }
      }
      SingleUnitLength(s[1..]);
    }
  }

  /** A string of username characters is ASCII. */
  lemma UsernameCharsAreSingleUnit(s: string)
    requires forall i | 0 <= i < |s| :: IsUsernameChar(s[i])
    ensures AllSingleUnit(s)
  {
  }

  /** A username is accepted exactly when it has 2 to 20 characters, each an
      ASCII letter, digit or underscore. */
  lemma UsernameCharacterisation(s: string)
    ensures ValidUsername(s) <==>
      && 2 <= |s| <= 20
      && forall i | 0 <= i < |s| :: IsUsernameChar(s[i])
  {
    if forall i | 0 <= i < |s| :: IsUsernameChar(s[i]) {
      UsernameCharsAreSingleUnit(s);
      SingleUnitLength(s);
    }
  }

  /** A single character outside `[A-Za-z0-9_]` rejects the username,
      whatever its length. */
  lemma ForeignCharRejected(s: string, i: nat)
    requires i < |s|
    requires !IsUsernameChar(s[i])
    ensures !ValidUsername(s)
  {
  }

  /** Concrete examples of rejected characters: space, hyphen, dot and a
      non-ASCII letter. */
  lemma ForeignCharExamples()
    ensures !ValidUsername("john doe")
    ensures !ValidUsername("john-doe")
    ensures !ValidUsername("john.doe")
    ensures !ValidUsername("josé")
  {
    ForeignCharRejected("john doe", 4);
    ForeignCharRejected("john-doe", 4);
    ForeignCharRejected("john.doe", 4);
    ForeignCharRejected("josé", 3);
  }

  /** The empty username is rejected. */
  lemma EmptyUsernameRejected()
    ensures !ValidUsername("")
  {
  }

  /** Length boundaries for strings made of allowed characters: 1 and 21 are
      rejected, 2 and 20 accepted. */
  lemma UsernameLengthBoundaries(s: string)
    requires forall i | 0 <= i < |s| :: IsUsernameChar(s[i])
    ensures |s| == 1 || |s| == 21 ==> !ValidUsername(s)
    ensures |s| == 2 || |s| == 20 ==> ValidUsername(s)
  {
    UsernameCharacterisation(s);
  }

  /** Any password of six or more characters is accepted and any of two or
      fewer rejected; on Basic Multilingual Plane text the rule is exactly
      "at least six characters", so five is rejected and six accepted. */
  lemma PasswordBoundaries(p: string)
    ensures |p| >= 6 ==> ValidPassword(p)
    ensures |p| <= 2 ==> !ValidPassword(p)
    ensures AllSingleUnit(p) ==> (ValidPassword(p) <==> |p| >= 6)
  {
    if AllSingleUnit(p) {
      SingleUnitLength(p);
    }
  }

  /** JavaScript counts code units, so three emoji make a valid password. */
  lemma ThreeEmojiPassword()
    ensures ValidPassword("\U{1F600}\U{1F600}\U{1F600}")
  {
  }

  /** Sign-up input is accepted exactly when the username, email and
      password rules all hold. */
  lemma SignUpConjunction(input: SignUpInput, emailOk: string -> bool)
    ensures ValidSignUp(input, emailOk) <==>
      ValidUsername(input.username) && emailOk(input.email) && ValidPassword(input.password)
  {
  }

  /** The username check as a single pass over the string, counting code
      units and testing each character against the class. */
  method CheckUsername(s: string) returns (ok: bool)
    ensures ok <==> ValidUsername(s)
  {
    var units := 0;
    var allInClass := true;
    var i := 0;
    while i < |s|
      invariant 0 <= i <= |s|
      invariant units == Utf16Length(s[..i])
      invariant allInClass <==> forall k | 0 <= k < i :: IsUsernameChar(s[k])
    {
      Utf16LengthAppend(s[..i], [s[i]]);
      assert s[..i + 1] == s[..i] + [s[i]];
      units := units + CodeUnits(s[i]);
      allInClass := allInClass && IsUsernameChar(s[i]);
      i := i + 1;
    }
    assert s[..i] == s;
    ok := UsernameMinLength <= units && units <= UsernameMaxLength && |s| >= 1 && allInClass;
  }
}
