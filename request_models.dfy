/**
 * The acceptance rules of the API's request bodies (fastapi-server/models.py), as the
 * pydantic (version 1) models declare them: field bounds, the id and text validators,
 * the e-mail pattern and the password length. Each field gives the accepted, possibly
 * normalised value or the problem; a model collects the problems of all its fields.
 */
module RequestModels {
  import opened Wrappers

  datatype Problem =
    | IdTooShort        // "ID must be at least 5 characters long"
    | TextBlank         // "Message text cannot be empty"
    | TextTooShort      // min_length=1
    | TextTooLong       // max_length=2000
    | DurationOutOfRange
    | EmailMismatch
    | PasswordTooShort

  datatype FieldError = FieldError(field: string, problem: Problem)

  /** A field of a request body: left out, sent as `null`, or sent with a value. */
  datatype Input<T> = Omitted | Null | Given(value: T)

  const MinIdLength: nat := 5
  const MinTextLength: nat := 1
  const MaxTextLength: nat := 2000
  const MinDuration: int := 5
  const MaxDuration: int := 300
  const DefaultDuration: int := 30
  const MinPasswordLength: nat := 8

  // ---------------------------------------------------------------------------
  // Ids.

  /** `validate_ids`: an id of fewer than five characters (the empty one too) is refused; any other is kept as sent. */
  function ValidateIds(v: string): (r: Result<string, Problem>)
    ensures r.Success? <==> |v| >= MinIdLength
    ensures r.Success? ==> r.value == v
    ensures r.Failure? ==> r.error == IdTooShort
  {
    if v == "" || |v| < MinIdLength then Failure(IdTooShort) else Success(v)
  }

  // ---------------------------------------------------------------------------
  // Python's `str.strip()`.

  /** `str.isspace()` for one character: the whitespace set that `strip()` removes. */
  predicate IsSpace(c: char) {
    var n := c as int;
    || (0x09 <= n <= 0x0D) || (0x1C <= n <= 0x20) || n == 0x85 || n == 0xA0 || n == 0x1680
    || (0x2000 <= n <= 0x200A) || n == 0x2028 || n == 0x2029 || n == 0x202F || n == 0x205F || n == 0x3000
  }

  predicate AllSpace(s: string) {
    forall i :: 0 <= i < |s| ==> IsSpace(s[i])
  }

  function StripLeading(s: string): (r: string)
    ensures |r| <= |s| && r == s[|s| - |r|..]
    ensures AllSpace(s[..|s| - |r|])
    ensures r != [] ==> !IsSpace(r[0])
  {
    if s != [] && IsSpace(s[0]) then StripLeading(s[1..]) else s
  }

  function StripTrailing(s: string): (r: string)
    ensures |r| <= |s| && r == s[..|r|]
    ensures AllSpace(s[|r|..])
    ensures r != [] ==> !IsSpace(r[|r| - 1])
  {
    if s != [] && IsSpace(s[|s| - 1]) then StripTrailing(s[..|s| - 1]) else s
  }

  /**
   * `str.strip()`: `s` is a run of whitespace, the result, and a run of whitespace, and the
   * result neither starts nor ends with whitespace.
   */
  function Strip(s: string): (r: string)
    ensures exists i :: 0 <= i <= |s| - |r| && r == s[i..i + |r|] && AllSpace(s[..i]) && AllSpace(s[i + |r|..])
    ensures r != [] ==> !IsSpace(r[0]) && !IsSpace(r[|r| - 1])
  {
    var l := StripLeading(s);
    var r := StripTrailing(l);
    var i := |s| - |l|;
    assert r == s[i..i + |r|];
    assert s[i + |r|..] == l[|r|..];
    r
  }

  /** Stripping a stripped text changes nothing. */
  lemma StripIdempotent(s: string)
    ensures Strip(Strip(s)) == Strip(s)
  {
    var r := Strip(s);
    assert StripLeading(r) == r;
  }

  lemma {:induction false} StripLeadingOfSpaces(s: string)
    requires AllSpace(s)
    ensures StripLeading(s) == ""
  {
    if s != [] {
      StripLeadingOfSpaces(s[1..]);
    }
  }

  /** The stripped text is empty exactly when the text is all whitespace. */
  lemma StripEmptyIffBlank(s: string)
    ensures Strip(s) == "" <==> AllSpace(s)
  {
    if AllSpace(s) {
      StripLeadingOfSpaces(s);
    }
    if Strip(s) == "" {
      var i :| 0 <= i <= |s| && AllSpace(s[..i]) && AllSpace(s[i..]);
      forall k | 0 <= k < |s| ensures IsSpace(s[k]) {
        if k < i {
          assert s[..i][k] == s[k];
        } else {
          assert s[i..][k - i] == s[k];
        }
      }
    }
  }

  // ---------------------------------------------------------------------------
  // Message text.

  /** `validate_text`: blank text is refused; other text is returned stripped. */
  function ValidateText(v: string): (r: Result<string, Problem>)
    ensures r.Success? <==> !AllSpace(v)
    ensures r.Success? ==> r.value == Strip(v) && r.value != ""
    ensures r.Failure? ==> r.error == TextBlank
  {
    StripEmptyIffBlank(v);
    if Strip(v) == "" then Failure(TextBlank) else Success(Strip(v))
  }

  /**
   * `MessageRequest.text`: the length bounds hold for the text as sent, before the
   * validator strips it; the accepted value is the stripped text.
   */
  function AcceptMessageText(v: string): (r: Result<string, Problem>)
    ensures r.Success? <==> MinTextLength <= |v| <= MaxTextLength && !AllSpace(v)
    ensures r.Success? ==> r.value == Strip(v) && MinTextLength <= |r.value| <= |v|
    ensures |v| > MaxTextLength ==> r == Failure(TextTooLong)
    ensures |v| < MinTextLength ==> r == Failure(TextTooShort)
    ensures MinTextLength <= |v| <= MaxTextLength && AllSpace(v) ==> r == Failure(TextBlank)
  {
    if |v| < MinTextLength then Failure(TextTooShort)
    else if |v| > MaxTextLength then Failure(TextTooLong)
    else ValidateText(v)
  }

  /** A text over the limit is refused even when stripping would bring it under. */
  lemma LongPaddedTextRefused()
    ensures var v := seq(MaxTextLength + 1, i => if i == 0 then 'h' else ' ');
      AcceptMessageText(v) == Failure(TextTooLong) && ValidateText(v).Success?
  {
    var v := seq(MaxTextLength + 1, i => if i == 0 then 'h' else ' ');
    assert !IsSpace(v[0]);
  }

  // ---------------------------------------------------------------------------
  // Conversation properties.

  /** `max_duration: Optional[int] = Field(default=30, ge=5, le=300)`; `null` is let through. */
  function AcceptMaxDuration(d: Input<int>): (r: Result<Option<int>, Problem>)
    ensures d.Omitted? ==> r == Success(Some(DefaultDuration))
    ensures d.Null? ==> r == Success(None)
    ensures d.Given? ==> (r.Success? <==> MinDuration <= d.value <= MaxDuration)
    ensures d.Given? && r.Success? ==> r.value == Some(d.value)
    ensures r.Success? && r.value.Some? ==> MinDuration <= r.value.value <= MaxDuration
    ensures r.Failure? ==> r.error == DurationOutOfRange
  {
    match d
    case Omitted => Success(Some(DefaultDuration))
    case Null => Success(None)
    case Given(v) => if MinDuration <= v <= MaxDuration then Success(Some(v)) else Failure(DurationOutOfRange)
  }

  // ---------------------------------------------------------------------------
  // E-mail and password.

  predicate NoAt(s: string) {
    forall k :: 0 <= k < |s| ==> s[k] != '@'
  }

  /** `^[^@]+@[^@]+\.[^@]+$`, read as a concatenation of its five parts. */
  ghost predicate MatchesEmailPattern(s: string) {
    exists i, j :: 0 < i && i + 1 < j && j + 1 < |s| &&
      NoAt(s[..i]) && s[i] == '@' && NoAt(s[i + 1..j]) && s[j] == '.' && NoAt(s[j + 1..])
  }

  /** The index of the first `@`, or -1. */
  function FirstAt(s: string): (i: int)
    ensures -1 <= i < |s|
    ensures 0 <= i ==> s[i] == '@' && NoAt(s[..i])
    ensures i == -1 <==> NoAt(s)
  {
    if s == [] then -1
    else if s[0] == '@' then 0
    else
      var k := FirstAt(s[1..]);
      if k < 0 then -1 else k + 1
  }

  /** An `@` with none before it is the first one. */
  lemma {:induction false} FirstAtIs(s: string, i: nat)
    requires i < |s| && s[i] == '@' && NoAt(s[..i])
    ensures FirstAt(s) == i
  {
    if i > 0 {
      assert s[..i][0] == s[0];
      assert s[1..][..i - 1] == s[..i][1..];
      FirstAtIs(s[1..], i - 1);
    }
  }

  /** A `.` that is neither the first nor the last character. */
  predicate HasInnerDot(d: string) {
    exists j :: 0 < j < |d| - 1 && d[j] == '.'
  }

  /** The direct check: one `@`, not first, and a domain after it with an inner dot. */
  predicate IsEmail(s: string) {
    var a := FirstAt(s);
    a > 0 && NoAt(s[a + 1..]) && HasInnerDot(s[a + 1..])
  }

  lemma IsEmailThenPattern(s: string)
    requires IsEmail(s)
    ensures MatchesEmailPattern(s)
  {
    var a := FirstAt(s);
    var d := s[a + 1..];
    var k :| 0 < k < |d| - 1 && d[k] == '.';
    var j := a + 1 + k;
    assert s[a + 1..j] == d[..k];
    assert s[j + 1..] == d[k + 1..];
    assert NoAt(s[..a]) && s[a] == '@' && NoAt(s[a + 1..j]) && s[j] == '.' && NoAt(s[j + 1..]);
  }

  /** Where the pattern's `@` stands, the whole domain after it has no `@` and an inner dot. */
  lemma PatternDomain(s: string, i: int, j: int)
    requires 0 < i && i + 1 < j && j + 1 < |s|
    requires NoAt(s[..i]) && s[i] == '@' && NoAt(s[i + 1..j]) && s[j] == '.' && NoAt(s[j + 1..])
    ensures FirstAt(s) == i
    ensures NoAt(s[i + 1..]) && HasInnerDot(s[i + 1..])
  {
    FirstAtIs(s, i);
    var d := s[i + 1..];
    forall k | 0 <= k < |d| ensures d[k] != '@' {
      if k < j - i - 1 {
        assert d[k] == s[i + 1..j][k];
      } else if k > j - i - 1 {
        assert d[k] == s[j + 1..][k - (j - i)];
      }
    }
    assert d[j - i - 1] == '.';
  }

  lemma PatternThenIsEmail(s: string)
    requires MatchesEmailPattern(s)
    ensures IsEmail(s)
  {
    var i, j :| 0 < i && i + 1 < j && j + 1 < |s| &&
      NoAt(s[..i]) && s[i] == '@' && NoAt(s[i + 1..j]) && s[j] == '.' && NoAt(s[j + 1..]);
    PatternDomain(s, i, j);
  }

  /** The direct check and the pattern accept the same strings. */
  lemma IsEmailMatchesPattern(s: string)
    ensures IsEmail(s) <==> MatchesEmailPattern(s)
  {
    if IsEmail(s) { IsEmailThenPattern(s); }
    if MatchesEmailPattern(s) { PatternThenIsEmail(s); }
  }

  /** `UserCreate.email`: accepted exactly when it matches the pattern, and kept as sent. */
  function AcceptEmail(s: string): (r: Result<string, Problem>)
    ensures r.Success? <==> MatchesEmailPattern(s)
    ensures r.Success? ==> r.value == s
    ensures r.Failure? ==> r.error == EmailMismatch
    ensures r.Success? ==> exists p :: 0 < p < |s| && s[p] == '@' && NoAt(s[..p]) && NoAt(s[p + 1..]) && HasInnerDot(s[p + 1..])
  {
    IsEmailMatchesPattern(s);
    if IsEmail(s) then Success(s) else Failure(EmailMismatch)
  }

  /** `UserCreate.password`: at least eight characters. */
  function AcceptPassword(p: string): (r: Result<string, Problem>)
    ensures r.Success? <==> |p| >= MinPasswordLength
    ensures r.Success? ==> r.value == p
    ensures r.Failure? ==> r.error == PasswordTooShort
  {
    if |p| < MinPasswordLength then Failure(PasswordTooShort) else Success(p)
  }

  // ---------------------------------------------------------------------------
  // Whole request bodies: every field is checked and every problem is reported.

  /** The problem of one field, tagged with the field's name, or nothing. */
  function Problems<T>(field: string, r: Result<T, Problem>): (e: seq<FieldError>)
    ensures r.Success? <==> e == []
  {
    if r.Failure? then [FieldError(field, r.error)] else []
  }

  datatype ConversationRequest = ConversationRequest(
    replicaId: string, personaId: string, name: Option<string>, maxDuration: Option<int>)

  /**
   * `ConversationRequest`: both ids checked by `validate_ids`; `properties` left out gets
   * the default properties, `null` none, and given ones have their duration bounded.
   */
  function AcceptConversationRequest(replicaId: string, personaId: string, name: Option<string>,
                                     properties: Input<Input<int>>): (r: Result<ConversationRequest, seq<FieldError>>)
    ensures r.Success? <==>
      |replicaId| >= MinIdLength && |personaId| >= MinIdLength &&
      (properties.Given? ==> AcceptMaxDuration(properties.value).Success?)
    ensures r.Success? ==> r.value.replicaId == replicaId && r.value.personaId == personaId && r.value.name == name
    ensures r.Success? && properties.Omitted? ==> r.value.maxDuration == Some(DefaultDuration)
    ensures r.Success? && properties.Null? ==> r.value.maxDuration == None
    ensures r.Success? && properties.Given? ==> r.value.maxDuration == AcceptMaxDuration(properties.value).value
    ensures r.Failure? ==> (FieldError("properties.max_duration", DurationOutOfRange) in r.error <==>
      properties.Given? && AcceptMaxDuration(properties.value).Failure?)
    ensures r.Failure? ==> (FieldError("replica_id", IdTooShort) in r.error <==> |replicaId| < MinIdLength)
    ensures r.Failure? ==> (FieldError("persona_id", IdTooShort) in r.error <==> |personaId| < MinIdLength)
    ensures r.Failure? ==>
      |r.error| == (if |replicaId| < MinIdLength then 1 else 0) + (if |personaId| < MinIdLength then 1 else 0)
                   + (if properties.Given? && AcceptMaxDuration(properties.value).Failure? then 1 else 0)
  {
    var duration := match properties
      case Omitted => AcceptMaxDuration(Omitted)
      case Null => Success(None)
      case Given(d) => AcceptMaxDuration(d);
    var errors := Problems("replica_id", ValidateIds(replicaId)) + Problems("persona_id", ValidateIds(personaId))
                  + Problems("properties.max_duration", duration);
    if errors == [] then
      Success(ConversationRequest(replicaId, personaId, name, duration.value))
    else Failure(errors)
  }

  /** `MessageRequest`: the accepted body holds the stripped text. */
  function AcceptMessageRequest(text: string): (r: Result<string, seq<FieldError>>)
    ensures r.Success? <==> MinTextLength <= |text| <= MaxTextLength && !AllSpace(text)
    ensures r.Success? ==> r.value == Strip(text)
    ensures r.Failure? ==> r.error == [FieldError("text", AcceptMessageText(text).error)]
  {
    match AcceptMessageText(text)
    case Success(v) => Success(v)
    case Failure(p) => Failure([FieldError("text", p)])
  }

  datatype UserCreate = UserCreate(email: string, password: string, fullName: Option<string>)

  /** `UserCreate`: the e-mail pattern and the password length, both reported when both fail. */
  function AcceptUserCreate(email: string, password: string, fullName: Option<string>): (r: Result<UserCreate, seq<FieldError>>)
    ensures r.Success? <==> MatchesEmailPattern(email) && |password| >= MinPasswordLength
    ensures r.Success? ==> r.value == UserCreate(email, password, fullName)
    ensures r.Failure? ==> |r.error| == (if MatchesEmailPattern(email) then 0 else 1) + (if |password| >= MinPasswordLength then 0 else 1)
    ensures r.Failure? ==> (FieldError("email", EmailMismatch) in r.error <==> !MatchesEmailPattern(email))
    ensures r.Failure? ==> (FieldError("password", PasswordTooShort) in r.error <==> |password| < MinPasswordLength)
  {
    var errors := Problems("email", AcceptEmail(email)) + Problems("password", AcceptPassword(password));
    if errors == [] then Success(UserCreate(email, password, fullName)) else Failure(errors)
  }
}
