/** Canonical phone numbers: digits only, with the country prefix, 8 to 15 of them (section 6 of ITU-T E.164). */
module Phone {
  import opened Results

  /** Python's notions of white space and digit, of which only what the proofs need is fixed. */
  datatype CharClasses = CharClasses(space: char -> bool, digit: char -> bool)

  const SEPARATORS: set<char> := {'-', '+', '(', ')'}
  const COUNTRY: string := "62"

  ghost predicate Sound(cc: CharClasses) {
    && (forall c: char :: cc.digit(c) ==> !cc.space(c) && c !in SEPARATORS)
    && cc.digit('6') && cc.digit('2') && cc.digit('0')
  }

  datatype PhoneError = Empty | Blank | NotNumeric | LocalTooShort | BadLength

  function StripLeft(cc: CharClasses, s: string): string {
    if s != "" && cc.space(s[0]) then StripLeft(cc, s[1..]) else s
  }

  function StripRight(cc: CharClasses, s: string): string {
    if s != "" && cc.space(s[|s| - 1]) then StripRight(cc, s[..|s| - 1]) else s
  }

  function Strip(cc: CharClasses, s: string): string {
    StripRight(cc, StripLeft(cc, s))
  }

  predicate Kept(cc: CharClasses, c: char) {
    !cc.space(c) && c !in SEPARATORS
  }

  /** `s` without white space and formatting symbols. */
  function Clean(cc: CharClasses, s: string): string {
    if s == "" then ""
    else (if Kept(cc, s[0]) then [s[0]] else []) + Clean(cc, s[1..])
  }

  predicate IsDigits(cc: CharClasses, s: string) {
    s != "" && forall k :: 0 <= k < |s| ==> cc.digit(s[k])
  }

  function Normalize(cc: CharClasses, phone: Option<string>): Result<string, PhoneError> {
    if phone.None? || phone.value == "" then Err(Empty)
    else
      var raw := Strip(cc, phone.value);
      if raw == "" then Err(Blank)
      else
        var cleaned := Clean(cc, raw);
        if !IsDigits(cc, cleaned) then Err(NotNumeric)
        else if cleaned[0] == '0' then
          if |cleaned| < 9 then Err(LocalTooShort) else Checked(COUNTRY + cleaned[1..])
        else Checked(cleaned)
  }

  function Checked(number: string): Result<string, PhoneError> {
    if |number| < 8 || |number| > 15 then Err(BadLength) else Ok(number)
  }

  predicate Canonical(cc: CharClasses, s: string) {
    IsDigits(cc, s) && 8 <= |s| <= 15 && s[0] != '0'
  }

  lemma {:induction false} CleanKeeps(cc: CharClasses, s: string)
    requires forall k :: 0 <= k < |s| ==> Kept(cc, s[k])
    ensures Clean(cc, s) == s
  {
    if s != "" {
      CleanKeeps(cc, s[1..]);
    }
  }

  lemma {:induction false} CleanAppend(cc: CharClasses, a: string, b: string)
    ensures Clean(cc, a + b) == Clean(cc, a) + Clean(cc, b)
  {
    if a == "" {
      assert a + b == b;
    } else {
      assert (a + b)[1..] == a[1..] + b;
      CleanAppend(cc, a[1..], b);
    }
  }

  lemma {:induction false} StripRightIsHarmless(cc: CharClasses, s: string)
    ensures Clean(cc, StripRight(cc, s)) == Clean(cc, s)
  {
    if s != "" && cc.space(s[|s| - 1]) {
      StripRightIsHarmless(cc, s[..|s| - 1]);
      CleanAppend(cc, s[..|s| - 1], [s[|s| - 1]]);
      assert s == s[..|s| - 1] + [s[|s| - 1]];
    }
  }

  lemma {:induction false} StripLeftIsHarmless(cc: CharClasses, s: string)
    ensures Clean(cc, StripLeft(cc, s)) == Clean(cc, s)
  {
    if s != "" && cc.space(s[0]) {
      StripLeftIsHarmless(cc, s[1..]);
    }
  }

  /** Stripping first makes no difference to what is left. */
  lemma StripIsHarmless(cc: CharClasses, s: string)
    ensures Clean(cc, Strip(cc, s)) == Clean(cc, s)
  {
    StripLeftIsHarmless(cc, s);
    StripRightIsHarmless(cc, StripLeft(cc, s));
  }

  /** The numbers that normalisation leaves alone are exactly the canonical ones. */
  lemma FixedPoints(cc: CharClasses, s: string)
    requires Sound(cc)
    ensures Normalize(cc, Some(s)) == Ok(s) <==> Canonical(cc, s)
  {
    StripIsHarmless(cc, s);
    if Canonical(cc, s) {
      CleanKeeps(cc, s);
    }
  }

  /** Every result is canonical, so normalising again changes nothing. */
  lemma NormalizeIsIdempotent(cc: CharClasses, phone: Option<string>)
    requires Sound(cc) && Normalize(cc, phone).Ok?
    ensures Canonical(cc, Normalize(cc, phone).value)
    ensures Normalize(cc, Some(Normalize(cc, phone).value)) == Normalize(cc, phone)
  {
    FixedPoints(cc, Normalize(cc, phone).value);
  }

  /** Only the digits matter, not how they are grouped. */
  lemma FormattingDoesNotMatter(cc: CharClasses, a: string, b: string)
    requires Sound(cc) && Clean(cc, a) == Clean(cc, b)
    ensures Normalize(cc, Some(a)).Ok? <==> Normalize(cc, Some(b)).Ok?
    ensures Normalize(cc, Some(a)).Ok? ==> Normalize(cc, Some(a)) == Normalize(cc, Some(b))
  {
    StripIsHarmless(cc, a);
    StripIsHarmless(cc, b);
  }

  /** White space, a hyphen, a plus or a parenthesis put anywhere into a number makes no difference. */
  lemma SeparatorsDoNotMatter(cc: CharClasses, a: string, c: char, b: string)
    requires Sound(cc) && (cc.space(c) || c in {'-', '+', '(', ')'})
    ensures Normalize(cc, Some(a + [c] + b)).Ok? <==> Normalize(cc, Some(a + b)).Ok?
    ensures Normalize(cc, Some(a + b)).Ok? ==> Normalize(cc, Some(a + [c] + b)) == Normalize(cc, Some(a + b))
  {
    CleanAppend(cc, a + [c], b);
    CleanAppend(cc, a, [c]);
    CleanAppend(cc, a, b);
    assert Clean(cc, [c]) == [] by {
      assert [c][1..] == [];
    }
    FormattingDoesNotMatter(cc, a + [c] + b, a + b);
  }

  /** Anything but digits left after that is refused. */
  lemma LettersAreRefused(cc: CharClasses, a: string, c: char, b: string)
    requires Sound(cc) && !cc.digit(c) && !cc.space(c) && c !in {'-', '+', '(', ')'}
    ensures Normalize(cc, Some(a + [c] + b)) == Err(NotNumeric)
  {
    var s := a + [c] + b;
    CleanAppend(cc, a + [c], b);
    CleanAppend(cc, a, [c]);
    assert Clean(cc, [c]) == [c] by {
      assert [c][1..] == [];
    }
    StripIsHarmless(cc, s);
    assert Clean(cc, s)[|Clean(cc, a)|] == c;
    assert Strip(cc, s) != "" by {
      assert Clean(cc, "") == "";
    }
  }

  lemma NormalizeCleaned(cc: CharClasses, s: string, cleaned: string)
    requires Clean(cc, s) == cleaned && IsDigits(cc, cleaned)
    ensures Normalize(cc, Some(s)) ==
            if cleaned[0] != '0' then Checked(cleaned)
            else if |cleaned| < 9 then Err(LocalTooShort)
            else Checked(COUNTRY + cleaned[1..])
  {
    StripIsHarmless(cc, s);
  }

  lemma PlusIsDropped(cc: CharClasses, s: string)
    ensures Clean(cc, "+" + s) == Clean(cc, s)
  {
    assert ("+" + s)[1..] == s;
  }

  lemma DigitsAreClean(cc: CharClasses, prefix: string, rest: string)
    requires Sound(cc) && IsDigits(cc, prefix) && IsDigits(cc, rest)
    ensures IsDigits(cc, prefix + rest) && Clean(cc, prefix + rest) == prefix + rest
  {
    forall k | 0 <= k < |prefix + rest| ensures cc.digit((prefix + rest)[k]) && Kept(cc, (prefix + rest)[k]) {
      assert (prefix + rest)[k] == if k < |prefix| then prefix[k] else rest[k - |prefix|];
    }
    CleanKeeps(cc, prefix + rest);
  }

  lemma LocalForm(cc: CharClasses, rest: string)
    requires Sound(cc) && IsDigits(cc, rest) && |rest| >= 8
    ensures Normalize(cc, Some("0" + rest)) == Checked(COUNTRY + rest)
  {
    DigitsAreClean(cc, "0", rest);
    NormalizeCleaned(cc, "0" + rest, "0" + rest);
    assert ("0" + rest)[1..] == rest;
  }

  lemma InternationalForm(cc: CharClasses, rest: string)
    requires Sound(cc) && IsDigits(cc, rest)
    ensures Normalize(cc, Some("+" + (COUNTRY + rest))) == Checked(COUNTRY + rest)
  {
    DigitsAreClean(cc, COUNTRY, rest);
    PlusIsDropped(cc, COUNTRY + rest);
    NormalizeCleaned(cc, "+" + (COUNTRY + rest), COUNTRY + rest);
  }

  /** A local number and its international form are the same number. */
  lemma LocalAndInternationalAgree(cc: CharClasses, rest: string)
    requires Sound(cc) && IsDigits(cc, rest) && |rest| >= 8
    ensures Normalize(cc, Some("0" + rest)) == Normalize(cc, Some("+" + (COUNTRY + rest)))
  {
    LocalForm(cc, rest);
    InternationalForm(cc, rest);
  }
}
