/** `generate_password`: argument checks, then up to `max_attempts` random
    candidates drawn from the allowed alphabet, the first one meeting the
    constraints being returned. The random source `secrets.choice` is a
    parameter: `pick(attempt, position)` is the index drawn for that
    character, taken modulo the alphabet's size. */
module Passwords {
  import opened Wrappers
  import opened Driver
  import opened Text

  /** `string.ascii_letters`, `string.digits` and `string.punctuation`. */
  const AsciiLetters: string := "abcdefghijklmnopqrstuvwxyzABCDEFGHIJKLMNOPQRSTUVWXYZ"
  const Digits: string := "0123456789"
  const Punctuation: string := "!\"#$%&'()*+,-./:;<=>?@[\\]^_`{|}~"

  const LengthMessage: string := "Password length must be at least 1"
  const ForceMessage: string := "Cannot force character types that are not allowed"

  /** The override when it is truthy, the punctuation set otherwise. */
  function SpecialChars(override: Option<string>): (s: string)
    ensures |s| > 0
    ensures Truthy(override) ==> s == override.value
  {
    if Truthy(override) then override.value else Punctuation
  }

  /** Letters, then digits if allowed, then the special set if allowed. */
  function Alphabet(useNums: bool, useSpecial: bool, specials: string): (a: string)
    ensures |a| >= |AsciiLetters|
    ensures forall c :: c in a <==> c in AsciiLetters || (useNums && c in Digits) || (useSpecial && c in specials)
  {
    AsciiLetters + (if useNums then Digits else []) + (if useSpecial then specials else [])
  }

  /** The candidate of one attempt: `length` characters, each chosen from
      the alphabet. */
  function Candidate(alphabet: string, length: nat, pick: (nat, nat) -> nat, attempt: nat): (pwd: string)
    requires |alphabet| > 0
    ensures |pwd| == length
    ensures forall i :: 0 <= i < |pwd| ==> pwd[i] in alphabet
  {
    seq(length, j requires 0 <= j < length => alphabet[pick(attempt, j) % |alphabet|])
  }

  /** The checks a candidate has to pass. */
  predicate Accepted(pwd: string, useNums: bool, useSpecial: bool, forceNum: bool, forceSpec: bool, specials: string)
  {
    |pwd| > 0 && !IsDigit(pwd[0]) &&
    (useNums && forceNum ==> exists i :: 0 <= i < |pwd| && IsDigit(pwd[i])) &&
    (useSpecial && forceSpec ==> exists i :: 0 <= i < |pwd| && pwd[i] in specials)
  }

  /** The `for attempt in range(max_attempts)` loop: the first accepted
      candidate, or None when every attempt is rejected. */
  method Draw(alphabet: string, length: nat, pick: (nat, nat) -> nat, useNums: bool, useSpecial: bool,
              forceNum: bool, forceSpec: bool, specials: string, maxAttempts: int)
    returns (r: Option<string>)
    requires |alphabet| > 0 && length >= 1
    ensures r.Some? ==>
              Accepted(r.value, useNums, useSpecial, forceNum, forceSpec, specials) &&
              exists a: nat :: a < maxAttempts && r.value == Candidate(alphabet, length, pick, a) &&
                forall b: nat :: b < a ==>
                  !Accepted(Candidate(alphabet, length, pick, b), useNums, useSpecial, forceNum, forceSpec, specials)
    ensures r.None? ==>
              forall a: nat :: a < maxAttempts ==>
                !Accepted(Candidate(alphabet, length, pick, a), useNums, useSpecial, forceNum, forceSpec, specials)
  {
    var attempt: nat := 0;
    while attempt < maxAttempts
      invariant forall b: nat :: b < attempt ==>
                  !Accepted(Candidate(alphabet, length, pick, b), useNums, useSpecial, forceNum, forceSpec, specials)
      decreases maxAttempts - attempt
    {
      var pwd := Candidate(alphabet, length, pick, attempt);
      if IsDigit(pwd[0]) {
        attempt := attempt + 1;
        continue;
      }
      if useNums && forceNum && !(exists i :: 0 <= i < |pwd| && IsDigit(pwd[i])) {
        attempt := attempt + 1;
        continue;
      }
      if useSpecial && forceSpec && !(exists i :: 0 <= i < |pwd| && pwd[i] in specials) {
        attempt := attempt + 1;
        continue;
      }
      return Some(pwd);
    }
    r := None;
  }

  method GeneratePassword(length: int, useNums: bool, useSpecial: bool, override: Option<string>,
                          forceNum: bool, forceSpec: bool, maxAttempts: int, pick: (nat, nat) -> nat)
    returns (r: Result<string, Exn>)
    ensures length < 1 ==> r == Err(ValueError(LengthMessage))
    ensures length >= 1 && ((forceNum && !useNums) || (forceSpec && !useSpecial)) ==>
              r == Err(ValueError(ForceMessage))
    ensures r.Ok? ==>
              var pwd := r.value;
              var specials := SpecialChars(override);
              |pwd| == length &&
              (forall i :: 0 <= i < |pwd| ==> pwd[i] in Alphabet(useNums, useSpecial, specials)) &&
              !IsDigit(pwd[0]) &&
              (useNums && forceNum ==> exists i :: 0 <= i < |pwd| && IsDigit(pwd[i])) &&
              (useSpecial && forceSpec ==> exists i :: 0 <= i < |pwd| && pwd[i] in specials)
    ensures r.Ok? ==>
              var specials := SpecialChars(override);
              var alphabet := Alphabet(useNums, useSpecial, specials);
              exists a: nat :: a < maxAttempts && r.value == Candidate(alphabet, length, pick, a) &&
                forall b: nat :: b < a ==>
                  !Accepted(Candidate(alphabet, length, pick, b), useNums, useSpecial, forceNum, forceSpec, specials)
    ensures length >= 1 && !((forceNum && !useNums) || (forceSpec && !useSpecial)) && r.Err? ==>
              var specials := SpecialChars(override);
              var alphabet := Alphabet(useNums, useSpecial, specials);
              r.error == ValueError("Unable to generate a valid password after " + IntString(maxAttempts) + " attempts") &&
              forall a: nat :: a < maxAttempts ==>
                !Accepted(Candidate(alphabet, length, pick, a), useNums, useSpecial, forceNum, forceSpec, specials)
  {
    if length < 1 {
      return Err(ValueError(LengthMessage));
    }
    if (forceNum && !useNums) || (forceSpec && !useSpecial) {
      return Err(ValueError(ForceMessage));
    }
    var specials := SpecialChars(override);
    var alphabet := Alphabet(useNums, useSpecial, specials);
    var drawn := Draw(alphabet, length, pick, useNums, useSpecial, forceNum, forceSpec, specials, maxAttempts);
    if drawn.None? {
      return Err(ValueError("Unable to generate a valid password after " + IntString(maxAttempts) + " attempts"));
    }
    var a: nat :| a < maxAttempts && drawn.value == Candidate(alphabet, length, pick, a);
    r := Ok(drawn.value);
  }

  /** A one-character password cannot both avoid a leading digit and
      contain a forced digit: with `length` 1 and a forced digit no
      candidate is ever accepted, so generation always ends in ValueError. */
  lemma OneCharacterForcedDigitRefused(pwd: string, useSpecial: bool, forceSpec: bool, specials: string)
    requires |pwd| == 1
    ensures !Accepted(pwd, true, useSpecial, true, forceSpec, specials)
  {
  }

  /** Conversely, any password that starts with a letter and holds a digit
      and a special character passes every check. */
  lemma AcceptedWhenAllPresent(pwd: string, specials: string, i: nat, j: nat)
    requires |pwd| > 0 && ('a' <= pwd[0] <= 'z' || 'A' <= pwd[0] <= 'Z')
    requires i < |pwd| && IsDigit(pwd[i]) && j < |pwd| && pwd[j] in specials
    ensures forall useNums, useSpecial, forceNum, forceSpec ::
              Accepted(pwd, useNums, useSpecial, forceNum, forceSpec, specials)
  {
    assert !IsDigit(pwd[0]);
  }

  /** The default alphabet is the 94 printable ASCII characters other than
      the space: 52 letters, 10 digits and 32 punctuation marks. */
  lemma DefaultAlphabetSize()
    ensures |Alphabet(true, true, SpecialChars(None))| == 94
  {
  }
}
