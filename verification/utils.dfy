/** The string utilities: password "hashing" and the two validators.
    Each validator is a character-level reading of its regular expression,
    proved equivalent to a structural description of the accepted strings. */
module Utils {
  import opened Strings

  /** Password hashing is a stub: the password comes back unchanged. */
  function HashPassword(password: string): (hashed: string)
    ensures hashed == password
  {
    password
  }

  // ---------------------------------------------------------------------
  // Email: one or more characters that are neither whitespace nor '@', an '@',
  // then a domain of such characters holding a separating '.', read left to right.

  /** How far the scan of the part after '@' has got towards a non-empty run,
      a '.', and another non-empty run. */
  datatype DomainPhase =
    | Empty     // nothing read yet
    | NoDot     // at least one character, no dot usable as the separator yet
    | DotLast   // a usable dot was just read
    | Dotted    // a usable dot followed by at least one character

  datatype EmailScan = Local(seen: bool) | Domain(phase: DomainPhase) | Rejected

  function DomainStep(p: DomainPhase, c: char): DomainPhase {
    match p
    case Empty => NoDot
    case NoDot => if c == '.' then DotLast else NoDot
    case DotLast => Dotted
    case Dotted => Dotted
  }

  function EmailStep(st: EmailScan, c: char): EmailScan {
    if IsWs(c) then Rejected
    else match st
      case Rejected => Rejected
      case Local(seen) =>
        if c != '@' then Local(true)
        else if seen then Domain(Empty)
        else Rejected
      case Domain(p) => if c == '@' then Rejected else Domain(DomainStep(p, c))
  }

  function EmailRun(st: EmailScan, s: string): EmailScan
    decreases |s|
  {
    if s == [] then st else EmailRun(EmailStep(st, s[0]), s[1..])
  }

  /** `validateEmail`: the scan ends with a dot-separated domain. */
  predicate ValidateEmail(email: string) {
    EmailRun(Local(false), email) == Domain(Dotted)
  }

  /** `d` has a '.' that is neither its first nor its last character. */
  ghost predicate InteriorDot(d: string) {
    exists j :: 0 < j < |d| - 1 && d[j] == '.'
  }

  /** The structural description of an accepted address. */
  ghost predicate EmailShape(email: string) {
    && NoWs(email)
    && Count(email, '@') == 1
    && Before(email, '@') != ""
    && InteriorDot(After(email, '@'))
  }

  /** What remains to be seen after a domain prefix in phase `p` for the
      domain to split into a non-empty run, a '.', and a non-empty run. */
  ghost predicate PhaseAccepts(p: DomainPhase, s: string) {
    match p
    case Empty => InteriorDot(s)
    case NoDot => exists j :: 0 <= j < |s| - 1 && s[j] == '.'
    case DotLast => |s| > 0
    case Dotted => true
  }

  lemma RejectedAbsorbs(s: string)
    ensures EmailRun(Rejected, s) == Rejected
    decreases |s|
  {
  }

  lemma {:induction false} PhaseAcceptsStep(p: DomainPhase, s: string)
    requires s != []
    ensures PhaseAccepts(p, s) <==> PhaseAccepts(DomainStep(p, s[0]), s[1..])
  {
  }

  /** After the '@', the scan accepts exactly the whitespace- and '@'-free
      rests that complete the phase it is in. */
  lemma {:induction false} DomainRun(p: DomainPhase, s: string)
    ensures EmailRun(Domain(p), s) == Domain(Dotted)
            <==> NoWs(s) && Count(s, '@') == 0 && PhaseAccepts(p, s)
    decreases |s|
  {
    if s == [] {
    } else {
      var c, t := s[0], s[1..];
      if IsWs(c) || c == '@' {
        RejectedAbsorbs(t);
        assert !IsWs(s[0]) || !NoWs(s);
      } else {
        DomainRun(DomainStep(p, c), t);
        PhaseAcceptsStep(p, s);
        assert NoWs(s) <==> NoWs(t) by {
          if NoWs(t) {
            forall k | 0 <= k < |s| ensures !IsWs(s[k]) {
              if k > 0 { assert s[k] == t[k - 1]; }
            }
          }
        }
      }
    }
  }

  lemma {:induction false} LocalRun(seen: bool, s: string)
    ensures EmailRun(Local(seen), s) == Domain(Dotted)
            <==> && NoWs(s)
                 && Count(s, '@') == 1
                 && (seen || IndexOf(s, '@') > 0)
                 && InteriorDot(After(s, '@'))
    decreases |s|
  {
    if s == [] {
    } else {
      var c, t := s[0], s[1..];
      assert NoWs(s) <==> !IsWs(c) && NoWs(t) by {
        if !IsWs(c) && NoWs(t) {
          forall k | 0 <= k < |s| ensures !IsWs(s[k]) {
            if k > 0 { assert s[k] == t[k - 1]; }
          }
        }
      }
      if IsWs(c) {
        RejectedAbsorbs(t);
      } else if c == '@' {
        assert IndexOf(s, '@') == 0;
        assert After(s, '@') == t;
        if seen {
          DomainRun(Empty, t);
        } else {
          RejectedAbsorbs(t);
        }
      } else {
        LocalRun(true, t);
        assert IndexOf(s, '@') == 1 + IndexOf(t, '@');
        assert After(s, '@') == After(t, '@');
      }
    }
  }

  /** `validateEmail` accepts exactly the strings with no whitespace and
      exactly one '@', a non-empty part before it, and a part after it that
      has a '.' neither first nor last. */
  lemma ValidateEmailCharacterisation(email: string)
    ensures ValidateEmail(email) <==> EmailShape(email)
  {
    LocalRun(false, email);
    var i := IndexOf(email, '@');
    assert Before(email, '@') == email[..i];
  }

  /** A plain address is accepted. */
  lemma EmailAcceptedSample()
    ensures ValidateEmail("a@b.co")
  {
  }

  /** A domain without an interior dot is refused. */
  lemma EmailNoDotSample()
    ensures !ValidateEmail("a@b.")
  {
  }

  /** An empty local part is refused. */
  lemma EmailEmptyLocalSample()
    ensures !ValidateEmail("@b.co")
  {
  }

  // ---------------------------------------------------------------------
  // Phone: "+8801", one digit from 3 to 9, eight digits, and nothing else,
  // as an anchored sequence of character classes.

  datatype CharClass = Exactly(c: char) | Between(lo: char, hi: char)

  predicate InClass(k: CharClass, c: char) {
    match k
    case Exactly(x) => c == x
    case Between(lo, hi) => lo <= c <= hi
  }

  const Digit: CharClass := Between('0', '9')

  /** The fourteen positions of the pattern, one class per character. */
  const PhonePattern: seq<CharClass> :=
    [Exactly('+'), Exactly('8'), Exactly('8'), Exactly('0'), Exactly('1'), Between('3', '9'),
     Digit, Digit, Digit, Digit, Digit, Digit, Digit, Digit]

  /** `s` matches `pattern` from its first character to its last. */
  predicate MatchesAnchored(pattern: seq<CharClass>, s: string)
    decreases |pattern|
  {
    if pattern == [] then s == []
    else s != [] && InClass(pattern[0], s[0]) && MatchesAnchored(pattern[1..], s[1..])
  }

  /** `validateBangladeshiPhone`. */
  predicate ValidateBangladeshiPhone(phone: string) {
    MatchesAnchored(PhonePattern, phone)
  }

  lemma {:induction false} MatchesAnchoredPointwise(pattern: seq<CharClass>, s: string)
    ensures MatchesAnchored(pattern, s)
            <==> |s| == |pattern| && forall k | 0 <= k < |s| :: InClass(pattern[k], s[k])
    decreases |pattern|
  {
    if pattern != [] && s != [] {
      MatchesAnchoredPointwise(pattern[1..], s[1..]);
      if |s| == |pattern| && InClass(pattern[0], s[0])
         && (forall k | 0 <= k < |s| - 1 :: InClass(pattern[1..][k], s[1..][k])) {
        forall k | 0 <= k < |s| ensures InClass(pattern[k], s[k]) {
          if k > 0 { assert pattern[1..][k - 1] == pattern[k] && s[1..][k - 1] == s[k]; }
        }
      }
      if |s| == |pattern| && forall k | 0 <= k < |s| :: InClass(pattern[k], s[k]) {
        forall k | 0 <= k < |s| - 1 ensures InClass(pattern[1..][k], s[1..][k]) {
          assert pattern[1..][k] == pattern[k + 1] && s[1..][k] == s[k + 1];
        }
      }
    }
  }

  /** `validateBangladeshiPhone` accepts exactly the 14-character strings
      that start with "+8801", continue with an operator digit 3..9, and end
      with eight ASCII digits. */
  lemma ValidateBangladeshiPhoneCharacterisation(phone: string)
    ensures ValidateBangladeshiPhone(phone)
            <==> && |phone| == 14
                 && phone[..5] == "+8801"
                 && '3' <= phone[5] <= '9'
                 && forall k | 6 <= k < 14 :: IsDigit(phone[k])
  {
    MatchesAnchoredPointwise(PhonePattern, phone);
    if |phone| == 14 {
      if phone[..5] == "+8801" {
        assert phone[0] == '+' && phone[1] == '8' && phone[2] == '8' && phone[3] == '0' && phone[4] == '1' by {
          assert phone[..5][0] == phone[0] && phone[..5][1] == phone[1] && phone[..5][2] == phone[2]
              && phone[..5][3] == phone[3] && phone[..5][4] == phone[4];
        }
      }
      if forall k | 0 <= k < 14 :: InClass(PhonePattern[k], phone[k]) {
        assert phone[..5] == "+8801" by {
          assert InClass(PhonePattern[0], phone[0]) && InClass(PhonePattern[1], phone[1])
              && InClass(PhonePattern[2], phone[2]) && InClass(PhonePattern[3], phone[3])
              && InClass(PhonePattern[4], phone[4]);
        }
        assert InClass(PhonePattern[5], phone[5]);
        forall k | 6 <= k < 14 ensures IsDigit(phone[k]) {
          assert InClass(PhonePattern[k], phone[k]);
        }
      }
    }
  }

  /** "01712345678" lacks the country code and is refused. */
  lemma PhoneNoCountryCodeSample()
    ensures !ValidateBangladeshiPhone("01712345678")
  {
    ValidateBangladeshiPhoneCharacterisation("01712345678");
  }

  /** "+8801212345678" has operator digit 2 and is refused. */
  lemma PhoneBadOperatorSample()
    ensures !ValidateBangladeshiPhone("+8801212345678")
  {
    ValidateBangladeshiPhoneCharacterisation("+8801212345678");
    assert "+8801212345678"[5] == '2';
  }

  /** "+8801712345678" is accepted. */
  lemma PhoneAcceptedSample()
    ensures ValidateBangladeshiPhone("+8801712345678")
  {
    ValidateBangladeshiPhoneCharacterisation("+8801712345678");
    assert "+8801712345678"[..5] == "+8801";
  }
}
