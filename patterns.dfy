/** The regular expressions of the @Pattern constraints, as a small regular
    expression syntax with a whole-string matcher (Pattern.matches, so `^` and
    `$` add nothing), and what each expression accepts stated directly. `\d`
    is the ASCII digit class, as in java.util.regex without
    UNICODE_CHARACTER_CLASS. */
module Patterns {

  datatype Regex =
    | Range(lo: char, hi: char)   // a character class [lo-hi]
    | Str(w: string)              // a literal
    | Alt(a: Regex, b: Regex)     // a|b
    | Cat(a: Regex, b: Regex)     // ab
    | Opt(a: Regex)               // a?

  /** s as a whole is matched by r. */
  predicate Matches(r: Regex, s: string)
    decreases r
  {
    match r
    case Range(lo, hi) => |s| == 1 && lo <= s[0] <= hi
    case Str(w) => s == w
    case Alt(a, b) => Matches(a, s) || Matches(b, s)
    case Cat(a, b) => exists k :: 0 <= k <= |s| && Matches(a, s[..k]) && Matches(b, s[k..])
    case Opt(a) => s == [] || Matches(a, s)
  }

  /** r{n}. */
  function Times(r: Regex, n: nat): Regex
  {
    if n == 0 then Str("") else Cat(r, Times(r, n - 1))
  }

  /** `\d`. */
  const DIGIT: Regex := Range('0', '9')

  predicate IsDigit(c: char) { '0' <= c <= '9' }

  predicate AllDigits(s: string) { forall i :: 0 <= i < |s| ==> IsDigit(s[i]) }

  /** `(\+255|0)[67]\d{8}`: Agent.phoneNumber. */
  const AGENT_PHONE: Regex := Cat(Alt(Str("+255"), Str("0")), Cat(Range('6', '7'), Times(DIGIT, 8)))

  /** `(\+?255|0)[67]\d{8}`: AgentRegistrationDTO.login and .phoneNumber. */
  const DTO_PHONE: Regex := Cat(Alt(Cat(Opt(Str("+")), Str("255")), Str("0")), Cat(Range('6', '7'), Times(DIGIT, 8)))

  /** `\d{20}`: Customer.nidaNumber. */
  const NIDA: Regex := Times(DIGIT, 20)

  /** A Tanzanian mobile number after its prefix: 6 or 7, then eight digits. */
  predicate MobileTail(s: string)
  {
    |s| == 9 && '6' <= s[0] <= '7' && AllDigits(s[1..])
  }

  /** What Agent's pattern accepts: "+255" and a mobile tail (13 characters), or
      "0" and a mobile tail (10 characters). */
  predicate IsAgentPhone(s: string)
  {
    || (|s| == 13 && s[..4] == "+255" && MobileTail(s[4..]))
    || (|s| == 10 && s[0] == '0' && MobileTail(s[1..]))
  }

  /** What the DTO's pattern accepts: Agent's forms, plus "255" without the plus
      and a mobile tail (12 characters). */
  predicate IsDtoPhone(s: string)
  {
    || IsAgentPhone(s)
    || (|s| == 12 && s[..3] == "255" && MobileTail(s[3..]))
  }

  /** Concatenation after a literal: the literal is a prefix. */
  lemma CatStr(w: string, b: Regex, s: string)
    ensures Matches(Cat(Str(w), b), s) <==> |w| <= |s| && s[..|w|] == w && Matches(b, s[|w|..])
  {
    if |w| <= |s| && s[..|w|] == w && Matches(b, s[|w|..]) {
      assert Matches(Str(w), s[..|w|]);
    }
  }

  /** Concatenation after a character class: the first character is in it. */
  lemma CatRange(lo: char, hi: char, b: Regex, s: string)
    ensures Matches(Cat(Range(lo, hi), b), s) <==> |s| >= 1 && lo <= s[0] <= hi && Matches(b, s[1..])
  {
    if Matches(Cat(Range(lo, hi), b), s) {
      var k :| 0 <= k <= |s| && Matches(Range(lo, hi), s[..k]) && Matches(b, s[k..]);
      assert k == 1 && s[..k][0] == s[0];
    }
    if |s| >= 1 && lo <= s[0] <= hi && Matches(b, s[1..]) {
      assert Matches(Range(lo, hi), s[..1]);
    }
  }

  /** Concatenation distributes over an alternative on its left. */
  lemma CatAlt(a1: Regex, a2: Regex, b: Regex, s: string)
    ensures Matches(Cat(Alt(a1, a2), b), s) <==> Matches(Cat(a1, b), s) || Matches(Cat(a2, b), s)
  {
  }

  /** An optional part on the left may be skipped or taken. */
  lemma CatOpt(a: Regex, b: Regex, s: string)
    ensures Matches(Cat(Opt(a), b), s) <==> Matches(b, s) || Matches(Cat(a, b), s)
  {
    if Matches(b, s) {
      assert Matches(Opt(a), s[..0]) && s[0..] == s;
    }
    if Matches(Cat(Opt(a), b), s) && !Matches(b, s) {
      var k :| 0 <= k <= |s| && Matches(Opt(a), s[..k]) && Matches(b, s[k..]);
    }
  }

  /** Concatenation is associative. */
  lemma CatAssoc(a: Regex, b: Regex, c: Regex, s: string)
    ensures Matches(Cat(Cat(a, b), c), s) <==> Matches(Cat(a, Cat(b, c)), s)
  {
    if Matches(Cat(Cat(a, b), c), s) {
      CatAssocLeft(a, b, c, s);
    }
    if Matches(Cat(a, Cat(b, c)), s) {
      CatAssocRight(a, b, c, s);
    }
  }

  lemma CatAssocLeft(a: Regex, b: Regex, c: Regex, s: string)
    requires Matches(Cat(Cat(a, b), c), s)
    ensures Matches(Cat(a, Cat(b, c)), s)
  {
    var k :| 0 <= k <= |s| && Matches(Cat(a, b), s[..k]) && Matches(c, s[k..]);
    var ab := s[..k];
    var j :| 0 <= j <= |ab| && Matches(a, ab[..j]) && Matches(b, ab[j..]);
    var rest := s[j..];
    Slices(s, j, k);
    assert Matches(Cat(b, c), rest);
  }

  lemma CatAssocRight(a: Regex, b: Regex, c: Regex, s: string)
    requires Matches(Cat(a, Cat(b, c)), s)
    ensures Matches(Cat(Cat(a, b), c), s)
  {
    var j :| 0 <= j <= |s| && Matches(a, s[..j]) && Matches(Cat(b, c), s[j..]);
    var rest := s[j..];
    var m :| 0 <= m <= |rest| && Matches(b, rest[..m]) && Matches(c, rest[m..]);
    var k := j + m;
    var ab := s[..k];
    Slices(s, j, k);
    assert Matches(Cat(a, b), ab);
  }

  /** The three pieces of s cut at j and k, seen from either grouping. */
  lemma Slices(s: string, j: int, k: int)
    requires 0 <= j <= k <= |s|
    ensures s[..k][..j] == s[..j]
    ensures s[..k][j..] == s[j..][..k - j]
    ensures s[j..][k - j..] == s[k..]
  {
  }

  /** `\d{n}` accepts exactly the strings of n ASCII digits. */
  lemma {:induction false} DigitsIff(n: nat, s: string)
    ensures Matches(Times(DIGIT, n), s) <==> |s| == n && AllDigits(s)
  {
    if n == 0 {
      assert Times(DIGIT, 0) == Str("");
    } else {
      assert Times(DIGIT, n) == Cat(DIGIT, Times(DIGIT, n - 1));
      CatRange('0', '9', Times(DIGIT, n - 1), s);
      if |s| >= 1 {
        DigitsIff(n - 1, s[1..]);
        assert AllDigits(s) <==> IsDigit(s[0]) && AllDigits(s[1..]) by {
          assert forall i :: 1 <= i < |s| ==> s[i] == s[1..][i - 1];
        }
      }
    }
  }

  /** `[67]\d{8}` accepts exactly the mobile tails. */
  lemma MobileTailIff(s: string)
    ensures Matches(Cat(Range('6', '7'), Times(DIGIT, 8)), s) <==> MobileTail(s)
  {
    CatRange('6', '7', Times(DIGIT, 8), s);
    if |s| >= 1 {
      DigitsIff(8, s[1..]);
    }
  }

  /** Agent's phone pattern accepts exactly IsAgentPhone. */
  lemma AgentPhoneIff(s: string)
    ensures Matches(AGENT_PHONE, s) <==> IsAgentPhone(s)
  {
    var tail := Cat(Range('6', '7'), Times(DIGIT, 8));
    CatAlt(Str("+255"), Str("0"), tail, s);
    CatStr("+255", tail, s);
    CatStr("0", tail, s);
    if |s| >= 4 { MobileTailIff(s[4..]); }
    if |s| >= 1 { MobileTailIff(s[1..]); }
  }

  /** The DTO's phone pattern accepts exactly IsDtoPhone. */
  lemma DtoPhoneIff(s: string)
    ensures Matches(DTO_PHONE, s) <==> IsDtoPhone(s)
  {
    var tail := Cat(Range('6', '7'), Times(DIGIT, 8));
    CatAlt(Cat(Opt(Str("+")), Str("255")), Str("0"), tail, s);
    OptionalPlusPrefix(s, tail);
    CatStr("0", tail, s);
    if |s| >= 4 { MobileTailIff(s[4..]); }
    if |s| >= 3 { MobileTailIff(s[3..]); }
    if |s| >= 1 { MobileTailIff(s[1..]); }
  }

  /** `\+?255` followed by r: "+255" or "255", then r. */
  lemma OptionalPlusPrefix(s: string, r: Regex)
    ensures Matches(Cat(Cat(Opt(Str("+")), Str("255")), r), s)
        <==> (|s| >= 4 && s[..4] == "+255" && Matches(r, s[4..])) || (|s| >= 3 && s[..3] == "255" && Matches(r, s[3..]))
  {
    CatAssoc(Opt(Str("+")), Str("255"), r, s);
    CatOpt(Str("+"), Cat(Str("255"), r), s);
    CatStr("255", r, s);
    PlusPrefix(s, r);
  }

  /** `\+255` followed by r is the literal "+255" followed by r. */
  lemma PlusPrefix(s: string, r: Regex)
    ensures Matches(Cat(Str("+"), Cat(Str("255"), r)), s) <==> |s| >= 4 && s[..4] == "+255" && Matches(r, s[4..])
  {
    CatStr("+", Cat(Str("255"), r), s);
    if |s| >= 1 {
      CatStr("255", r, s[1..]);
      if |s| >= 4 {
        assert s[1..][3..] == s[4..];
        assert s[..4] == s[..1] + s[1..][..3];
      }
    }
  }

  /** Every phone Agent accepts is accepted by the DTO. */
  lemma AgentPhoneIsDtoPhone(s: string)
    requires Matches(AGENT_PHONE, s)
    ensures Matches(DTO_PHONE, s)
  {
    AgentPhoneIff(s);
    DtoPhoneIff(s);
  }

  /** Not conversely: "255712345678" registers through the DTO and then fails
      Agent's constraint. */
  lemma DtoAcceptsWhatAgentRejects()
    ensures Matches(DTO_PHONE, "255712345678")
    ensures !Matches(AGENT_PHONE, "255712345678")
  {
    var s := "255712345678";
    DtoPhoneIff(s);
    AgentPhoneIff(s);
    assert s[..3] == "255";
    assert MobileTail(s[3..]) by {
      assert s[3..] == "712345678";
    }
  }

  /** The NIDA pattern accepts exactly the strings of twenty ASCII digits. */
  lemma NidaIff(s: string)
    ensures Matches(NIDA, s) <==> |s| == 20 && AllDigits(s)
  {
    DigitsIff(20, s);
  }
}
