/** The Jakarta Bean Validation constraints the entities and the registration
    DTO declare, on a field that may be null (None). As the standard says,
    @Size and @Pattern accept null, and only @NotNull and @NotBlank reject it.
    Sizes count characters. */
module Validation {
  import opened JavaLang
  import opened Patterns

  /** @NotNull. */
  predicate NotNull<T>(field: Option<T>)
  {
    field.Some?
  }

  /** @Size(min, max): null, or a length between the bounds. */
  predicate SizeOk(field: Option<string>, min: nat, max: nat)
  {
    field.None? || min <= |field.value| <= max
  }

  /** @Pattern(regexp): null, or matched as a whole. */
  predicate PatternOk(r: Regex, field: Option<string>)
  {
    field.None? || Matches(r, field.value)
  }

  /** @NotBlank: not null, and something is left after trimming. */
  predicate NotBlank(field: Option<string>)
  {
    field.Some? && Trim(field.value) != []
  }

  /** A string with a character above the space is not blank. */
  lemma NotBlankWitness(s: string, k: int)
    requires 0 <= k < |s| && !IsTrimmable(s[k])
    ensures NotBlank(Some(s))
  {
    TrimEmptyIff(s);
  }

  /** A present phone number matching the DTO pattern is not blank and has 10,
      12 or 13 characters. */
  lemma DtoPhoneShape(s: string)
    requires Matches(DTO_PHONE, s)
    ensures NotBlank(Some(s))
    ensures |s| == 10 || |s| == 12 || |s| == 13
  {
    DtoPhoneIff(s);
    PhoneEndsInDigit(s);
  }

  /** The same for Agent's pattern: not blank, 10 or 13 characters. */
  lemma AgentPhoneShape(s: string)
    requires Matches(AGENT_PHONE, s)
    ensures NotBlank(Some(s))
    ensures |s| == 10 || |s| == 13
  {
    AgentPhoneIff(s);
    PhoneEndsInDigit(s);
  }

  lemma PhoneEndsInDigit(s: string)
    requires IsDtoPhone(s)
    ensures |s| == 10 || |s| == 12 || |s| == 13
    ensures NotBlank(Some(s))
  {
    var tail := s[|s| - 9..];
    assert MobileTail(tail) by {
      if |s| == 13 { assert tail == s[4..]; }
      else if |s| == 10 { assert tail == s[1..]; }
      else { assert tail == s[3..]; }
    }
    assert s[|s| - 1] == tail[1..][7];
    NotBlankWitness(s, |s| - 1);
  }
}
