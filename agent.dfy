/** The Agent entity: its bean validation constraints, its fluent setters,
    and equality by database id. */
module Agents {
  import opened JavaLang
  import opened Patterns
  import opened Validation

  /** AgentStatus. ACTIVE is the only constant the code names; any other
      constant is represented by its name. */
  datatype AgentStatus = ACTIVE | OtherStatus(name: string)

  /** The persistent fields of an Agent. `user` is the id of the linked User
      (the one-to-one association), None while none is set. */
  datatype AgentFields = AgentFields(
    id: Option<int>,
    phoneNumber: Option<string>,
    status: Option<AgentStatus>,
    user: Option<int>,
    region: Option<string>,
    district: Option<string>,
    ward: Option<string>)

  /** The field constraints: a phone number matching `(\+255|0)[67]\d{8}`, a
      status and a user are required; region, district and ward have at most
      100 characters when present. */
  predicate ValidAgent(f: AgentFields)
  {
    && NotNull(f.phoneNumber) && PatternOk(AGENT_PHONE, f.phoneNumber)
    && NotNull(f.status)
    && NotNull(f.user)
    && SizeOk(f.region, 0, 100) && SizeOk(f.district, 0, 100) && SizeOk(f.ward, 0, 100)
  }

  /** The constraints stated without the regular expression: the phone number is
      "+255" or "0", then 6 or 7, then eight digits. */
  lemma ValidAgentIff(f: AgentFields)
    ensures ValidAgent(f) <==>
      && f.phoneNumber.Some? && IsAgentPhone(f.phoneNumber.value)
      && f.status.Some? && f.user.Some?
      && (f.region.Some? ==> |f.region.value| <= 100)
      && (f.district.Some? ==> |f.district.value| <= 100)
      && (f.ward.Some? ==> |f.ward.value| <= 100)
  {
    if f.phoneNumber.Some? {
      AgentPhoneIff(f.phoneNumber.value);
    }
  }

  /** A valid agent's phone number has 10 or 13 characters and is not blank. */
  lemma ValidAgentPhoneLength(f: AgentFields)
    requires ValidAgent(f)
    ensures |f.phoneNumber.value| == 10 || |f.phoneNumber.value| == 13
    ensures NotBlank(f.phoneNumber)
  {
    AgentPhoneShape(f.phoneNumber.value);
  }

  /** Clearing region, district or ward keeps an agent valid; clearing the phone
      number, the status or the user does not. */
  lemma ClearingFields(f: AgentFields)
    requires ValidAgent(f)
    ensures ValidAgent(f.(region := None)) && ValidAgent(f.(district := None)) && ValidAgent(f.(ward := None))
    ensures !ValidAgent(f.(phoneNumber := None)) && !ValidAgent(f.(status := None)) && !ValidAgent(f.(user := None))
  {
  }

  class Agent {
    var id: Option<int>
    var phoneNumber: Option<string>
    var status: Option<AgentStatus>
    var user: Option<int>
    var region: Option<string>
    var district: Option<string>
    var ward: Option<string>

    function Fields(): AgentFields
      reads this
    {
      AgentFields(id, phoneNumber, status, user, region, district, ward)
    }

    predicate Valid()
      reads this
    {
      ValidAgent(Fields())
    }

    /** new Agent(): every field null. */
    constructor ()
      ensures Fields() == AgentFields(None, None, None, None, None, None, None)
    {
      id, phoneNumber, status, user := None, None, None, None;
      region, district, ward := None, None, None;
    }

    method SetId(id: Option<int>)
      modifies this
      ensures Fields() == old(Fields()).(id := id)
    {
      this.id := id;
    }

    /** id(Long): setId, then this. */
    method Id(id: Option<int>) returns (self: Agent)
      modifies this
      ensures self == this && Fields() == old(Fields()).(id := id)
    {
      SetId(id);
      self := this;
    }

    method SetPhoneNumber(phoneNumber: Option<string>)
      modifies this
      ensures Fields() == old(Fields()).(phoneNumber := phoneNumber)
    {
      this.phoneNumber := phoneNumber;
    }

    method PhoneNumber(phoneNumber: Option<string>) returns (self: Agent)
      modifies this
      ensures self == this && Fields() == old(Fields()).(phoneNumber := phoneNumber)
    {
      SetPhoneNumber(phoneNumber);
      self := this;
    }

    method SetStatus(status: Option<AgentStatus>)
      modifies this
      ensures Fields() == old(Fields()).(status := status)
    {
      this.status := status;
    }

    method Status(status: Option<AgentStatus>) returns (self: Agent)
      modifies this
      ensures self == this && Fields() == old(Fields()).(status := status)
    {
      SetStatus(status);
      self := this;
    }

    method SetUser(user: Option<int>)
      modifies this
      ensures Fields() == old(Fields()).(user := user)
    {
      this.user := user;
    }

    method User(user: Option<int>) returns (self: Agent)
      modifies this
      ensures self == this && Fields() == old(Fields()).(user := user)
    {
      SetUser(user);
      self := this;
    }

    method SetRegion(region: Option<string>)
      modifies this
      ensures Fields() == old(Fields()).(region := region)
    {
      this.region := region;
    }

    method Region(region: Option<string>) returns (self: Agent)
      modifies this
      ensures self == this && Fields() == old(Fields()).(region := region)
    {
      SetRegion(region);
      self := this;
    }

    method SetDistrict(district: Option<string>)
      modifies this
      ensures Fields() == old(Fields()).(district := district)
    {
      this.district := district;
    }

    method District(district: Option<string>) returns (self: Agent)
      modifies this
      ensures self == this && Fields() == old(Fields()).(district := district)
    {
      SetDistrict(district);
      self := this;
    }

    method SetWard(ward: Option<string>)
      modifies this
      ensures Fields() == old(Fields()).(ward := ward)
    {
      this.ward := ward;
    }

    method Ward(ward: Option<string>) returns (self: Agent)
      modifies this
      ensures self == this && Fields() == old(Fields()).(ward := ward)
    {
      SetWard(ward);
      self := this;
    }

    /** equals: the same object, or another Agent with the same non-null id. */
    predicate Equals(o: object?)
      reads this, o
      ensures this == o ==> Equals(o)
      ensures Equals(o) ==> o is Agent
      ensures Equals(o) && this != o ==> id.Some? && id == (o as Agent).id
    {
      this == o || (o is Agent && id.Some? && id == (o as Agent).id)
    }

    /** hashCode: the hash of the Agent class object, the same for every agent.
        `classHash` is that value, fixed for the lifetime of the JVM. */
    function HashCode(classHash: int): (h: int)
      ensures h == classHash
    {
      classHash
    }
  }

  /** equals is reflexive, symmetric and transitive on agents, and false for
      any object that is not an Agent. */
  lemma EqualsIsAnEquivalence(a: Agent, b: Agent, c: Agent, o: object?)
    ensures a.Equals(a)
    ensures a.Equals(b) <==> b.Equals(a)
    ensures a.Equals(b) && b.Equals(c) ==> a.Equals(c)
    ensures !(o is Agent) ==> !a.Equals(o)
  {
  }

  /** An agent without an id equals only itself; two distinct agents are equal
      exactly when they carry the same id. */
  lemma EqualsById(a: Agent, b: Agent)
    ensures a.id.None? ==> (a.Equals(b) <==> a == b)
    ensures a != b ==> (a.Equals(b) <==> a.id.Some? && a.id == b.id)
  {
  }

  /** Equal agents have equal hash codes, whatever their fields. */
  lemma HashCodeConsistentWithEquals(a: Agent, b: Agent, classHash: int)
    ensures a.Equals(b) ==> a.HashCode(classHash) == b.HashCode(classHash)
    ensures a.HashCode(classHash) == b.HashCode(classHash)
  {
  }
}
