/** The Customer entity: its bean validation constraints, its fluent setters,
    and equality by database id. */
module Customers {
  import opened JavaLang
  import opened Patterns
  import opened Validation

  /** java.time.LocalDate; the constraints only ask for its presence. */
  datatype LocalDate = LocalDate(year: int, month: int, day: int)

  /** The persistent fields of a Customer. */
  datatype CustomerFields = CustomerFields(
    id: Option<int>,
    firstName: Option<string>,
    middleName: Option<string>,
    lastName: Option<string>,
    dateOfBirth: Option<LocalDate>,
    nidaNumber: Option<string>,
    region: Option<string>,
    district: Option<string>,
    ward: Option<string>)

  /** The field constraints: first and last name required with at most 50
      characters, a middle name of at most 50 when present, a date of birth
      required, a NIDA number of exactly twenty digits required, and region,
      district and ward of at most 100 characters when present. */
  predicate ValidCustomer(f: CustomerFields)
  {
    && NotNull(f.firstName) && SizeOk(f.firstName, 0, 50)
    && SizeOk(f.middleName, 0, 50)
    && NotNull(f.lastName) && SizeOk(f.lastName, 0, 50)
    && NotNull(f.dateOfBirth)
    && NotNull(f.nidaNumber) && PatternOk(NIDA, f.nidaNumber)
    && SizeOk(f.region, 0, 100) && SizeOk(f.district, 0, 100) && SizeOk(f.ward, 0, 100)
  }

  /** The constraints stated without the regular expression. */
  lemma ValidCustomerIff(f: CustomerFields)
    ensures ValidCustomer(f) <==>
      && f.firstName.Some? && |f.firstName.value| <= 50
      && (f.middleName.Some? ==> |f.middleName.value| <= 50)
      && f.lastName.Some? && |f.lastName.value| <= 50
      && f.dateOfBirth.Some?
      && f.nidaNumber.Some? && |f.nidaNumber.value| == 20 && AllDigits(f.nidaNumber.value)
      && (f.region.Some? ==> |f.region.value| <= 100)
      && (f.district.Some? ==> |f.district.value| <= 100)
      && (f.ward.Some? ==> |f.ward.value| <= 100)
  {
    if f.nidaNumber.Some? {
      NidaIff(f.nidaNumber.value);
    }
  }

  /** A NIDA number with a letter, or of the wrong length, is refused. */
  lemma NidaExamples()
    ensures Matches(NIDA, "19900101123450000001")
    ensures !Matches(NIDA, "nidaNumber1")
    ensures !Matches(NIDA, "1990010112345000000")
  {
    var good := "19900101123450000001";
    NidaIff(good);
    NidaIff("nidaNumber1");
    assert !IsDigit("nidaNumber1"[0]);
    NidaIff("1990010112345000000");
  }

  /** Clearing the middle name, region, district or ward keeps a customer valid;
      clearing a required field does not. */
  lemma ClearingFields(f: CustomerFields)
    requires ValidCustomer(f)
    ensures ValidCustomer(f.(middleName := None)) && ValidCustomer(f.(region := None))
    ensures ValidCustomer(f.(district := None)) && ValidCustomer(f.(ward := None))
    ensures !ValidCustomer(f.(firstName := None)) && !ValidCustomer(f.(lastName := None))
    ensures !ValidCustomer(f.(dateOfBirth := None)) && !ValidCustomer(f.(nidaNumber := None))
  {
  }

  class Customer {
    var id: Option<int>
    var firstName: Option<string>
    var middleName: Option<string>
    var lastName: Option<string>
    var dateOfBirth: Option<LocalDate>
    var nidaNumber: Option<string>
    var region: Option<string>
    var district: Option<string>
    var ward: Option<string>

    function Fields(): CustomerFields
      reads this
    {
      CustomerFields(id, firstName, middleName, lastName, dateOfBirth, nidaNumber, region, district, ward)
    }

    predicate Valid()
      reads this
    {
      ValidCustomer(Fields())
    }

    /** new Customer(): every field null. */
    constructor ()
      ensures Fields() == CustomerFields(None, None, None, None, None, None, None, None, None)
    {
      id, firstName, middleName, lastName := None, None, None, None;
      dateOfBirth, nidaNumber := None, None;
      region, district, ward := None, None, None;
    }

    method SetId(id: Option<int>)
      modifies this
      ensures Fields() == old(Fields()).(id := id)
    {
      this.id := id;
    }

    /** id(Long): setId, then this. */
    method Id(id: Option<int>) returns (self: Customer)
      modifies this
      ensures self == this && Fields() == old(Fields()).(id := id)
    {
      SetId(id);
      self := this;
    }

    method SetFirstName(firstName: Option<string>)
      modifies this
      ensures Fields() == old(Fields()).(firstName := firstName)
    {
      this.firstName := firstName;
    }

    method FirstName(firstName: Option<string>) returns (self: Customer)
      modifies this
      ensures self == this && Fields() == old(Fields()).(firstName := firstName)
    {
      SetFirstName(firstName);
      self := this;
    }

    method SetMiddleName(middleName: Option<string>)
      modifies this
      ensures Fields() == old(Fields()).(middleName := middleName)
    {
      this.middleName := middleName;
    }

    method MiddleName(middleName: Option<string>) returns (self: Customer)
      modifies this
      ensures self == this && Fields() == old(Fields()).(middleName := middleName)
    {
      SetMiddleName(middleName);
      self := this;
    }

    method SetLastName(lastName: Option<string>)
      modifies this
      ensures Fields() == old(Fields()).(lastName := lastName)
    {
      this.lastName := lastName;
    }

    method LastName(lastName: Option<string>) returns (self: Customer)
      modifies this
      ensures self == this && Fields() == old(Fields()).(lastName := lastName)
    {
      SetLastName(lastName);
      self := this;
    }

    method SetDateOfBirth(dateOfBirth: Option<LocalDate>)
      modifies this
      ensures Fields() == old(Fields()).(dateOfBirth := dateOfBirth)
    {
      this.dateOfBirth := dateOfBirth;
    }

    method DateOfBirth(dateOfBirth: Option<LocalDate>) returns (self: Customer)
      modifies this
      ensures self == this && Fields() == old(Fields()).(dateOfBirth := dateOfBirth)
    {
      SetDateOfBirth(dateOfBirth);
      self := this;
    }

    method SetNidaNumber(nidaNumber: Option<string>)
      modifies this
      ensures Fields() == old(Fields()).(nidaNumber := nidaNumber)
    {
      this.nidaNumber := nidaNumber;
    }

    method NidaNumber(nidaNumber: Option<string>) returns (self: Customer)
      modifies this
      ensures self == this && Fields() == old(Fields()).(nidaNumber := nidaNumber)
    {
      SetNidaNumber(nidaNumber);
      self := this;
    }

    method SetRegion(region: Option<string>)
      modifies this
      ensures Fields() == old(Fields()).(region := region)
    {
      this.region := region;
    }

    method Region(region: Option<string>) returns (self: Customer)
      modifies this
      ensures self == this && Fields() == old(Fields()).(region := region)
    {
      SetRegion(region);
      self := this;
    }

    method SetDistrict(district: Option<string>)
      modifies this
      ensures Fields() == old(Fields()).(district := district)
    {
      this.district := district;
    }

    method District(district: Option<string>) returns (self: Customer)
      modifies this
      ensures self == this && Fields() == old(Fields()).(district := district)
    {
      SetDistrict(district);
      self := this;
    }

    method SetWard(ward: Option<string>)
      modifies this
      ensures Fields() == old(Fields()).(ward := ward)
    {
      this.ward := ward;
    }

    method Ward(ward: Option<string>) returns (self: Customer)
      modifies this
      ensures self == this && Fields() == old(Fields()).(ward := ward)
    {
      SetWard(ward);
      self := this;
    }

    /** equals: the same object, or another Customer with the same non-null id. */
    predicate Equals(o: object?)
      reads this, o
      ensures this == o ==> Equals(o)
      ensures Equals(o) ==> o is Customer
      ensures Equals(o) && this != o ==> id.Some? && id == (o as Customer).id
    {
      this == o || (o is Customer && id.Some? && id == (o as Customer).id)
    }

    /** hashCode: the hash of the Customer class object, the same for every
        customer. `classHash` is that value, fixed for the lifetime of the JVM. */
    function HashCode(classHash: int): (h: int)
      ensures h == classHash
    {
      classHash
    }
  }

  /** equals is reflexive, symmetric and transitive on customers, and false for
      any object that is not a Customer. */
  lemma EqualsIsAnEquivalence(a: Customer, b: Customer, c: Customer, o: object?)
    ensures a.Equals(a)
    ensures a.Equals(b) <==> b.Equals(a)
    ensures a.Equals(b) && b.Equals(c) ==> a.Equals(c)
    ensures !(o is Customer) ==> !a.Equals(o)
  {
  }

  /** A customer without an id equals only itself; two distinct customers are
      equal exactly when they carry the same id. */
  lemma EqualsById(a: Customer, b: Customer)
    ensures a.id.None? ==> (a.Equals(b) <==> a == b)
    ensures a != b ==> (a.Equals(b) <==> a.id.Some? && a.id == b.id)
  {
  }

  /** Equal customers have equal hash codes, whatever their fields. */
  lemma HashCodeConsistentWithEquals(a: Customer, b: Customer, classHash: int)
    ensures a.Equals(b) ==> a.HashCode(classHash) == b.HashCode(classHash)
    ensures a.HashCode(classHash) == b.HashCode(classHash)
  {
  }
}
