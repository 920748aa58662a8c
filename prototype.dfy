/** The prototype example: copy constructors that copy a person's address into a fresh
    object but share the array of names with the original, and a deep copy that shares
    nothing. */
module Prototype {
  import opened Int32
  import opened Text

  /** `"StreetName: {StreetName}, HouseNumber: {HouseNumber}"`. */
  function AddressText(streetName: string, houseNumber: int32): string {
    "StreetName: " + streetName + ", HouseNumber: " + IntToString(houseNumber as int)
  }

  /** `"Names: {string.Join(" ", Names)}, Address-> {Address}"`. */
  function PersonText(names: seq<string>, address: string): string {
    "Names: " + Join(names, " ") + ", Address-> " + address
  }

  /** An address text gives both fields back, for street names without a comma. */
  lemma AddressTextDistinguishes(s1: string, n1: int32, s2: string, n2: int32)
    requires ',' !in s1 && ',' !in s2
    requires AddressText(s1, n1) == AddressText(s2, n2)
    ensures s1 == s2 && n1 == n2
  {
    assert ", HouseNumber: "[0] == ',';
    assert ',' !in "StreetName: ";
    FieldsDistinguish("StreetName: ", s1, ", HouseNumber: ", IntToString(n1 as int),
                      s2, IntToString(n2 as int));
    IntToStringInjective(n1 as int, n2 as int);
  }

  /** A person text gives the joined names and the address text back, for names without a
      comma. */
  lemma PersonTextDistinguishes(names1: seq<string>, a1: string, names2: seq<string>, a2: string)
    requires ',' !in Join(names1, " ") && ',' !in Join(names2, " ")
    requires PersonText(names1, a1) == PersonText(names2, a2)
    ensures Join(names1, " ") == Join(names2, " ") && a1 == a2
  {
    assert ", Address-> "[0] == ',';
    assert ',' !in "Names: ";
    FieldsDistinguish("Names: ", Join(names1, " "), ", Address-> ", a1, Join(names2, " "), a2);
  }

  class Address {
    var streetName: string
    var houseNumber: int32

    /** `new Address()`: C#'s null street name is the empty string here. */
    constructor Default()
      ensures streetName == "" && houseNumber == 0
    {
      streetName, houseNumber := "", 0;
    }

    /** `new Address(streetName, houseNumber)`. */
    constructor (streetName: string, houseNumber: int32)
      ensures this.streetName == streetName && this.houseNumber == houseNumber
    {
      this.streetName, this.houseNumber := streetName, houseNumber;
    }

    /** The copy constructor `Address(other)`: a new object with the same two fields. */
    constructor Copy(other: Address)
      ensures streetName == other.streetName && houseNumber == other.houseNumber
    {
      streetName, houseNumber := other.streetName, other.houseNumber;
    }

    function ToString(): string
      reads this
    {
      AddressText(streetName, houseNumber)
    }
  }

  class Person {
    var names: array<string>
    var address: Address

    /** `new Person(names, address)`: keeps both references. */
    constructor (names: array<string>, address: Address)
      ensures this.names == names && this.address == address
    {
      this.names, this.address := names, address;
    }

    /** The copy constructor `Person(other)`: the same names array, and a copy of the
        address in a new object. */
    constructor Copy(other: Person)
      ensures names == other.names
      ensures fresh(address)
      ensures address.streetName == other.address.streetName
      ensures address.houseNumber == other.address.houseNumber
    {
      names := other.names;
      address := new Address.Copy(other.address);
    }

    function ToString(): string
      reads this, names, address
    {
      PersonText(names[..], address.ToString())
    }
  }

  /** The copy-constructor variant of the main program: copy a person, then rename the copy
      and move it to another house number. The new first name shows through the original,
      which shares the names array; the new house number does not, because the address was
      copied. */
  method CopyAndChange(john: Person, first: string, houseNumber: int32) returns (jane: Person)
    requires john.names.Length > 0
    modifies john.names
    ensures fresh(jane) && fresh(jane.address) && jane.names == john.names
    ensures john.names[..] == old(john.names[..])[0 := first]
    ensures john.address == old(john.address)
    ensures john.address.streetName == old(john.address.streetName)
    ensures john.address.houseNumber == old(john.address.houseNumber)
    ensures jane.address.streetName == john.address.streetName
    ensures jane.address.houseNumber == houseNumber
  {
    jane := new Person.Copy(john);
    jane.names[0] := first;
    jane.address.houseNumber := houseNumber;
  }

  /** `DeepCopyXml` on a person: serialising the whole object tree and reading it back
      rebuilds every object, so the copy shares nothing with the original. It is a new person
      with a new names array holding the same names and a new address with the same fields. */
  method DeepCopy(p: Person) returns (q: Person)
    ensures fresh(q) && fresh(q.names) && fresh(q.address)
    ensures q.names[..] == p.names[..]
    ensures q.address.streetName == p.address.streetName
    ensures q.address.houseNumber == p.address.houseNumber
  {
    var names := new string[p.names.Length];
    forall i | 0 <= i < names.Length {
      names[i] := p.names[i];
    }
    var address := new Address(p.address.streetName, p.address.houseNumber);
    q := new Person(names, address);
  }

  /** What the main program does: deep-copy a person, then rename the copy and move it to
      another house number. Neither change shows through the original, which shares no object
      with the copy. */
  method DeepCopyAndChange(john: Person, first: string, houseNumber: int32) returns (jane: Person)
    requires john.names.Length > 0
    ensures fresh(jane) && fresh(jane.names) && fresh(jane.address)
    ensures jane.names[..] == john.names[..][0 := first]
    ensures jane.address.streetName == john.address.streetName
    ensures jane.address.houseNumber == houseNumber
    ensures john.ToString() == old(john.ToString())
  {
    jane := DeepCopy(john);
    jane.names[0] := first;
    jane.address.houseNumber := houseNumber;
  }

  /** The main program's people: John Smith of 123 London Road, and Jane, deep-copied from him
      and changed. John is printed unchanged; Jane is Jane Smith of 321 London Road. */
  method Example() returns (johnText: string, janeText: string)
    ensures johnText == PersonText(["John", "Smith"], AddressText("London Road", 123))
    ensures janeText == PersonText(["Jane", "Smith"], AddressText("London Road", 321))
  {
    var names := new string[2];
    names[0], names[1] := "John", "Smith";
    var address := new Address("London Road", 123);
    var john := new Person(names, address);
    var jane := DeepCopyAndChange(john, "Jane", 321);
    assert john.names[..] == ["John", "Smith"];
    assert jane.names[..] == ["Jane", "Smith"];
    johnText := john.ToString();
    janeText := jane.ToString();
  }
}
