/** The faceted person builder: a facade builder and two sub-builders (job and address)
    that all write, one field per step, into the same `Person` object. */
module PersonBuilders {
  import opened Int32

  /** The object under construction. C# string fields start out null; here they start out
      empty. */
  class Person {
    var streetAddress: string
    var postcode: string
    var city: string
    var companyName: string
    var position: string
    var annualIncome: int32

    constructor ()
      ensures streetAddress == "" && postcode == "" && city == ""
      ensures companyName == "" && position == "" && annualIncome == 0
    {
      streetAddress, postcode, city := "", "", "";
      companyName, position, annualIncome := "", "", 0;
    }
  }

  /** `PersonBuilder`: the facade. It owns a fresh `Person` and hands out sub-builders that
      reference that same object. */
  class PersonBuilder {
    const person: Person

    constructor ()
      ensures fresh(person)
      ensures person.streetAddress == "" && person.postcode == "" && person.city == ""
      ensures person.companyName == "" && person.position == "" && person.annualIncome == 0
    {
      person := new Person();
    }

    /** `Works`: a new job builder over the same person. */
    method Works() returns (b: PersonJobBuilder)
      ensures fresh(b) && b.person == person
    {
      b := new PersonJobBuilder(person);
    }

    /** `Lives`: a new address builder over the same person. */
    method Lives() returns (b: PersonAddressBuilder)
      ensures fresh(b) && b.person == person
    {
      b := new PersonAddressBuilder(person);
    }

    /** The implicit conversion to `Person`: the object under construction itself, not a copy. */
    method ToPerson() returns (p: Person)
      ensures p == person
    {
      p := person;
    }
  }

  /** `PersonJobBuilder`: the employment facet. */
  class PersonJobBuilder {
    const person: Person

    /** Keeps a reference to the given person and changes nothing in it. */
    constructor (person: Person)
      ensures this.person == person
    {
      this.person := person;
    }

    /** `At`: sets the company name, and nothing else. */
    method At(companyName: string) returns (b: PersonJobBuilder)
      modifies person`companyName
      ensures b == this && person.companyName == companyName
    {
      person.companyName := companyName;
      b := this;
    }

    /** `AsA`: sets the position, and nothing else. */
    method AsA(position: string) returns (b: PersonJobBuilder)
      modifies person`position
      ensures b == this && person.position == position
    {
      person.position := position;
      b := this;
    }

    /** `Earning`: sets the annual income, and nothing else. */
    method Earning(amount: int32) returns (b: PersonJobBuilder)
      modifies person`annualIncome
      ensures b == this && person.annualIncome == amount
    {
      person.annualIncome := amount;
      b := this;
    }

    /** `Works`, inherited from `PersonBuilder`: another job builder over the same person. */
    method Works() returns (b: PersonJobBuilder)
      ensures fresh(b) && b.person == person
    {
      b := new PersonJobBuilder(person);
    }

    /** `Lives`, inherited from `PersonBuilder`: an address builder over the same person. */
    method Lives() returns (b: PersonAddressBuilder)
      ensures fresh(b) && b.person == person
    {
      b := new PersonAddressBuilder(person);
    }

    /** The implicit conversion to `Person`, inherited from `PersonBuilder`: the shared
        object under construction. */
    method ToPerson() returns (p: Person)
      ensures p == person
    {
      p := person;
    }
  }

  /** `PersonAddressBuilder`: the address facet. */
  class PersonAddressBuilder {
    const person: Person

    /** Keeps a reference to the given person and changes nothing in it. */
    constructor (person: Person)
      ensures this.person == person
    {
      this.person := person;
    }

    /** `At`: sets the street address, and nothing else. */
    method At(streetAddress: string) returns (b: PersonAddressBuilder)
      modifies person`streetAddress
      ensures b == this && person.streetAddress == streetAddress
    {
      person.streetAddress := streetAddress;
      b := this;
    }

    /** `WithPostcode`: sets the postcode, and nothing else. */
    method WithPostcode(postcode: string) returns (b: PersonAddressBuilder)
      modifies person`postcode
      ensures b == this && person.postcode == postcode
    {
      person.postcode := postcode;
      b := this;
    }

    /** `Works`, inherited from `PersonBuilder`: a job builder over the same person. */
    method Works() returns (b: PersonJobBuilder)
      ensures fresh(b) && b.person == person
    {
      b := new PersonJobBuilder(person);
    }

    /** `Lives`, inherited from `PersonBuilder`: another address builder over the same person. */
    method Lives() returns (b: PersonAddressBuilder)
      ensures fresh(b) && b.person == person
    {
      b := new PersonAddressBuilder(person);
    }

    /** The implicit conversion to `Person`, inherited from `PersonBuilder`: the shared
        object under construction. */
    method ToPerson() returns (p: Person)
      ensures p == person
    {
      p := person;
    }
  }

  /** A chain through both facets, switching facets in mid-chain and converting the last
      facet to a person: every write lands in that one person, which is also the one the
      facade converts to, and the city, which no step writes, stays empty. */
  method BuildThroughFacets(company: string, position: string, income: int32, street: string, postcode: string)
    returns (p: Person, viaFacade: Person)
    ensures p == viaFacade
    ensures p.companyName == company && p.position == position && p.annualIncome == income
    ensures p.streetAddress == street && p.postcode == postcode
    ensures p.city == ""
  {
    var pb := new PersonBuilder();
    var job := pb.Works();
    job := job.At(company);
    job := job.AsA(position);
    job := job.Earning(income);
    var address := job.Lives();
    address := address.At(street);
    address := address.WithPostcode(postcode);
    p := address.ToPerson();
    viaFacade := pb.ToPerson();
  }
}
