/** The monostate variant of the singleton: every `CEO` object reads and writes the same two
    static fields, so a second `CEO` sees what was set through the first. */
module Monostate {
  import opened Int32
  import opened Text

  /** The static fields `name` and `age` of `CEO`. C#'s null name is the empty string here. */
  class CeoStatics {
    var name: string
    var age: int32

    constructor ()
      ensures name == "" && age == 0
    {
      name, age := "", 0;
    }
  }

  /** The `ToString` text for a name and an age: `"Name: {Name}, Age: {Age}"`. */
  function Describe(name: string, age: int32): string {
    "Name: " + name + ", Age: " + IntToString(age as int)
  }

  /** The description can be read back: the name sits between the fixed prefix and the
      `", Age: "` that follows it, and the age's digits follow that. */
  lemma DescribeParts(name: string, age: int32)
    ensures var d := Describe(name, age);
      && d[..6] == "Name: "
      && d[6..6 + |name|] == name
      && d[6 + |name|..6 + |name| + 7] == ", Age: "
      && d[6 + |name| + 7..] == IntToString(age as int)
  {
  }

  /** Two descriptions with the same name are equal only for the same age. */
  lemma DescribeDistinguishesAges(name: string, a: int32, b: int32)
    requires Describe(name, a) == Describe(name, b)
    ensures a == b
  {
    DescribeParts(name, a);
    DescribeParts(name, b);
    IntToStringInjective(a as int, b as int);
  }

  /** `CEO`: an object with no state of its own. */
  class CEO {
    const statics: CeoStatics

    /** `new CEO()`: creating an instance leaves the shared state as it was. */
    constructor (statics: CeoStatics)
      ensures this.statics == statics
    {
      this.statics := statics;
    }

    /** The `Name` getter. */
    function Name(): string
      reads statics
    {
      statics.name
    }

    /** The `Age` getter. */
    function Age(): int32
      reads statics
    {
      statics.age
    }

    /** The `Name` setter: writes the shared name, and nothing else. */
    method SetName(value: string)
      modifies statics`name
      ensures statics.name == value
    {
      statics.name := value;
    }

    /** The `Age` setter: writes the shared age, and nothing else. */
    method SetAge(value: int32)
      modifies statics`age
      ensures statics.age == value
    {
      statics.age := value;
    }

    /** `ToString`: the description of the shared name and age. */
    function ToString(): string
      reads statics
    {
      Describe(statics.name, statics.age)
    }
  }

  /** Any two `CEO` objects over the same statics describe themselves alike, whatever was
      set through either of them. */
  lemma AllInstancesAgree(a: CEO, b: CEO)
    requires a.statics == b.statics
    ensures a.ToString() == b.ToString()
  {
  }

  /** `SingletonMonostatePattern.Example`: the name and age set through the first CEO are
      what a second, newly created CEO reports. */
  method Example() returns (first: string, second: string)
    ensures first == second == "Name: Adam Smith, Age: 57"
  {
    var statics := new CeoStatics();
    var ceo := new CEO(statics);
    ceo.SetName("Adam Smith");
    ceo.SetAge(57);
    var ceo2 := new CEO(statics);
    first := ceo.ToString();
    second := ceo2.ToString();
    ExampleText();
  }

  /** The text both objects of the example print. */
  lemma ExampleText()
    ensures Describe("Adam Smith", 57) == "Name: Adam Smith, Age: 57"
  {
    assert NatToString(57) == "57" by {
      assert NatToString(5) == "5";
    }
  }
}
