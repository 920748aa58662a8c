/** The singleton example: a population database created lazily at most once, and two record
    finders that add up populations, one bound to the singleton and one given any database. */
module Singleton {
  import opened Int32
  import opened Wrappers

  /** What any `IDatabase` answers: a table from city name to population. A name outside the
      table makes the dictionary lookup throw. */
  datatype Database = Database(capitals: map<string, int32>)

  /** `IDatabase.GetPopulation(name)`: the population, or `None` where the lookup throws. */
  function Population(db: Database, name: string): (r: Option<int32>)
    ensures r.Some? <==> name in db.capitals
  {
    if name in db.capitals then Some(db.capitals[name]) else None
  }

  /** `DummyDatabase`: the fixed table alpha 1, beta 2, gamma 3. */
  const DummyDatabase := Database(map["alpha" := 1, "beta" := 2, "gamma" := 3])

  /** The dummy answers 1, 2 and 3 for its three names and fails for every other name. */
  lemma DummyLookups(name: string)
    ensures Population(DummyDatabase, "alpha") == Some(1)
    ensures Population(DummyDatabase, "beta") == Some(2)
    ensures Population(DummyDatabase, "gamma") == Some(3)
    ensures name != "alpha" && name != "beta" && name != "gamma" ==> Population(DummyDatabase, name) == None
  {
  }

  // ---------------------------------------------------------------------------
  // The total population

  /** Every name is in the table: no lookup throws. */
  predicate AllKnown(db: Database, names: seq<string>) {
    forall i :: 0 <= i < |names| ==> names[i] in db.capitals
  }

  /** The exact sum of the populations of `names`. */
  function Sum(db: Database, names: seq<string>): int
    requires AllKnown(db, names)
  {
    if names == [] then 0
    else Sum(db, names[..|names| - 1]) + db.capitals[names[|names| - 1]] as int
  }

  /** What `GetTotalPopulation` returns: the sum of the populations in unchecked 32-bit
      arithmetic, or `None` where some lookup throws. */
  function Total(db: Database, names: seq<string>): Option<int32> {
    if AllKnown(db, names) then Some(Wrap(Sum(db, names))) else None
  }

  /** No names, no lookups: the total is 0. */
  lemma EmptyTotal(db: Database)
    ensures Total(db, []) == Some(0)
  {
  }

  lemma {:induction false} SumAppend(db: Database, a: seq<string>, b: seq<string>)
    requires AllKnown(db, a) && AllKnown(db, b)
    ensures AllKnown(db, a + b)
    ensures Sum(db, a + b) == Sum(db, a) + Sum(db, b)
    decreases |b|
  {
    assert AllKnown(db, a + b) by {
      forall i | 0 <= i < |a + b| ensures (a + b)[i] in db.capitals {
        if i >= |a| { assert (a + b)[i] == b[i - |a|]; }
      }
    }
    if b == [] {
      assert a + b == a;
    } else {
      var b' := b[..|b| - 1];
      assert AllKnown(db, b');
      assert (a + b)[..|a + b| - 1] == a + b';
      SumAppend(db, a, b');
    }
  }

  /** Swapping two runs of names, `a + b` against `b + a`, does not change the total. */
  lemma SumSwap(db: Database, a: seq<string>, b: seq<string>)
    requires AllKnown(db, a) && AllKnown(db, b)
    ensures AllKnown(db, a + b) && AllKnown(db, b + a)
    ensures Sum(db, a + b) == Sum(db, b + a)
  {
    SumAppend(db, a, b);
    SumAppend(db, b, a);
  }

  /** The order of the names does not change the total: any rearrangement of the same names,
      repeats included, asks for the same populations and adds up to the same sum. */
  lemma {:induction false} SumPermutation(db: Database, p: seq<string>, q: seq<string>)
    requires AllKnown(db, p) && multiset(p) == multiset(q)
    ensures AllKnown(db, q)
    ensures Sum(db, p) == Sum(db, q)
    decreases |p|
  {
    KnownByMultiset(db, p, q);
    if p != [] {
      var n := |p| - 1;
      assert p[n] in multiset(q);
      var j :| 0 <= j < |q| && q[j] == p[n];
      var rest := q[..j] + q[j + 1..];
      RemoveOne(p, q, j);
      assert AllKnown(db, p[..n]);
      SumPermutation(db, p[..n], rest);
      SumWithout(db, q, j);
    }
  }

  /** Names with the same multiset are all known when the first are. */
  lemma KnownByMultiset(db: Database, p: seq<string>, q: seq<string>)
    requires AllKnown(db, p) && multiset(p) == multiset(q)
    ensures AllKnown(db, q)
  {
    forall i | 0 <= i < |q| ensures q[i] in db.capitals {
      assert q[i] in multiset(q);
      var k :| 0 <= k < |p| && p[k] == q[i];
    }
  }

  /** Taking the last name off `p` and the same name off `q` at `j` keeps the multisets equal. */
  lemma RemoveOne(p: seq<string>, q: seq<string>, j: nat)
    requires p != [] && multiset(p) == multiset(q) && j < |q| && q[j] == p[|p| - 1]
    ensures multiset(p[..|p| - 1]) == multiset(q[..j] + q[j + 1..])
  {
    var n := |p| - 1;
    var x := p[n];
    assert p == p[..n] + [x];
    assert q == q[..j] + [x] + q[j + 1..];
    assert multiset(p[..n]) == multiset(p) - multiset{x};
    assert multiset(q[..j] + q[j + 1..]) == multiset(q) - multiset{x};
  }

  /** The sum over `q` is the sum without its name at `j`, plus that name's population. */
  lemma SumWithout(db: Database, q: seq<string>, j: nat)
    requires AllKnown(db, q) && j < |q|
    ensures AllKnown(db, q[..j] + q[j + 1..])
    ensures Sum(db, q) == Sum(db, q[..j] + q[j + 1..]) + db.capitals[q[j]] as int
  {
    var before, after := q[..j], q[j + 1..];
    assert q == before + ([q[j]] + after);
    assert AllKnown(db, before) && AllKnown(db, after) && AllKnown(db, [q[j]]);
    SumAppend(db, before, after);
    SumAppend(db, [q[j]], after);
    SumAppend(db, before, [q[j]] + after);
    assert [q[j]][..0] == [];
  }

  /** The names the dummy database's test asks for, alpha and gamma, total 4. */
  lemma DummyTotal()
    ensures Total(DummyDatabase, ["alpha", "gamma"]) == Some(4)
  {
    var names := ["alpha", "gamma"];
    assert AllKnown(DummyDatabase, names);
    assert names[..1] == ["alpha"] && ["alpha"][..0] == [];
    assert Sum(DummyDatabase, names) == 4;
  }

  /** The `foreach` of both `GetTotalPopulation` methods, against a given lookup table:
      `result += GetPopulation(name)` in unchecked arithmetic, stopping at the first name the
      table does not hold. */
  method SumPopulations(db: Database, names: seq<string>) returns (r: Option<int32>)
    ensures r == Total(db, names)
  {
    var result: int32 := 0;
    var i := 0;
    while i < |names|
      invariant 0 <= i <= |names|
      invariant AllKnown(db, names[..i])
      invariant result == Wrap(Sum(db, names[..i]))
    {
      var population := Population(db, names[i]);
      if population.None? {
        assert !AllKnown(db, names);
        return None;
      }
      assert names[..i + 1][..i] == names[..i];
      WrapAdd(Sum(db, names[..i]), population.value as int);
      result := Wrap(result as int + population.value as int);
      i := i + 1;
    }
    assert names[..i] == names;
    r := Some(result);
  }

  // ---------------------------------------------------------------------------
  // ConfigurableRecordFinder: the database is a constructor argument

  class ConfigurableRecordFinder {
    const database: Database

    constructor (database: Database)
      ensures this.database == database
    {
      this.database := database;
    }

    /** The total over the given database. */
    method GetTotalPopulation(names: seq<string>) returns (r: Option<int32>)
      ensures r == Total(database, names)
    {
      r := SumPopulations(database, names);
    }
  }

  /** The configurable finder's test: with the dummy database, alpha and gamma total 4. */
  method ConfigurablePopulationTest() returns (total: Option<int32>)
    ensures total == Some(4)
  {
    var finder := new ConfigurableRecordFinder(DummyDatabase);
    total := finder.GetTotalPopulation(["alpha", "gamma"]);
    DummyTotal();
  }

  // ---------------------------------------------------------------------------
  // SingletonDatabase: created lazily, at most once

  /** The database object. Its table comes from the capitals file, which is not read here. */
  class SingletonDatabase {
    const capitals: map<string, int32>

    /** The private constructor: counts one more instance and loads the table. */
    constructor (statics: SingletonStatics)
      modifies statics
      ensures capitals == statics.file
      ensures statics.instanceCount == old(statics.instanceCount) + 1
      ensures statics.instance == old(statics.instance)
    {
      capitals := statics.file;
      new;
      statics.instanceCount := statics.instanceCount + 1;
    }

    /** `GetPopulation`: a lookup in the loaded table. */
    function GetPopulation(name: string): (r: Option<int32>)
      ensures r.Some? <==> name in capitals
      ensures r.Some? ==> r.value == capitals[name]
    {
      Population(Database(capitals), name)
    }
  }

  /** The static state of `SingletonDatabase`: the contents of the capitals file, the `Lazy`
      holder (null until its value is first asked for) and `instanceCount`. */
  class SingletonStatics {
    const file: map<string, int32>
    var instance: SingletonDatabase?
    var instanceCount: nat

    /** The constructor has run exactly once if an instance exists, and not at all otherwise;
        the instance holds the file's table. */
    ghost predicate Valid()
      reads this
    {
      && instanceCount == (if instance == null then 0 else 1)
      && (instance != null ==> instance.capitals == file)
    }

    constructor (file: map<string, int32>)
      ensures this.file == file && instance == null && instanceCount == 0 && Valid()
    {
      this.file := file;
      instance := null;
      instanceCount := 0;
    }

    /** `Instance`: the first access constructs the database, every later access returns the
        same object without constructing another. */
    method Instance() returns (db: SingletonDatabase)
      requires Valid()
      modifies this
      ensures Valid() && instance == db && db.capitals == file && instanceCount == 1
      ensures old(instance) != null ==> db == old(instance)
      ensures old(instance) == null ==> fresh(db)
    {
      if instance == null {
        instance := new SingletonDatabase(this);
      }
      db := instance;
    }

    /** `Count`. */
    function Count(): (n: nat)
      reads this
      requires Valid()
      ensures n <= 1
    {
      instanceCount
    }
  }

  /** `SingletonRecordFinder.GetTotalPopulation`: the same sum, each lookup going through
      `SingletonDatabase.Instance`. The first name creates the instance, if it does not exist
      yet; no name, no access. */
  method SingletonGetTotalPopulation(statics: SingletonStatics, names: seq<string>) returns (r: Option<int32>)
    requires statics.Valid()
    modifies statics
    ensures statics.Valid()
    ensures r == Total(Database(statics.file), names)
    ensures names == [] ==> statics.instance == old(statics.instance)
    ensures names != [] ==> statics.instanceCount == 1
    ensures names == [] ==> statics.instanceCount == old(statics.instanceCount)
  {
    var db := Database(statics.file);
    var result: int32 := 0;
    var i := 0;
    while i < |names|
      invariant 0 <= i <= |names|
      invariant statics.Valid()
      invariant i > 0 ==> statics.instanceCount == 1
      invariant i == 0 ==> statics.instance == old(statics.instance) && statics.instanceCount == old(statics.instanceCount)
      invariant AllKnown(db, names[..i])
      invariant result == Wrap(Sum(db, names[..i]))
    {
      var instance := statics.Instance();
      var population := instance.GetPopulation(names[i]);
      if population.None? {
        assert !AllKnown(db, names);
        return None;
      }
      assert names[..i + 1][..i] == names[..i];
      WrapAdd(Sum(db, names[..i]), population.value as int);
      result := Wrap(result as int + population.value as int);
      i := i + 1;
    }
    assert names[..i] == names;
    r := Some(result);
  }

  /** The singleton test: two accesses give the same object, and the constructor ran once. */
  method IsSingletonTest(file: map<string, int32>) returns (same: bool, count: nat)
    ensures same && count == 1
  {
    var statics := new SingletonStatics(file);
    var db := statics.Instance();
    var db2 := statics.Instance();
    same := db == db2;
    count := statics.Count();
  }
  /** The live-database test: whatever else the capitals file holds, Seoul, Mexico City and
      Osaka at 17500000, 17400000 and 16425000 total 51325000, which fits in 32 bits. */
  method SingletonTotalPopulationTest(file: map<string, int32>) returns (total: Option<int32>)
    requires "Seoul" in file && file["Seoul"] == 17500000
    requires "Mexico City" in file && file["Mexico City"] == 17400000
    requires "Osaka" in file && file["Osaka"] == 16425000
    ensures total == Some(51325000)
  {
    var statics := new SingletonStatics(file);
    var names := ["Seoul", "Mexico City", "Osaka"];
    total := SingletonGetTotalPopulation(statics, names);
    assert AllKnown(Database(file), names);
    assert names[..2] == ["Seoul", "Mexico City"] && names[..2][..1] == ["Seoul"] && ["Seoul"][..0] == [];
    var db := Database(file);
    assert Sum(db, ["Seoul"]) == 17500000;
    assert Sum(db, ["Seoul", "Mexico City"]) == 17500000 + 17400000;
    assert Sum(db, names) == 51325000;
  }
}
