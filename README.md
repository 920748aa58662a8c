# Design-pattern examples in C#, modelled in Dafny

The repository is a catalogue of small C# programs, one per design pattern or design principle.
This project models the examples whose behaviour can be stated exactly, one Dafny module per
source file:

- **Adapter** (`adapter.dfy`). This covers `Point` and `Line`: their value equality and their
  32-bit hash codes. It also covers the four lines of a `VectorRectangle`, and the
  `LineToPointAdapter`, which turns an axis-aligned line into its integer points. The adapter
  memoises those points in a dictionary keyed by the line's hash code and counts every list it
  generates. The drawing loop of the demo program is included too.
- **OpenClose** (`open_close.dfy`). This covers the three hard-wired product filters and the
  specification pattern: colour, size and conjunction specifications, and the generic filter.
- **Html** (`html.dfy`). This covers the recursive, indented rendering of an HTML element tree,
  and the builder that appends children to a root and resets it.
- **PersonBuilders** (`person_builder.dfy`). This covers the faceted builder: a facade and a job
  facet and an address facet, all writing into one shared `Person`.
- **Journal** (`journal.dfy`). This covers the journal of numbered entries, numbered by a
  process-wide counter.
- **Genealogy** (`genealogy.dfy`). This covers the store of relation triples and its
  children-by-parent-name query.
- **Singleton** (`singleton.dfy`). This covers the two record finders that add up populations,
  the dummy database, and the lazily created singleton database and its instance count.
- **Monostate** (`monostate.dfy`). This covers the `CEO` class, whose properties read and write
  static fields.
- **Liskov** (`liskov.dfy`). This covers the rectangle, the square that overrides its setters,
  and the area that code written for rectangles gets wrong for squares.
- **Prototype** (`prototype.dfy`). This covers the copy constructors, which copy the address
  and share the names array, and the serialising deep copy, which shares nothing.

Three helper modules support the others:

- `Int32` holds C#'s `int` as a 32-bit newtype, with explicit wrap-around for unchecked
  arithmetic.
- `Text` holds the decimal formatting that string interpolation applies to an `int`,
  `string.Join`, and splitting at a character.
- `Wrappers` holds `Option`.

C# `static` fields become one shared object that every instance receives in its constructor:

- the adapter's cache and count (`PointCache`);
- the journal's counter (`EntryCounter`);
- the singleton's `Lazy` holder and instance count (`SingletonStatics`);
- the CEO's name and age (`CeoStatics`).

Where an object's identity matters, because other objects hold and observe it, a C# reference
type updated in place is modelled as a class with `modifies` clauses. The builders, the journal,
the relations store, the rectangle and the prototype's people are all modelled this way. The
one exception is `HtmlElement`. `root.Elements.Add(e)` updates it in place, but no element is
ever shared. Each element is reachable only from its parent, and the root only from its
`HtmlBuilder`. It is therefore a value: a datatype held in the `HtmlBuilder` class, which
reassigns its root. No aliasing is lost. Pure computations are functions, and loops are methods proved
against those functions.

## Model

| member | source | states |
|---|---|---|
| Adapter.PointEquals | Adapter/Program.cs:30-33 | `Point.Equals(Point)`: both coordinates match. |
| Adapter.LineEquals | Adapter/Program.cs:63-66 | `Line.Equals(Line)`: the starts are equal points and the ends are equal points. |
| Adapter.PointEqualsIsValueEquality | Adapter/Program.cs:30-41 | Two points are `Equals` exactly when both coordinates match. |
| Adapter.LineEqualsIsValueEquality | Adapter/Program.cs:63-74 | Two lines are `Equals` exactly when their starts are equal and their ends are equal. |
| Adapter.LineEqualsOrderSensitive | Adapter/Program.cs:63-66 | A line equals its reversal only when both ends are the same point: equality depends on direction. |
| Adapter.PointHash | Adapter/Program.cs:43-49 | `(x * 397) ^ y` on the 32-bit patterns of the coordinates, with the multiplication wrapping. |
| Adapter.LineHash | Adapter/Program.cs:76-82 | `(hash(Start) * 397) ^ hash(End)`, with the multiplication wrapping. |
| Adapter.HashRespectsEquals | Adapter/Program.cs:76-82 | Equal lines have equal hash codes `(hash(Start) * 397) ^ hash(End)`, computed with 32-bit wrap-around. |
| Adapter.HashCollision | Adapter/Program.cs:43-49 | The distinct points (0, 397) and (1, 0) both hash to 397, and so do two unequal lines built from them. |
| Adapter.Points | Adapter/Program.cs:117-141 | The list the constructor builds: a column for a vertical line, otherwise a row for a horizontal one, otherwise nothing. The lemmas below state its contents. |
| Adapter.VerticalPoints | Adapter/Program.cs:127-133 | A vertical line yields `(left, y)` for every y from top to bottom inclusive, in increasing order. |
| Adapter.HorizontalPoints | Adapter/Program.cs:134-140 | A horizontal, non-vertical line yields `(x, top)` for every x from left to right inclusive, in increasing order. |
| Adapter.DiagonalPoints | Adapter/Program.cs:127-142 | A line that is neither vertical nor horizontal yields no points. |
| Adapter.DegeneratePoints | Adapter/Program.cs:127-133 | A line from a point to itself yields exactly that point. |
| Adapter.EndpointsIncluded | Adapter/Program.cs:120-140 | Both ends of an axis-aligned line are among its points. |
| Adapter.PointsIgnoreDirection | Adapter/Program.cs:120-125 | A line and its reversal yield the same points, because the loops run between the minimum and the maximum. |
| Adapter.GeneratePoints | Adapter/Program.cs:117-141 | The two loops build exactly the point list of the line, with a loop variable that cannot overflow. |
| Adapter.Increment | Adapter/Program.cs:129 | `y++` adds one below int.MaxValue and wraps to int.MinValue at it. |
| Adapter.AsWrittenColumnLoop | Adapter/Program.cs:129-132 | The first rounds of the vertical loop with the wrapping `y++`: the points added and whether the loop has exited. |
| Adapter.AsWrittenLoopNeverExits | Adapter/Program.cs:129-132 | With the bottom at int.MaxValue, the loop as written is still running after any number of rounds, with one point added per round. |
| Adapter.AsWrittenDegenerateAtMax | Adapter/Program.cs:129-132 | The one-point line at (0, int.MaxValue) should yield one point, but the loop as written never exits normally. |
| Adapter.AsWrittenColumnLoopBelowMax | Adapter/Program.cs:129-132 | With the bottom below int.MaxValue, and one round more than there are points, the vertical loop as written exits and has added exactly the column from its start down to the bottom. |
| Adapter.AsWrittenVerticalBelowMax | Adapter/Program.cs:127-132 | For a vertical line whose bottom is below int.MaxValue, the loop as written yields exactly `Points(l)`, the same as the corrected loop. |
| Adapter.AsWrittenRowLoop | Adapter/Program.cs:136-139 | The first rounds of the horizontal loop with the wrapping `x++`: the points added and whether the loop has exited. |
| Adapter.AsWrittenRowLoopNeverExits | Adapter/Program.cs:136-139 | With the right end at int.MaxValue, the horizontal loop as written is still running after any number of rounds, with one point added per round. |
| Adapter.AsWrittenHorizontalAtMax | Adapter/Program.cs:136-139 | The line from (int.MaxValue - 1, 0) to (int.MaxValue, 0) should yield its two end points, but the loop as written never exits normally. |
| Adapter.AsWrittenRowLoopBelowMax | Adapter/Program.cs:136-139 | With the right end below int.MaxValue, and one round more than there are points, the horizontal loop as written exits and has added exactly the row from its start to the right end. |
| Adapter.AsWrittenHorizontalBelowMax | Adapter/Program.cs:134-139 | For a horizontal, non-vertical line whose right end is below int.MaxValue, the loop as written yields exactly `Points(l)`, the same as the corrected loop. |
| Adapter.Adapt | Adapter/Program.cs:111-143 | After an adapter is built, its line's hash is a key of the cache. |
| Adapter.AdaptPreserves | Adapter/Program.cs:114-142 | Building an adapter never removes or overwrites a cache entry, and it keeps keys, entries and count consistent. |
| Adapter.CollidingLineIsSkipped | Adapter/Program.cs:114-115 | A second adapter for a line whose hash is already cached changes nothing, even when the line itself differs. |
| Adapter.CollisionKeepsOtherPoints | Adapter/Program.cs:114-115 | After the vertical colliding line, the horizontal one is skipped. Its hash then maps to the vertical line's points, and the count stays 1. |
| Adapter.CountIsEntries | Adapter/Program.cs:106-142 | The count always equals the number of cache entries. |
| Adapter.EnumerationCoversCache | Adapter/Program.cs:147-151 | An adapter enumerates a point exactly when some cache entry, from any line, holds it. |
| Adapter.AdaptMissEnumeration | Adapter/Program.cs:147-151 | After a miss, the enumeration is the old one followed by the new line's points. |
| Adapter.VectorRectangle | Adapter/Program.cs:90-96 | A rectangle consists of four lines, each vertical or horizontal. |
| Adapter.RectangleCorners | Adapter/Program.cs:90-96 | Every rectangle line runs between two of the corners (x, y), (x+w, y), (x+w, y+h) and (x, y+h), and every corner ends some line. |
| Adapter.RectangleLinesHavePoints | Adapter/Program.cs:90-96 | No rectangle line falls into the diagonal case, so each yields at least one point. |
| Adapter.DrawWellFormed | Adapter/Program.cs:186-196 | Drawing any sequence of lines keeps the cache consistent. |
| Adapter.DrawKeepsEntries | Adapter/Program.cs:186-196 | Drawing never removes or changes an existing entry. |
| Adapter.DrawCovers | Adapter/Program.cs:186-196 | After drawing, the hash of every drawn line is cached. |
| Adapter.DrawCovered | Adapter/Program.cs:180-181 | Drawing lines whose hashes are all cached leaves the cache and the count unchanged. |
| Adapter.DrawTwice | Adapter/Program.cs:180-181 | A second `Draw` of the same lines triggers no new computation. |
| Adapter.RedrawRepeatsTable | Adapter/Program.cs:186-196 | Once every line is cached, drawing n lines sends the whole table's points n times. |
| Adapter.DrawAppend | Adapter/Program.cs:188-195 | Drawing a + b is drawing a and then drawing b, both for the cache and for the points sent. |
| Adapter.DrawAddsOnlyTheirHashes | Adapter/Program.cs:186-196 | A hash that no drawn line has stays absent from the cache. |
| Adapter.DrawDistinctCount | Adapter/Program.cs:186-196 | Drawing lines with distinct, uncached hashes adds one to the count per line. |
| Adapter.DrawFirstWins | Adapter/Program.cs:114-142 | Whatever is drawn before or after it, the entry at a new line's hash holds the points of the first drawn line with that hash. Later lines with the same hash never replace it. |
| Adapter.DrawDistinctEnumeration | Adapter/Program.cs:147-151 | Drawing lines with distinct, uncached hashes appends their points to the enumeration, in drawing order. |
| Adapter.SampleObjectLines | Adapter/Program.cs:162-166 | The demo draws the first rectangle's four sides, then the second's, with corners (1, 1) to (11, 11) and (3, 3) to (9, 9). |
| Adapter.SampleHashes | Adapter/Program.cs:76-82 | The eight demo lines have pairwise different hash codes. |
| Adapter.SamplePointCount | Adapter/Program.cs:127-140 | The demo's lines yield 72 points: 11 per side of the first rectangle and 7 per side of the second. |
| Adapter.PointCache.constructor | Adapter/Program.cs:106-109 | The shared cache starts empty, with count 0. |
| Adapter.LineToPointAdapter.constructor | Adapter/Program.cs:111-143 | The shared state becomes `Adapt` of the old state and the line. |
| Adapter.LineToPointAdapter.GetEnumerator | Adapter/Program.cs:147-151 | The loop returns the concatenation of every cached list, in insertion order. |
| Adapter.DrawObject | Adapter/Program.cs:190-194 | One adapter is built per line, and the points are sent as the drawing functions specify. |
| Adapter.Draw | Adapter/Program.cs:186-196 | Every line of every object is drawn in order, matching the drawing functions over the concatenated lines. |
| Adapter.DrawTwiceDemo | Adapter/Program.cs:175-182 | The demo's first `Draw` generates 8 point lists, and the table then holds the 72 points of the eight lines in drawing order. The second `Draw` leaves the count at 8 and sends the full table once per line, 8 times. |
| OpenClose.FilterBySize | OpenClosePrinciple/Program.cs:41-50 | Every product returned is an input product of the given size. |
| OpenClose.FilterByColor | OpenClosePrinciple/Program.cs:52-61 | Every product returned is an input product of the given colour. |
| OpenClose.FilterBySizeAndColor | OpenClosePrinciple/Program.cs:63-72 | Every product returned is an input product of the given size and colour. |
| OpenClose.IsSatisfied | OpenClosePrinciple/Program.cs:99-133 | A colour specification holds for a product of that colour, a size specification for a product of that size, and a conjunction when both parts hold. |
| OpenClose.Filter | OpenClosePrinciple/Program.cs:138-145 | The result is no longer than the input, and each item returned is an input item that satisfies the specification. |
| OpenClose.FilterSelectsExactly | OpenClosePrinciple/Program.cs:138-145 | The result is the subsequence, in input order, of exactly the positions whose item satisfies the specification. |
| OpenClose.AndIsSuccessiveFilters | OpenClosePrinciple/Program.cs:130-133 | Filtering by a conjunction equals filtering by the first specification and then by the second. |
| OpenClose.AndCommutes | OpenClosePrinciple/Program.cs:130-133 | The order of the two parts of a conjunction does not change the result. |
| OpenClose.FilterBySizeIsSpecification | OpenClosePrinciple/Program.cs:41-50 | `FilterBySize` equals the generic filter with a size specification. |
| OpenClose.FilterByColorIsSpecification | OpenClosePrinciple/Program.cs:52-61 | `FilterByColor` equals the generic filter with a colour specification. |
| OpenClose.FilterBySizeAndColorIsSpecification | OpenClosePrinciple/Program.cs:63-72 | `FilterBySizeAndColor(s, c)` equals the generic filter with the conjunction of colour c and size s. |
| OpenClose.DemoResults | OpenClosePrinciple/Program.cs:154-182 | On the sample products, green gives apple then tree (both ways), and blue-and-large gives only the house. |
| Html.Spaces | Builder/Program.cs:58 | `new string(' ', n)` consists of n spaces. |
| Html.Render | Builder/Program.cs:55-74 | `ToStringImpl(indent)`: the open-tag line, the text line when there is text, the children one level deeper, and the close-tag line. `Html.RenderIsLines` states it line by line. |
| Html.RenderAll | Builder/Program.cs:67-70 | The children's renderings, one after another, in list order. |
| Html.RenderIsLines | Builder/Program.cs:55-74 | Rendering produces the element's lines, each ended by a newline: the open tag, the text line if any, the children, then the close tag. |
| Html.RenderAllIsLines | Builder/Program.cs:67-70 | The children render one after another, in list order. |
| Html.OpenAndCloseLines | Builder/Program.cs:58-72 | The first line is 2k spaces and `<name>`. The last line is 2k spaces and `</name>`. A non-empty text comes second, after 2(k+1) spaces. |
| Html.NoTextNoTextLine | Builder/Program.cs:61-65 | Without text there is no text line: the children come right after the open tag. |
| Html.LinesIndented | Builder/Program.cs:55-74 | Every line of an element rendered at level k starts with at least 2k spaces. |
| Html.LinesAllIndented | Builder/Program.cs:67-70 | The same holds for a list of children rendered at level k. |
| Html.LinesAllAppend | Builder/Program.cs:67-70 | One more child adds exactly its lines at the end of the children's lines. |
| Html.AppendChildLines | Builder/Program.cs:93-98 | Appending a child inserts exactly its lines, at level k+1, just before the parent's close tag. |
| Html.ElementToString | Builder/Program.cs:76-79 | `ToString` is rendering at level 0. |
| Html.LeafRender | Builder/Program.cs:55-74 | A childless element with text renders as three lines: open tag, text, close tag. |
| Html.HtmlBuilder.constructor | Builder/Program.cs:87-91 | A new builder's root has the given name, no text and no children. |
| Html.HtmlBuilder.AddChild | Builder/Program.cs:93-98 | Appends exactly one childless element with the given name and text after the existing children, keeps the root's name and text, and returns the same builder. |
| Html.HtmlBuilder.ToString | Builder/Program.cs:100-103 | The builder's text is its root rendered at level 0. |
| Html.HtmlBuilder.Clear | Builder/Program.cs:105-108 | The root becomes an element with the original root name, no text and no children. |
| Html.DemoItem | Builder/Program.cs:59-72 | A childless `li` with any non-empty text, at level 1, renders as its three indented lines. |
| Html.DemoRendering | Builder/Program.cs:33-35 | The `ul` with the two items renders as the exact three-level indented text. |
| Html.Demo | Builder/Program.cs:33-35 | The builder chain `AddChild("li", "hello").AddChild("li", "world")` on a `ul` builder outputs that exact text. |
| PersonBuilders.Person.constructor | Builder/Builder.cs:10-16 | A new person has every field empty and income 0. |
| PersonBuilders.PersonBuilder.constructor | Builder/Builder.cs:28 | The facade owns a fresh, empty person. |
| PersonBuilders.PersonBuilder.Works | Builder/Builder.cs:30 | Returns a fresh job builder over the same person. |
| PersonBuilders.PersonBuilder.Lives | Builder/Builder.cs:31 | Returns a fresh address builder over the same person. |
| PersonBuilders.PersonBuilder.ToPerson | Builder/Builder.cs:33-36 | The implicit conversion returns the person under construction itself, not a copy. |
| PersonBuilders.PersonJobBuilder.constructor | Builder/Builder.cs:41-44 | Keeps the given person. |
| PersonBuilders.PersonJobBuilder.At | Builder/Builder.cs:46-50 | Sets the company name only, which the frame enforces, and returns this builder. |
| PersonBuilders.PersonJobBuilder.AsA | Builder/Builder.cs:52-56 | Sets the position only and returns this builder. |
| PersonBuilders.PersonJobBuilder.Earning | Builder/Builder.cs:58-62 | Sets the annual income only and returns this builder. |
| PersonBuilders.PersonJobBuilder.Works | Builder/Builder.cs:30 | The inherited `Works`: another job builder over the same person. |
| PersonBuilders.PersonJobBuilder.Lives | Builder/Builder.cs:31 | The inherited `Lives`: an address builder over the same person. |
| PersonBuilders.PersonJobBuilder.ToPerson | Builder/Builder.cs:33-36 | The inherited implicit conversion: the shared person itself. |
| PersonBuilders.PersonAddressBuilder.constructor | Builder/Builder.cs:67-70 | Keeps the given person. |
| PersonBuilders.PersonAddressBuilder.At | Builder/Builder.cs:72-76 | Sets the street address only and returns this builder. |
| PersonBuilders.PersonAddressBuilder.WithPostcode | Builder/Builder.cs:78-82 | Sets the postcode only and returns this builder. |
| PersonBuilders.PersonAddressBuilder.Works | Builder/Builder.cs:30 | The inherited `Works`: a job builder over the same person. |
| PersonBuilders.PersonAddressBuilder.Lives | Builder/Builder.cs:31 | The inherited `Lives`: another address builder over the same person. |
| PersonBuilders.PersonAddressBuilder.ToPerson | Builder/Builder.cs:33-36 | The inherited implicit conversion: the shared person itself. |
| PersonBuilders.BuildThroughFacets | Builder/Builder.cs:30-83 | A chain through both facets, converted from its last facet, gives the same person the facade converts to. Every written field is in it, and no step writes the city. |
| Journal.EntryCounter.constructor | DesignPatterns/Program.cs:21 | The shared counter starts at 0. |
| Journal.Entry | DesignPatterns/Program.cs:25 | The entry text `$"{++count}: {text}"` for a given number. |
| Journal.EntryRoundTrip | DesignPatterns/Program.cs:25 | The entry "n: text" reads back: the digits before the first colon give n, and what follows ": " is the text. |
| Journal.EntryNumbersDistinguish | DesignPatterns/Program.cs:25 | Equal entries have equal numbers and equal texts. |
| Journal.RemoveAt | DesignPatterns/Program.cs:31 | `RemoveAt(i)` gives the list without position i, the others in order. |
| Journal.Journal.constructor | DesignPatterns/Program.cs:20-21 | A new journal has no entries and uses the shared counter. |
| Journal.Journal.AddEntry | DesignPatterns/Program.cs:23-27 | The shared counter grows by one. The returned id is its new value, and "id: text" is appended with earlier entries unchanged. |
| Journal.Journal.RemoveEntry | DesignPatterns/Program.cs:29-32 | Inside the list, removes the entry at that position, not the entry with that number. Outside it, reports failure and changes nothing. |
| Journal.Journal.ToString | DesignPatterns/Program.cs:34-37 | If the journal is non-empty and no entry contains a newline, splitting the joined text at newlines gives the entries back, in order. |
| Journal.TwoJournals | DesignPatterns/Program.cs:21-27 | Ids are consecutive across two journals that share the counter. |
| Journal.RemoveByPosition | DesignPatterns/Program.cs:23-32 | Removing position 0 after two additions leaves entry 2, and the next id is still 3. |
| Genealogy.ChildrenOf | DependencyInversionPrinciple/Program.cs:52-56 | The `Where`/`Select` query yields at most one child per triple. Its exact contents are stated by the lemmas below. |
| Genealogy.ChildrenOfAppend | DependencyInversionPrinciple/Program.cs:52-56 | The query over a + b is the query over a followed by the query over b, so insertion order is kept. |
| Genealogy.ChildrenOfMembership | DependencyInversionPrinciple/Program.cs:54-55 | A person is in the answer exactly when some Parent triple, from a person with that name, leads to them. |
| Genealogy.ChildTriplesIgnored | DependencyInversionPrinciple/Program.cs:55 | Child and Sibling triples never change the answer. |
| Genealogy.AddPairQuery | DependencyInversionPrinciple/Program.cs:46-56 | Adding a pair appends the child to the parent's answer and leaves the answer for every other name unchanged. |
| Genealogy.Relationships.constructor | DependencyInversionPrinciple/Program.cs:44 | The store starts empty. |
| Genealogy.Relationships.AddParentAndChild | DependencyInversionPrinciple/Program.cs:46-50 | Appends (parent, Parent, child) and then (child, Child, parent), and keeps the earlier triples. |
| Genealogy.Relationships.FindAllChildren | DependencyInversionPrinciple/Program.cs:52-56 | Returns exactly the targets of the Parent triples from a person with that name. |
| Genealogy.JohnsChildren | DependencyInversionPrinciple/Program.cs:85-93 | After John→Chris and John→Mary, John's children are [Chris, Mary]. |
| Singleton.Population | Singleton/Program.cs:29-32 | A lookup succeeds exactly when the name is in the table. |
| Singleton.DummyLookups | Singleton/Program.cs:107-118 | The dummy answers 1, 2 and 3 for alpha, beta and gamma, and fails for every other name. |
| Singleton.Sum | Singleton/Program.cs:95-101 | The exact sum of the populations of the names, in order. |
| Singleton.Total | Singleton/Program.cs:95-101 | What `GetTotalPopulation` returns: the sum wrapped to 32 bits when every name is in the table, and failure otherwise. |
| Singleton.EmptyTotal | Singleton/Program.cs:95-101 | No names give a total of 0. |
| Singleton.SumAppend | Singleton/Program.cs:95-101 | The total over a + b is the total over a plus the total over b. |
| Singleton.SumSwap | Singleton/Program.cs:95-101 | Swapping two runs of names, `a + b` against `b + a`, does not change the total. |
| Singleton.SumPermutation | Singleton/Program.cs:95-101 | The order of the names does not change the total: any rearrangement of the same names, repeats included, is all known exactly when the original is and has the same sum. |
| Singleton.DummyTotal | Singleton/SingletonTests.cs:37-45 | With the dummy, alpha and gamma total 4. |
| Singleton.SumPopulations | Singleton/Program.cs:95-101 | The loop returns the sum in unchecked 32-bit arithmetic, or failure when some name is missing. |
| Singleton.ConfigurableRecordFinder.constructor | Singleton/Program.cs:90-93 | Keeps the given database. |
| Singleton.ConfigurableRecordFinder.GetTotalPopulation | Singleton/Program.cs:95-101 | The total over the injected database. |
| Singleton.ConfigurablePopulationTest | Singleton/SingletonTests.cs:37-45 | The configurable finder over the dummy gives 4 for alpha and gamma. |
| Singleton.SingletonDatabase.constructor | Singleton/Program.cs:41-53 | Counts one more instance and loads the file's table. |
| Singleton.SingletonDatabase.GetPopulation | Singleton/Program.cs:55-58 | A lookup in the loaded table, which fails for absent names. |
| Singleton.SingletonStatics.constructor | Singleton/Program.cs:63 | Before the first access there is no instance and the count is 0. |
| Singleton.SingletonStatics.Instance | Singleton/Program.cs:63-65 | The first access constructs the database. Later accesses return the same object. Afterwards the count is 1. |
| Singleton.SingletonStatics.Count | Singleton/Program.cs:38 | The instance count is never more than 1. |
| Singleton.SingletonGetTotalPopulation | Singleton/Program.cs:74-80 | The same total, computed against the singleton's table. Any name creates the instance once, and no names leave the statics unchanged. |
| Singleton.IsSingletonTest | Singleton/SingletonTests.cs:13-19 | Two accesses return the same object, and the count is 1. |
| Singleton.SingletonTotalPopulationTest | Singleton/SingletonTests.cs:22-34 | If the file holds Seoul, Mexico City and Osaka with the test's figures, their total is 51325000. |
| Monostate.CeoStatics.constructor | Singleton/SingletonMonostatePattern.cs:35-36 | The static name starts empty (null in C#), and the static age starts at 0. |
| Monostate.Describe | Singleton/SingletonMonostatePattern.cs:50-53 | The text "Name: {name}, Age: {age}". |
| Monostate.DescribeParts | Singleton/SingletonMonostatePattern.cs:50-53 | `ToString` is "Name: ", the name, ", Age: ", and the age in decimal. |
| Monostate.DescribeDistinguishesAges | Singleton/SingletonMonostatePattern.cs:50-53 | For the same name, equal descriptions mean equal ages. |
| Monostate.CEO.constructor | Singleton/SingletonMonostatePattern.cs:32-36 | Creating a CEO leaves the shared state untouched. |
| Monostate.CEO.Name | Singleton/SingletonMonostatePattern.cs:38-42 | The `Name` getter reads the shared name. |
| Monostate.CEO.Age | Singleton/SingletonMonostatePattern.cs:44-48 | The `Age` getter reads the shared age. |
| Monostate.CEO.ToString | Singleton/SingletonMonostatePattern.cs:50-53 | The description of the shared name and age. |
| Monostate.CEO.SetName | Singleton/SingletonMonostatePattern.cs:38-42 | Writes the shared name only, so the age is unchanged. |
| Monostate.CEO.SetAge | Singleton/SingletonMonostatePattern.cs:44-48 | Writes the shared age only, so the name is unchanged. |
| Monostate.AllInstancesAgree | Singleton/SingletonMonostatePattern.cs:35-53 | Any two CEOs over the same statics describe themselves identically. |
| Monostate.Example | Singleton/SingletonMonostatePattern.cs:14-23 | Values set through the first CEO show through a CEO created later: both print "Name: Adam Smith, Age: 57". |
| Monostate.ExampleText | Singleton/SingletonMonostatePattern.cs:50-53 | The name "Adam Smith" with age 57 is described as "Name: Adam Smith, Age: 57". |
| Liskov.Rectangle.Default | LiskovSubstitutionPrinciple/Program.cs:18 | A new rectangle is 0 by 0. |
| Liskov.Rectangle.Sized | LiskovSubstitutionPrinciple/Program.cs:20-24 | `Rectangle(w, h)` has width w and height h. |
| Liskov.Rectangle.Square | LiskovSubstitutionPrinciple/Program.cs:32-55 | A new square is 0 by 0. |
| Liskov.Rectangle.SetWidth | LiskovSubstitutionPrinciple/Program.cs:46-49 | Sets the width. A rectangle keeps its height, and a square sets both sides, so its sides stay equal. |
| Liskov.Rectangle.SetHeight | LiskovSubstitutionPrinciple/Program.cs:51-54 | Sets the height. A rectangle keeps its width, and a square sets both sides. |
| Liskov.Area | LiskovSubstitutionPrinciple/Program.cs:59 | The area is width times height modulo 2^32. |
| Liskov.SquareArea | LiskovSubstitutionPrinciple/Program.cs:59 | A square's area is its side squared. |
| Liskov.RectangleText | LiskovSubstitutionPrinciple/Program.cs:26-29 | The text "Width: {w}, Height: {h}". |
| Liskov.Rectangle.ToString | LiskovSubstitutionPrinciple/Program.cs:26-29 | The text of the current width and height. |
| Liskov.RectangleTextDistinguishes | LiskovSubstitutionPrinciple/Program.cs:26-29 | The text "Width: w, Height: h" determines both sides. |
| Liskov.SetBothThenArea | LiskovSubstitutionPrinciple/Program.cs:46-59 | Setting width a and then height b gives area a*b on a rectangle but b*b on a square. |
| Liskov.SubstitutionFails | LiskovSubstitutionPrinciple/Program.cs:46-59 | The same client code on a new rectangle gives a*b, and on a new square gives b*b. |
| Liskov.Demo | LiskovSubstitutionPrinciple/Program.cs:63-69 | The 2 by 3 rectangle has area 6. A square given width 4 is 4 by 4, with area 16. |
| Prototype.AddressText | Prototype/Program.cs:82-85 | The text "StreetName: {street}, HouseNumber: {number}". |
| Prototype.PersonText | Prototype/Program.cs:40-43 | The text "Names: {names joined by spaces}, Address-> {address}". |
| Prototype.AddressTextDistinguishes | Prototype/Program.cs:82-85 | "StreetName: s, HouseNumber: n" gives back s and n when s has no comma. |
| Prototype.PersonTextDistinguishes | Prototype/Program.cs:40-43 | "Names: …, Address-> …" gives back the space-joined names and the address text when the names have no comma. |
| Prototype.Address.Default | Prototype/Program.cs:71-74 | A new address has an empty (null in C#) street and house number 0. |
| Prototype.Address.constructor | Prototype/Program.cs:76-80 | Sets both fields. |
| Prototype.Address.Copy | Prototype/Program.cs:94-98 | A new address object with both fields copied exactly. |
| Prototype.Address.ToString | Prototype/Program.cs:82-85 | The address text of the current fields. |
| Prototype.Person.constructor | Prototype/Program.cs:34-38 | Keeps both references. |
| Prototype.Person.Copy | Prototype/Program.cs:53-57 | The copy shares the names array and has a fresh address with equal fields. |
| Prototype.Person.ToString | Prototype/Program.cs:40-43 | The person text of the current names and address. |
| Prototype.CopyAndChange | Prototype/Program.cs:151-152 | The copy-constructor variant: after copying, renaming the copy also renames the original, through the shared array. Changing the copy's house number leaves the original's unchanged. |
| Prototype.DeepCopy | Prototype/Program.cs:127-136 | `DeepCopyXml` on a person: a new person, a new names array with the same names, and a new address with the same fields. |
| Prototype.DeepCopyAndChange | Prototype/Program.cs:155-157 | After a deep copy, renaming the copy and changing its house number leave the original's text unchanged. |
| Prototype.Example | Prototype/Program.cs:143-160 | John is still "John Smith" at 123 London Road, and Jane is "Jane Smith" at 321 London Road. |

## Left out

- Console output, `Console.ReadLine`, and every `Main` beyond what the demo members state are not modelled. In the adapter constructor, the progress line only increments the counter. `DrawPoint` is modelled as receiving the points in order.
- The Factories, Bridge, Composite and Interface Segregation examples are outside this model.
- Prototype: the .NET binary and XML serialisers behind `DeepCopy` and `DeepCopyXml` are not part of this model. `Prototype.DeepCopy` models their effect on a person: a structural copy that shares no object with the original. Serialisation failures and the `[Serializable]` requirement are not modelled. The parameterless `Person()` that the XML serialiser needs is left out, because it leaves `Names` and `Address` null and Dafny's reference types here are non-null.
- Singleton: reading `capitals.txt` is file I/O, as are MoreLinq's `Batch` and `int.Parse`. The file's contents are a parameter, the `file` map. The thread safety of `Lazy<T>` is not modelled, only single-threaded once-initialisation. The Autofac test and `OrdinaryDatabase` are left out, as are console output and loading.
- Journal: `Persistence.SaveToFile` and `Process.Start` are file and process I/O. `Environment.NewLine` is fixed to "\n".
- Builder: `Environment.NewLine`, which `StringBuilder.AppendLine` writes at the end of every rendered line, is fixed to "\n". On Windows it is "\r\n". `Html.DemoText` and the rendering lemmas assume "\n". The `StringBuilder` lines of the HTML demo's `Main` and the parameterless `HtmlElement()` are not modelled. `Person.ToString` in Builder/Builder.cs is also left out.
- Null strings: C# null strings (an element's text, a person's fields, the CEO's name, a street name) are modelled as the empty string. Interpolation prints both the same way, and `IsNullOrEmpty` treats them alike.
- Journal.Journal.AddEntry: the static counter is an unbounded `nat`. The wrap-around after 2^31 - 1 entries is not modelled. The same holds for `Singleton.SingletonStatics.instanceCount` and `Adapter.PointCache.count`.
- Genealogy: `Person` is a value (a name and a date of birth as a number), not a reference. The query's result is compared by value rather than by object identity, and `DateTime` is not modelled beyond that number.
- Adapter.VectorRectangle: states four axis-aligned lines. Their exact corners are stated separately, by `Adapter.RectangleCorners`.
- OpenClose.Filter: the function's own contract states soundness only. The exact-subsequence property is `OpenClose.FilterSelectsExactly`.
- Adapter: the cache's enumeration order is insertion order, which is what a .NET `Dictionary` without removals gives.
- Adapter: `Equals(object)` is modelled only on two non-null objects of the same class. Its null check and `GetType` check, and the hash 0 that `Line.GetHashCode` uses for a null end point, are left out, because points and lines here are non-null values.
- Adapter: the as-written loops never exit normally. In .NET, `List.Add` would eventually throw `OutOfMemoryException`; that exception is not modelled.
- Deferred enumeration: `FindAllChildren`, the `yield return` filters and `SelectMany` are lazy in C#, so they run when enumerated, not when called. The model computes their results eagerly. Nothing in these programs changes the underlying data between call and enumeration.
- Singleton.SingletonStatics.Count: `Count <= 1` rests on `Valid()`, which holds because the database's constructor is private. In C#, only `Instance` can call it. The model does not enforce that privacy: a caller that constructed `SingletonDatabase` directly would break `Valid()`.

## Findings

| source | as written | input that shows it | evidently intended | confidence | as-written member | corrected member |
|---|---|---|---|---|---|---|
| Adapter/Program.cs:129 | The vertical loop counts an `int` y up to and including the bottom end with `y++`. When the bottom is int.MaxValue, `y <= bottom` always holds, and `y++` wraps to int.MinValue, so the loop never exits normally. | A line from (0, int.MaxValue) to itself, or any vertical line ending at y = int.MaxValue | The points from top to bottom, here the single point (0, int.MaxValue). Below int.MaxValue the loop as written already yields them (`Adapter.AsWrittenVerticalBelowMax`). | not executed | Adapter.AsWrittenDegenerateAtMax | Adapter.GeneratePoints |
| Adapter/Program.cs:136 | The horizontal loop has the same flaw for x: when the right end is int.MaxValue, `x <= right` always holds and `x++` wraps, so the loop never exits normally. | The line from (int.MaxValue - 1, 0) to (int.MaxValue, 0) | Its two end points. Below int.MaxValue the loop as written already yields the row (`Adapter.AsWrittenHorizontalBelowMax`). | not executed | Adapter.AsWrittenHorizontalAtMax | Adapter.GeneratePoints |
