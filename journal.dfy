/** The single-responsibility example: a journal that keeps a list of numbered entries. The
    entry counter is static in the source, so every journal draws its numbers from it. */
module Journal {
  import opened Text

  /** The static `count` of `Journal`, as one object that every journal shares. */
  class EntryCounter {
    var count: nat

    constructor ()
      ensures count == 0
    {
      count := 0;
    }
  }

  /** The text of entry number `n`: `"{n}: {text}"`. */
  function Entry(n: nat, text: string): string {
    NatToString(n) + ": " + text
  }

  /** An entry can be read back: the digits before its first colon give its number, and
      what follows the colon and the space is the text. */
  lemma EntryRoundTrip(n: nat, text: string)
    ensures var e, k := Entry(n, text), IndexOf(Entry(n, text), ':');
      0 <= k && k + 2 <= |e| && AllDigits(e[..k]) && DigitsValue(e[..k]) == n && e[k + 2..] == text
  {
    var digits := NatToString(n);
    var e := Entry(n, text);
    assert e == digits + [':'] + (" " + text);
    assert ':' !in digits by {
      forall i | 0 <= i < |digits| ensures digits[i] != ':' {
        assert IsDigit(digits[i]);
      }
    }
    IndexOfAfterPrefix(digits, ':', " " + text);
    assert e[..|digits|] == digits;
    assert e[|digits| + 2..] == text;
    NatToStringRoundTrip(n);
  }

  /** Entries of different numbers differ, whatever their texts. */
  lemma EntryNumbersDistinguish(m: nat, s: string, n: nat, t: string)
    requires Entry(m, s) == Entry(n, t)
    ensures m == n && s == t
  {
    EntryRoundTrip(m, s);
    EntryRoundTrip(n, t);
  }

  /** `entries.RemoveAt(i)`: the list without position `i`, the others in order. */
  function RemoveAt(s: seq<string>, i: nat): (r: seq<string>)
    requires i < |s|
    ensures |r| == |s| - 1
    ensures forall j :: 0 <= j < i ==> r[j] == s[j]
    ensures forall j :: i <= j < |r| ==> r[j] == s[j + 1]
  {
    s[..i] + s[i + 1..]
  }

  class Journal {
    var entries: seq<string>
    const counter: EntryCounter

    /** A new journal has no entries and uses the shared counter. */
    constructor (counter: EntryCounter)
      ensures entries == [] && this.counter == counter
    {
      entries := [];
      this.counter := counter;
    }

    /** `AddEntry`: increments the shared counter, appends `"{count}: {text}"` and returns the
        new count, the entry's number. */
    method AddEntry(text: string) returns (id: nat)
      modifies this, counter
      ensures counter.count == old(counter.count) + 1 && id == counter.count
      ensures entries == old(entries) + [Entry(id, text)]
    {
      counter.count := counter.count + 1;
      entries := entries + [Entry(counter.count, text)];
      id := counter.count;
    }

    /** `RemoveEntry(index)`: removes the entry at list position `index` (not the entry whose
        number is `index`). Outside the list the source throws, and the list is unchanged;
        `ok` tells the two apart. */
    method RemoveEntry(index: int) returns (ok: bool)
      modifies this
      ensures ok == (0 <= index < |old(entries)|)
      ensures entries == if ok then RemoveAt(old(entries), index) else old(entries)
    {
      ok := 0 <= index < |entries|;
      if ok {
        entries := RemoveAt(entries, index);
      }
    }

    /** `ToString`: the entries joined by the newline; splitting it at line breaks gives the
        entries back when no entry contains one. */
    function ToString(): (s: string)
      reads this
      ensures entries != [] && (forall i :: 0 <= i < |entries| ==> '\n' !in entries[i]) ==>
                Split(s, '\n') == entries
    {
      if entries != [] && (forall i :: 0 <= i < |entries| ==> '\n' !in entries[i]) then
        SplitJoin(entries, '\n');
        Join(entries, "\n")
      else
        Join(entries, "\n")
    }
  }

  /** Two journals share the counter: entries are numbered across journals, in call order,
      and each entry lands in the journal it was added to. */
  method TwoJournals(counter: EntryCounter) returns (first: nat, second: nat, third: nat)
    modifies counter
    ensures first == old(counter.count) + 1 && second == first + 1 && third == second + 1
  {
    var a := new Journal(counter);
    var b := new Journal(counter);
    first := a.AddEntry("I ate jamon");
    second := b.AddEntry("I strumbled upon a stone");
    third := a.AddEntry("I went home");
    assert a.entries == [Entry(first, "I ate jamon"), Entry(third, "I went home")];
    assert b.entries == [Entry(second, "I strumbled upon a stone")];
  }

  /** Removing index 0 after two additions leaves the second entry, still numbered 2: removal
      is by position, and the counter does not go back. */
  method RemoveByPosition() returns (remaining: seq<string>, next: nat)
    ensures remaining == [Entry(2, "I strumbled upon a stone")]
    ensures next == 3
  {
    var counter := new EntryCounter();
    var journal := new Journal(counter);
    var _ := journal.AddEntry("I ate jamon");
    var _ := journal.AddEntry("I strumbled upon a stone");
    var ok := journal.RemoveEntry(0);
    remaining := journal.entries;
    next := journal.AddEntry("I went home");
  }
}
