/**
  The audience display of app/resultado/page.tsx: it keeps the latest
  pushed history of calls (strings such as "B7") and shows them in five
  columns, one per letter of B I N G O, each in draw order, with the
  letter stripped from every cell and a count under the heading.
 */
module Display {
  import opened Wrappers
  import Labels

  /** The column letters, in display order. */
  const Letters: seq<char> := ['B', 'I', 'N', 'G', 'O']

  predicate IsLetter(c: char) {
    c in Letters
  }

  /** The first character of `call` is `letter` (an empty call has none). */
  predicate StartsWith(call: string, letter: char) {
    |call| > 0 && call[0] == letter
  }

  /** A call that belongs to some column. */
  predicate HasColumn(call: string) {
    |call| > 0 && IsLetter(call[0])
  }

  /** The calls that start with `letter`, in input order. */
  function Bucket(numbers: seq<string>, letter: char): (r: seq<string>)
    ensures |r| <= |numbers|
    ensures forall i :: 0 <= i < |r| ==> StartsWith(r[i], letter)
  {
    if numbers == [] then []
    else
      var last := numbers[|numbers| - 1];
      Bucket(numbers[..|numbers| - 1], letter) + (if StartsWith(last, letter) then [last] else [])
  }

  /** The calls that belong to some column, in input order. */
  function Columned(numbers: seq<string>): (r: seq<string>)
    ensures |r| <= |numbers|
  {
    if numbers == [] then []
    else
      var last := numbers[|numbers| - 1];
      Columned(numbers[..|numbers| - 1]) + (if HasColumn(last) then [last] else [])
  }

  /** `groupByLetter`: start from the five empty columns and push every call
      onto the column of its first character, skipping calls whose first
      character (or absence of one) names no column. */
  method GroupByLetter(numbers: seq<string>) returns (grouped: map<char, seq<string>>)
    ensures grouped.Keys == {'B', 'I', 'N', 'G', 'O'}
    ensures forall letter :: letter in grouped ==> grouped[letter] == Bucket(numbers, letter)
  {
    grouped := map['B' := [], 'I' := [], 'N' := [], 'G' := [], 'O' := []];
    var i := 0;
    while i < |numbers|
      invariant 0 <= i <= |numbers|
      invariant grouped.Keys == {'B', 'I', 'N', 'G', 'O'}
      invariant forall letter :: letter in grouped ==> grouped[letter] == Bucket(numbers[..i], letter)
    {
      var num := numbers[i];
      ghost var before := grouped;
      if |num| > 0 && num[0] in grouped {
        grouped := grouped[num[0] := grouped[num[0]] + [num]];
      }
      forall letter | letter in grouped
        ensures grouped[letter] == Bucket(numbers[..i + 1], letter)
      {
        BucketStep(numbers, i, letter);
        assert grouped[letter] == before[letter] + (if StartsWith(num, letter) then [num] else []);
      }
      i := i + 1;
    }
    assert numbers[..|numbers|] == numbers;
  }

  /** One more call extends the column of its letter, and only that one. */
  lemma BucketStep(numbers: seq<string>, i: nat, letter: char)
    requires i < |numbers|
    ensures Bucket(numbers[..i + 1], letter) ==
            Bucket(numbers[..i], letter) + (if StartsWith(numbers[i], letter) then [numbers[i]] else [])
  {
    assert numbers[..i + 1][..i] == numbers[..i];
  }

  /** A call appears in the column of its own letter exactly as often as in
      the input, and in no other column. */
  lemma {:induction false} BucketCount(numbers: seq<string>, letter: char, call: string)
    ensures multiset(Bucket(numbers, letter))[call] ==
            if StartsWith(call, letter) then multiset(numbers)[call] else 0
  {
    if numbers != [] {
      var init := numbers[..|numbers| - 1];
      var last := numbers[|numbers| - 1];
      assert numbers == init + [last];
      BucketCount(init, letter, call);
    }
  }

  /** A call that is empty or starts with a character outside B I N G O is
      in no column. */
  lemma Dropped(numbers: seq<string>, call: string)
    requires !HasColumn(call)
    ensures forall k :: 0 <= k < |Letters| ==> call !in Bucket(numbers, Letters[k])
  {
  }

  /** The five columns together hold exactly the calls that have a column,
      so never more calls than the input. */
  lemma {:induction false} ColumnSizes(numbers: seq<string>)
    ensures |Bucket(numbers, 'B')| + |Bucket(numbers, 'I')| + |Bucket(numbers, 'N')|
            + |Bucket(numbers, 'G')| + |Bucket(numbers, 'O')| == |Columned(numbers)|
    ensures |Columned(numbers)| <= |numbers|
  {
    if numbers != [] {
      ColumnSizes(numbers[..|numbers| - 1]);
    }
  }

  /** Grouping a longer history keeps each column's earlier calls in place,
      in order, and adds the new ones after them. */
  lemma {:induction false} BucketOfConcat(a: seq<string>, b: seq<string>, letter: char)
    ensures Bucket(a + b, letter) == Bucket(a, letter) + Bucket(b, letter)
  {
    if b == [] {
      assert a + b == a;
    } else {
      var init := b[..|b| - 1];
      assert (a + b)[..|a + b| - 1] == a + init;
      assert (a + b)[|a + b| - 1] == b[|b| - 1];
      BucketOfConcat(a, init, letter);
    }
  }

  /** `num.substring(1)`: the call without its letter (empty for an empty call). */
  function NumberOnly(call: string): (r: string)
    ensures |call| > 0 ==> [call[0]] + r == call
    ensures call == [] ==> r == []
  {
    if |call| > 0 then call[1..] else []
  }

  /** Every cell of a column is its call with the column letter removed. */
  lemma CellRestoresCall(numbers: seq<string>, letter: char, i: nat)
    requires i < |Bucket(numbers, letter)|
    ensures [letter] + NumberOnly(Bucket(numbers, letter)[i]) == Bucket(numbers, letter)[i]
  {
  }

  /** The cells of a column, in the column's order. */
  function Cells(column: seq<string>): (r: seq<string>)
    ensures |r| == |column|
    ensures forall i :: 0 <= i < |column| ==> r[i] == NumberOnly(column[i])
  {
    seq(|column|, i requires 0 <= i < |column| => NumberOnly(column[i]))
  }

  /** A pushed snapshot of the shared document; `numbers` may be missing. */
  datatype Snapshot = Snapshot(numbers: Option<seq<string>>)

  /** `data.numbers || []`. */
  function PushedNumbers(data: Snapshot): (r: seq<string>)
    ensures data.numbers.None? ==> r == []
    ensures data.numbers.Some? ==> r == data.numbers.value
  {
    data.numbers.GetOr([])
  }

  /** One rendered column: its letter, the count word and the cells. */
  datatype Column = Column(letter: char, count: nat, countWord: string, cells: seq<string>)

  /** The column for `letter` of a grouping, `grouped[letter] || []`. */
  function ColumnOf(grouped: map<char, seq<string>>, letter: char): (r: Column)
    ensures r.letter == letter && r.count == |r.cells|
    ensures r.countWord == Labels.CountWord(r.count)
    ensures letter !in grouped ==> r.cells == []
    ensures letter in grouped ==> r.cells == Cells(grouped[letter])
  {
    var letterNumbers := if letter in grouped then grouped[letter] else [];
    Column(letter, |letterNumbers|, Labels.CountWord(|letterNumbers|), Cells(letterNumbers))
  }

  class AudienceView {
    /** The last pushed history, oldest first. */
    var drawn: seq<string>

    constructor ()
      ensures drawn == []
    {
      drawn := [];
    }

    /** The subscription callback: replace the whole history with the pushed one. */
    method OnSnapshot(data: Snapshot)
      modifies this
      ensures drawn == PushedNumbers(data)
    {
      drawn := PushedNumbers(data);
    }

    /** One render: group the history, then lay out the five columns in the
        order B I N G O (`groupedNumbers[letter] || []` for each). */
    method Render() returns (columns: seq<Column>)
      ensures |columns| == 5
      ensures forall k :: 0 <= k < 5 ==>
        var bucket := Bucket(drawn, Letters[k]);
        && columns[k].letter == Letters[k]
        && columns[k].count == |bucket|
        && columns[k].countWord == Labels.CountWord(|bucket|)
        && columns[k].cells == Cells(bucket)
    {
      var grouped := GroupByLetter(drawn);
      columns := seq(5, k requires 0 <= k < 5 => ColumnOf(grouped, Letters[k]));
    }
  }
}
