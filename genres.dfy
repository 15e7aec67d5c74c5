/** The genres column: the submitted list is stored as one string joined
    with commas (Python's `','.join`) and shown again as that string split
    at every comma (Python's `str.split(",")`). */
module Genres {

  /** `','.join(items)`: the items with one comma between neighbours. */
  function Join(items: seq<string>): (r: string)
    ensures items == [] ==> r == ""
    ensures |items| == 1 ==> r == items[0]
  {
    if items == [] then ""
    else if |items| == 1 then items[0]
    else items[0] + "," + Join(items[1..])
  }

  /** `s.split(",")`: the pieces between commas, so never an empty list
      (the empty string splits into one empty piece). */
  function Split(s: string): (r: seq<string>)
    ensures |r| >= 1
    ensures forall i :: 0 <= i < |r| ==> ',' !in r[i]
  {
    if s == [] then [""]
    else
      var rest := Split(s[1..]);
      if s[0] == ',' then [""] + rest
      else [[s[0]] + rest[0]] + rest[1..]
  }

  predicate NoCommas(items: seq<string>)
  {
    forall i :: 0 <= i < |items| ==> ',' !in items[i]
  }

  /** A piece without commas splits into itself. */
  lemma {:induction false} SplitPlain(a: string)
    requires ',' !in a
    ensures Split(a) == [a]
  {
    if a != [] {
      SplitPlain(a[1..]);
      assert [a[0]] + a[1..] == a;
    }
  }

  /** Splitting `a + "," + b` for a comma-free `a` yields `a` and then the
      pieces of `b`. */
  lemma {:induction false} SplitAfterPiece(a: string, b: string)
    requires ',' !in a
    ensures Split(a + "," + b) == [a] + Split(b)
  {
    if a == [] {
      assert a + "," + b == [','] + b;
      assert (a + "," + b)[1..] == b;
    } else {
      SplitAfterPiece(a[1..], b);
      assert (a + "," + b)[1..] == a[1..] + "," + b;
      assert [a[0]] + a[1..] == a;
    }
  }

  /** Displaying stored genres gives back the submitted list whenever it is
      not empty and no genre contains a comma. */
  lemma {:induction false} SplitJoin(items: seq<string>)
    requires items != []
    requires NoCommas(items)
    ensures Split(Join(items)) == items
  {
    if |items| == 1 {
      SplitPlain(items[0]);
    } else {
      SplitJoin(items[1..]);
      SplitAfterPiece(items[0], Join(items[1..]));
      assert [items[0]] + items[1..] == items;
    }
  }

  /** Joining the pieces of any string rebuilds it. */
  lemma {:induction false} JoinSplit(s: string)
    ensures Join(Split(s)) == s
  {
    if s != [] {
      var rest := Split(s[1..]);
      JoinSplit(s[1..]);
      if s[0] == ',' {
        assert ([""] + rest)[1..] == rest;
        assert [s[0]] + s[1..] == s;
      } else {
        var first := [s[0]] + rest[0];
        if |rest| == 1 {
          assert Join(rest) == rest[0];
          assert [s[0]] + s[1..] == s;
        } else {
          assert ([first] + rest[1..])[1..] == rest[1..];
          assert Join(rest) == rest[0] + "," + Join(rest[1..]);
          assert [s[0]] + s[1..] == s;
        }
      }
    }
  }

  /** A form with no genre selected stores the empty string, which is shown
      as one empty genre rather than none. */
  lemma NoGenresShowOneBlank()
    ensures Join([]) == ""
    ensures Split(Join([])) == [""]
  {
  }

  /** A genre containing a comma does not survive the round trip: it comes
      back as two genres. */
  lemma CommaInGenreSplits()
    ensures Split(Join(["Rock,Pop"])) == ["Rock", "Pop"]
  {
    SplitAfterPiece("Rock", "Pop");
    assert "Rock,Pop" == "Rock" + "," + "Pop";
    SplitPlain("Pop");
  }
}
