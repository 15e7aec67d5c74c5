/** The name filter of the two search pages, `name ILIKE '%term%'`: the
    term occurs somewhere in the name, ignoring the case of ASCII letters. */
module Search {

  function LowerChar(c: char): (r: char)
    ensures 'A' <= c <= 'Z' ==> r as int == c as int + 32
    ensures !('A' <= c <= 'Z') ==> r == c
  {
    if 'A' <= c <= 'Z' then (c as int + 32) as char else c
  }

  /** The string with its ASCII capitals replaced by small letters. */
  function Lower(s: string): (r: string)
    ensures |r| == |s|
    ensures forall i :: 0 <= i < |s| ==> r[i] == LowerChar(s[i])
  {
    if s == [] then [] else [LowerChar(s[0])] + Lower(s[1..])
  }

  /** Whether `t` occurs in `s` as a contiguous piece, tried from the left. */
  function Contains(s: string, t: string): bool
    decreases |s|
  {
    if |t| > |s| then false
    else if s[..|t|] == t then true
    else Contains(s[1..], t)
  }

  /** The reference meaning of `Contains`: some position of `s` starts a
      copy of `t`. */
  ghost predicate OccursAt(s: string, t: string, i: int)
  {
    0 <= i && i + |t| <= |s| && s[i..i + |t|] == t
  }

  lemma {:induction false} ContainsMeansOccurs(s: string, t: string)
    ensures Contains(s, t) <==> exists i :: OccursAt(s, t, i)
    decreases |s|
  {
    if |t| > |s| {
      assert forall i :: !OccursAt(s, t, i);
    } else if s[..|t|] == t {
      assert OccursAt(s, t, 0);
    } else {
      ContainsMeansOccurs(s[1..], t);
      forall i | OccursAt(s, t, i)
        ensures OccursAt(s[1..], t, i - 1)
      {
        assert i != 0;
        assert s[1..][i - 1..i - 1 + |t|] == s[i..i + |t|];
      }
      forall i | OccursAt(s[1..], t, i)
        ensures OccursAt(s, t, i + 1)
      {
        assert s[1..][i..i + |t|] == s[i + 1..i + 1 + |t|];
      }
    }
  }

  /** `name ILIKE '%term%'`. */
  predicate Matches(name: string, term: string)
  {
    Contains(Lower(name), Lower(term))
  }

  /** The empty term (the form's default) matches every name. */
  lemma EmptyTermMatchesAll(name: string)
    ensures Matches(name, "")
  {
  }

  /** The match does not depend on the case in which the term is typed. */
  lemma MatchIgnoresTermCase(name: string, term: string, other: string)
    requires Lower(term) == Lower(other)
    ensures Matches(name, term) <==> Matches(name, other)
  {
  }

  /** Searching "art" finds "Smart Bar" ... */
  lemma MatchInsideName()
    ensures Matches("Smart Bar", "art")
  {
    assert "art bar"[..3] == "art";
    assert Contains("art bar", "art");
    assert "mart bar"[1..] == "art bar";
    assert Contains("mart bar", "art");
    assert "smart bar"[1..] == "mart bar";
    assert Contains("smart bar", "art");
    assert Lower("art") == "art";
    assert Lower("Smart Bar") == "smart bar";
  }

  /** ... and "ARTDECO", whatever the case of its letters ... */
  lemma MatchOtherCase()
    ensures Matches("ARTDECO", "art")
  {
    assert Lower("art") == "art";
    assert Lower("ARTDECO") == "artdeco";
    assert "artdeco"[..3] == "art";
  }

  /** ... but not "Cafe". */
  lemma NoMatchWithoutTerm()
    ensures !Matches("Cafe", "art")
  {
    assert Lower("art") == "art";
    assert Lower("Cafe") == "cafe";
    assert !Contains("fe", "art");
    assert "cafe"[1..] == "afe" && "afe"[1..] == "fe";
    assert !Contains("afe", "art");
  }
}
