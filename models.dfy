/** The record classes of the booking directory: Venue, Artist and Show.
    Each object keeps its attributes in a dictionary `attrs`, the way a
    Python object does: `update` assigns every submitted key to it
    (`setattr`), and the past/upcoming split annotates show objects with
    attributes that are not database columns. */
module Models {

  /** An attribute value: None, a submitted string, a coerced boolean, an
      integer (ids, timestamps standing in for DateTime, counts), or a list
      of strings (the genres once the detail page has split them). */
  datatype Value = Null | Text(s: string) | Flag(b: bool) | Num(n: int) | Texts(items: seq<string>)

  /** The attributes of one object, by name. */
  type Attrs = map<string, Value>

  /** Reading an attribute: a column that was never assigned reads as None. */
  function Get(attrs: Attrs, key: string): Value
  {
    if key in attrs then attrs[key] else Null
  }

  /** The one coercion rule of Venue.update and Artist.update: the key
      `seeking_talent` holds true exactly when the submitted value is "y". */
  function Coerced(key: string, value: Value): Value
  {
    if key == "seeking_talent" then Flag(value == Text("y")) else value
  }

  /** Every value Venue.update and Artist.update assign, by key. */
  function CoercedAll(data: Attrs): (r: Attrs)
    ensures r.Keys == data.Keys
    ensures forall k :: k in data && k != "seeking_talent" ==> r[k] == data[k]
    ensures "seeking_talent" in data ==> r["seeking_talent"] == Flag(data["seeking_talent"] == Text("y"))
  {
    map k | k in data :: Coerced(k, data[k])
  }

  /** The attributes a Venue's show carries once the partition has
      annotated it with its artist's name and image link. */
  function WithArtist(show: Attrs, artist: Attrs): Attrs
  {
    show["artist_name" := Get(artist, "name")]["artist_image_link" := Get(artist, "image_link")]
  }

  /** The attributes an Artist's show carries once the partition has
      annotated it with its venue's name and image link. */
  function WithVenue(show: Attrs, venue: Attrs): Attrs
  {
    show["venue_name" := Get(venue, "name")]["venue_image_link" := Get(venue, "image_link")]
  }

  /** The instant stored under `start_time`; a row or object without one
      reads as 0, a case the partition excludes by precondition. */
  function TimeOf(attrs: Attrs): int
  {
    if "start_time" in attrs && attrs["start_time"].Num? then attrs["start_time"].n else 0
  }

  /** A show whose start time is set (Python cannot compare None with the
      reference instant). */
  predicate Timed(s: Show)
    reads s
  {
    "start_time" in s.attrs && s.attrs["start_time"].Num?
  }

  function StartOf(s: Show): int
    reads s
  {
    TimeOf(s.attrs)
  }

  predicate AllTimed(shows: seq<Show>)
    reads shows
  {
    forall i :: 0 <= i < |shows| ==> Timed(shows[i])
  }

  /** The start times of the shows, in order. */
  function Times(shows: seq<Show>): (r: seq<int>)
    reads shows
    ensures |r| == |shows|
    ensures forall j :: 0 <= j < |shows| ==> r[j] == StartOf(shows[j])
  {
    if shows == [] then [] else Times(shows[..|shows| - 1]) + [StartOf(shows[|shows| - 1])]
  }

  /** How many of the instants are at or before `date`. */
  function CountAtMost(times: seq<int>, date: int): nat
  {
    if times == [] then 0
    else CountAtMost(times[..|times| - 1], date) + (if times[|times| - 1] <= date then 1 else 0)
  }

  /** How many of the instants are after `date`. */
  function CountAfter(times: seq<int>, date: int): nat
  {
    if times == [] then 0
    else CountAfter(times[..|times| - 1], date) + (if times[|times| - 1] > date then 1 else 0)
  }

  /** Every instant is counted on exactly one side of `date`. */
  lemma {:induction false} CountSplit(times: seq<int>, date: int)
    ensures CountAtMost(times, date) + CountAfter(times, date) == |times|
  {
    if times != [] {
      CountSplit(times[..|times| - 1], date);
    }
  }

  /** The shows that start at or before `date`, in relationship order. */
  function PastOf(shows: seq<Show>, date: int): seq<Show>
    reads shows
  {
    if shows == [] then []
    else
      var last := shows[|shows| - 1];
      PastOf(shows[..|shows| - 1], date) + (if StartOf(last) <= date then [last] else [])
  }

  /** The shows that start after `date`, in relationship order. */
  function UpcomingOf(shows: seq<Show>, date: int): seq<Show>
    reads shows
  {
    if shows == [] then []
    else
      var last := shows[|shows| - 1];
      UpcomingOf(shows[..|shows| - 1], date) + (if StartOf(last) > date then [last] else [])
  }

  /** The past shows are exactly those starting at or before `date`. */
  lemma {:induction false} PastMembers(shows: seq<Show>, date: int)
    ensures forall s :: s in PastOf(shows, date) <==> s in shows && StartOf(s) <= date
  {
    if shows != [] {
      var init := shows[..|shows| - 1];
      PastMembers(init, date);
      assert shows == init + [shows[|shows| - 1]];
    }
  }

  /** The upcoming shows are exactly those starting after `date`. */
  lemma {:induction false} UpcomingMembers(shows: seq<Show>, date: int)
    ensures forall s :: s in UpcomingOf(shows, date) <==> s in shows && StartOf(s) > date
  {
    if shows != [] {
      var init := shows[..|shows| - 1];
      UpcomingMembers(init, date);
      assert shows == init + [shows[|shows| - 1]];
    }
  }

  /** Past and upcoming together are a permutation of the shows, so their
      lengths sum to the number of shows. */
  lemma {:induction false} PartitionCovers(shows: seq<Show>, date: int)
    ensures multiset(PastOf(shows, date)) + multiset(UpcomingOf(shows, date)) == multiset(shows)
    ensures |PastOf(shows, date)| + |UpcomingOf(shows, date)| == |shows|
  {
    if shows != [] {
      var init := shows[..|shows| - 1];
      var last := shows[|shows| - 1];
      PartitionCovers(init, date);
      assert shows == init + [last];
      if StartOf(last) <= date {
        assert PastOf(shows, date) == PastOf(init, date) + [last];
        assert UpcomingOf(shows, date) == UpcomingOf(init, date);
      } else {
        assert PastOf(shows, date) == PastOf(init, date);
        assert UpcomingOf(shows, date) == UpcomingOf(init, date) + [last];
      }
    }
  }

  /** The number of past shows is the number of start times at or before `date`. */
  lemma {:induction false} PastCount(shows: seq<Show>, date: int)
    ensures |PastOf(shows, date)| == CountAtMost(Times(shows), date)
  {
    if shows != [] {
      var init := shows[..|shows| - 1];
      PastCount(init, date);
      assert Times(shows)[..|shows| - 1] == Times(init);
    }
  }

  /** The number of upcoming shows is the number of start times after `date`. */
  lemma {:induction false} UpcomingCount(shows: seq<Show>, date: int)
    ensures |UpcomingOf(shows, date)| == CountAfter(Times(shows), date)
  {
    if shows != [] {
      var init := shows[..|shows| - 1];
      UpcomingCount(init, date);
      assert Times(shows)[..|shows| - 1] == Times(init);
    }
  }

  /** The annotations never touch the start time. */
  lemma AnnotationKeepsTime(show: Attrs, other: Attrs)
    ensures Get(WithArtist(show, other), "start_time") == Get(show, "start_time")
    ensures Get(WithVenue(show, other), "start_time") == Get(show, "start_time")
    ensures TimeOf(WithArtist(show, other)) == TimeOf(show)
    ensures TimeOf(WithVenue(show, other)) == TimeOf(show)
  {
  }

  /** The shows whose start time in `times` is at or before `date`, in
      order: the past shows, with the start times read once. */
  function PastAmong(shows: seq<Show>, times: seq<int>, date: int): (r: seq<Show>)
    requires |times| == |shows|
    ensures |r| == CountAtMost(times, date)
  {
    if shows == [] then []
    else
      var n := |shows| - 1;
      PastAmong(shows[..n], times[..n], date) + (if times[n] <= date then [shows[n]] else [])
  }

  /** The shows whose start time in `times` is after `date`, in order. */
  function UpcomingAmong(shows: seq<Show>, times: seq<int>, date: int): (r: seq<Show>)
    requires |times| == |shows|
    ensures |r| == CountAfter(times, date)
  {
    if shows == [] then []
    else
      var n := |shows| - 1;
      UpcomingAmong(shows[..n], times[..n], date) + (if times[n] > date then [shows[n]] else [])
  }

  /** The split over the start times the shows have now is the split by
      those times, which no later change of other attributes can move. */
  lemma {:induction false} SplitByTimes(shows: seq<Show>, date: int)
    ensures PastOf(shows, date) == PastAmong(shows, Times(shows), date)
    ensures UpcomingOf(shows, date) == UpcomingAmong(shows, Times(shows), date)
  {
    if shows != [] {
      var n := |shows| - 1;
      SplitByTimes(shows[..n], date);
      assert Times(shows)[..n] == Times(shows[..n]);
    }
  }

  /** A show is among the past ones exactly when some position holding it
      has a start time at or before `date`. */
  lemma {:induction false} PastAmongMembers(shows: seq<Show>, times: seq<int>, date: int)
    requires |times| == |shows|
    ensures forall s :: s in PastAmong(shows, times, date) ==>
              exists k :: 0 <= k < |shows| && shows[k] == s && times[k] <= date
    ensures forall k :: 0 <= k < |shows| && times[k] <= date ==> shows[k] in PastAmong(shows, times, date)
  {
    if shows != [] {
      var n := |shows| - 1;
      var init := PastAmong(shows[..n], times[..n], date);
      PastAmongMembers(shows[..n], times[..n], date);
      assert PastAmong(shows, times, date) == init + (if times[n] <= date then [shows[n]] else []);
      forall s | s in init
        ensures exists k :: 0 <= k < |shows| && shows[k] == s && times[k] <= date
      {
        var k :| 0 <= k < |shows[..n]| && shows[..n][k] == s && times[..n][k] <= date;
        assert shows[k] == s && times[k] <= date;
      }
      forall k | 0 <= k < n && times[k] <= date
        ensures shows[k] in init
      {
        assert shows[..n][k] == shows[k] && times[..n][k] == times[k];
      }
    }
  }

  /** A show is among the upcoming ones exactly when some position holding
      it has a start time after `date`. */
  lemma {:induction false} UpcomingAmongMembers(shows: seq<Show>, times: seq<int>, date: int)
    requires |times| == |shows|
    ensures forall s :: s in UpcomingAmong(shows, times, date) ==>
              exists k :: 0 <= k < |shows| && shows[k] == s && times[k] > date
    ensures forall k :: 0 <= k < |shows| && times[k] > date ==> shows[k] in UpcomingAmong(shows, times, date)
  {
    if shows != [] {
      var n := |shows| - 1;
      var init := UpcomingAmong(shows[..n], times[..n], date);
      UpcomingAmongMembers(shows[..n], times[..n], date);
      assert UpcomingAmong(shows, times, date) == init + (if times[n] > date then [shows[n]] else []);
      forall s | s in init
        ensures exists k :: 0 <= k < |shows| && shows[k] == s && times[k] > date
      {
        var k :| 0 <= k < |shows[..n]| && shows[..n][k] == s && times[..n][k] > date;
        assert shows[k] == s && times[k] > date;
      }
      forall k | 0 <= k < n && times[k] > date
        ensures shows[k] in init
      {
        assert shows[..n][k] == shows[k] && times[..n][k] == times[k];
      }
    }
  }

  /** The two lists together are a permutation of the shows. */
  lemma {:induction false} AmongCovers(shows: seq<Show>, times: seq<int>, date: int)
    requires |times| == |shows|
    ensures multiset(PastAmong(shows, times, date)) + multiset(UpcomingAmong(shows, times, date)) == multiset(shows)
  {
    if shows != [] {
      var n := |shows| - 1;
      var past := PastAmong(shows[..n], times[..n], date);
      var upcoming := UpcomingAmong(shows[..n], times[..n], date);
      AmongCovers(shows[..n], times[..n], date);
      assert shows == shows[..n] + [shows[n]];
      assert multiset(shows) == multiset(shows[..n]) + multiset{shows[n]};
      if times[n] <= date {
        assert PastAmong(shows, times, date) == past + [shows[n]];
        assert UpcomingAmong(shows, times, date) == upcoming;
      } else {
        assert PastAmong(shows, times, date) == past;
        assert UpcomingAmong(shows, times, date) == upcoming + [shows[n]];
      }
    }
  }

  /** No show is both past and upcoming, and one starting exactly at
      `date` is past. */
  lemma PartitionDisjoint(shows: seq<Show>, date: int)
    ensures forall s :: !(s in PastOf(shows, date) && s in UpcomingOf(shows, date))
    ensures forall s :: s in shows && StartOf(s) == date ==> s in PastOf(shows, date) && s !in UpcomingOf(shows, date)
  {
    PastMembers(shows, date);
    UpcomingMembers(shows, date);
  }

  class Show {
    var attrs: Attrs
    const venue: Venue?
    const artist: Artist?

    /** A show loaded from the database together with its venue and artist. */
    constructor Loaded(row: Attrs, venue: Venue?, artist: Artist?)
      ensures attrs == row && this.venue == venue && this.artist == artist
    {
      attrs := row;
      this.venue := venue;
      this.artist := artist;
    }

    /** Assigns every submitted value as it is and returns this same object. */
    method Update(data: Attrs) returns (r: Show)
      modifies this
      ensures r == this
      ensures attrs.Keys == old(attrs).Keys + data.Keys
      ensures forall k :: k in data ==> attrs[k] == data[k]
      ensures forall k :: k in old(attrs) && k !in data ==> attrs[k] == old(attrs)[k]
    {
      var pending := data.Keys;
      ghost var done: set<string> := {};
      while pending != {}
        invariant done + pending == data.Keys && done !! pending
        invariant attrs.Keys == old(attrs).Keys + done
        invariant forall k :: k in done ==> attrs[k] == data[k]
        invariant forall k :: k in old(attrs) && k !in done ==> attrs[k] == old(attrs)[k]
        decreases pending
      {
        var key :| key in pending;
        attrs := attrs[key := data[key]];
        pending := pending - {key};
        done := done + {key};
      }
      r := this;
    }
  }

  class Venue {
    var attrs: Attrs
    var shows: seq<Show>

    /** `Venue()`: no attribute set, no shows. */
    constructor ()
      ensures attrs == map[] && shows == []
    {
      attrs := map[];
      shows := [];
    }

    /** A venue loaded from the database; its shows are attached afterwards. */
    constructor Loaded(row: Attrs)
      ensures attrs == row && shows == []
    {
      attrs := row;
      shows := [];
    }

    /** Assigns every submitted value, `seeking_talent` coerced to a boolean,
        and returns this same object. */
    method Update(data: Attrs) returns (r: Venue)
      modifies this
      ensures r == this
      ensures attrs.Keys == old(attrs).Keys + data.Keys
      ensures "seeking_talent" in data ==> attrs["seeking_talent"] == Flag(data["seeking_talent"] == Text("y"))
      ensures forall k :: k in data && k != "seeking_talent" ==> attrs[k] == data[k]
      ensures forall k :: k in old(attrs) && k !in data ==> attrs[k] == old(attrs)[k]
      ensures attrs == old(attrs) + CoercedAll(data)
      ensures shows == old(shows)
    {
      var pending := data.Keys;
      ghost var done: set<string> := {};
      while pending != {}
        invariant done + pending == data.Keys && done !! pending
        invariant attrs.Keys == old(attrs).Keys + done
        invariant forall k :: k in done ==> attrs[k] == Coerced(k, data[k])
        invariant forall k :: k in old(attrs) && k !in done ==> attrs[k] == old(attrs)[k]
        invariant shows == old(shows)
        decreases pending
      {
        var key :| key in pending;
        var value := data[key];
        if key == "seeking_talent" {
          if value == Text("y") {
            value := Flag(true);
          } else {
            value := Flag(false);
          }
        }
        attrs := attrs[key := value];
        pending := pending - {key};
        done := done + {key};
      }
      assert attrs == old(attrs) + CoercedAll(data);
      r := this;
    }

    /** The shows that start at or before `date`, in relationship order, each
        annotated with its artist's name and image link. */
    method GetPastShows(date: int) returns (past: seq<Show>)
      requires AllTimed(shows)
      requires forall i :: 0 <= i < |shows| ==> shows[i].artist != null
      requires forall i, j :: 0 <= i < j < |shows| ==> shows[i] != shows[j]
      modifies shows
      ensures past == old(PastOf(shows, date))
      ensures shows == old(shows)
      ensures AllTimed(shows) && Times(shows) == old(Times(shows))
      ensures forall j :: 0 <= j < |shows| ==> shows[j].attrs == (if old(StartOf(shows[j])) <= date then old(WithArtist(shows[j].attrs, shows[j].artist.attrs)) else old(shows[j].attrs))
    {
      var shows := this.shows;
      past := [];
      var i := 0;
      while i < |shows|
        invariant 0 <= i <= |shows|
        invariant forall j :: 0 <= j < i ==> shows[j].attrs == (if old(StartOf(shows[j])) <= date then old(WithArtist(shows[j].attrs, shows[j].artist.attrs)) else old(shows[j].attrs))
        invariant forall j :: i <= j < |shows| ==> shows[j].attrs == old(shows[j].attrs)
        invariant past == old(PastOf(shows[..i], date))
      {
        var show := shows[i];
        assert shows[..i + 1][..i] == shows[..i];
        if StartOf(show) <= date {
          show.attrs := WithArtist(show.attrs, show.artist.attrs);
          past := past + [show];
        }
        i := i + 1;
      }
      assert shows[..i] == shows;
      forall j | 0 <= j < |shows|
        ensures Timed(shows[j]) && StartOf(shows[j]) == old(StartOf(shows[j]))
      {
        AnnotationKeepsTime(old(shows[j].attrs), shows[j].artist.attrs);
      }
    }

    /** The shows that start after `date`, in relationship order, each
        annotated with its artist's name and image link. */
    method GetUpcomingShows(date: int) returns (upcoming: seq<Show>)
      requires AllTimed(shows)
      requires forall i :: 0 <= i < |shows| ==> shows[i].artist != null
      requires forall i, j :: 0 <= i < j < |shows| ==> shows[i] != shows[j]
      modifies shows
      ensures upcoming == old(UpcomingOf(shows, date))
      ensures shows == old(shows)
      ensures AllTimed(shows) && Times(shows) == old(Times(shows))
      ensures forall j :: 0 <= j < |shows| ==> shows[j].attrs == (if old(StartOf(shows[j])) > date then old(WithArtist(shows[j].attrs, shows[j].artist.attrs)) else old(shows[j].attrs))
    {
      var shows := this.shows;
      upcoming := [];
      var i := 0;
      while i < |shows|
        invariant 0 <= i <= |shows|
        invariant forall j :: 0 <= j < i ==> shows[j].attrs == (if old(StartOf(shows[j])) > date then old(WithArtist(shows[j].attrs, shows[j].artist.attrs)) else old(shows[j].attrs))
        invariant forall j :: i <= j < |shows| ==> shows[j].attrs == old(shows[j].attrs)
        invariant upcoming == old(UpcomingOf(shows[..i], date))
      {
        var show := shows[i];
        assert shows[..i + 1][..i] == shows[..i];
        if StartOf(show) > date {
          show.attrs := WithArtist(show.attrs, show.artist.attrs);
          upcoming := upcoming + [show];
        }
        i := i + 1;
      }
      assert shows[..i] == shows;
      forall j | 0 <= j < |shows|
        ensures Timed(shows[j]) && StartOf(shows[j]) == old(StartOf(shows[j]))
      {
        AnnotationKeepsTime(old(shows[j].attrs), shows[j].artist.attrs);
      }
    }
  }

  class Artist {
    var attrs: Attrs
    var shows: seq<Show>

    /** An artist loaded from the database; its shows are attached afterwards. */
    constructor Loaded(row: Attrs)
      ensures attrs == row && shows == []
    {
      attrs := row;
      shows := [];
    }

    /** Assigns every submitted value and returns this same object. The
        coerced key is `seeking_talent`, as for a venue, although an
        artist's boolean column is `seeking_venue`: a submitted
        `seeking_venue` is kept as the raw string. */
    method Update(data: Attrs) returns (r: Artist)
      modifies this
      ensures r == this
      ensures attrs.Keys == old(attrs).Keys + data.Keys
      ensures "seeking_talent" in data ==> attrs["seeking_talent"] == Flag(data["seeking_talent"] == Text("y"))
      ensures forall k :: k in data && k != "seeking_talent" ==> attrs[k] == data[k]
      ensures forall k :: k in old(attrs) && k !in data ==> attrs[k] == old(attrs)[k]
      ensures attrs == old(attrs) + CoercedAll(data)
      ensures shows == old(shows)
    {
      var pending := data.Keys;
      ghost var done: set<string> := {};
      while pending != {}
        invariant done + pending == data.Keys && done !! pending
        invariant attrs.Keys == old(attrs).Keys + done
        invariant forall k :: k in done ==> attrs[k] == Coerced(k, data[k])
        invariant forall k :: k in old(attrs) && k !in done ==> attrs[k] == old(attrs)[k]
        invariant shows == old(shows)
        decreases pending
      {
        var key :| key in pending;
        var value := data[key];
        if key == "seeking_talent" {
          if value == Text("y") {
            value := Flag(true);
          } else {
            value := Flag(false);
          }
        }
        attrs := attrs[key := value];
        pending := pending - {key};
        done := done + {key};
      }
      assert attrs == old(attrs) + CoercedAll(data);
      r := this;
    }

    /** The shows that start at or before `date`, in relationship order, each
        annotated with its venue's name and image link. */
    method GetPastShows(date: int) returns (past: seq<Show>)
      requires AllTimed(shows)
      requires forall i :: 0 <= i < |shows| ==> shows[i].venue != null
      requires forall i, j :: 0 <= i < j < |shows| ==> shows[i] != shows[j]
      modifies shows
      ensures past == old(PastOf(shows, date))
      ensures shows == old(shows)
      ensures AllTimed(shows) && Times(shows) == old(Times(shows))
      ensures forall j :: 0 <= j < |shows| ==> shows[j].attrs == (if old(StartOf(shows[j])) <= date then old(WithVenue(shows[j].attrs, shows[j].venue.attrs)) else old(shows[j].attrs))
    {
      var shows := this.shows;
      past := [];
      var i := 0;
      while i < |shows|
        invariant 0 <= i <= |shows|
        invariant forall j :: 0 <= j < i ==> shows[j].attrs == (if old(StartOf(shows[j])) <= date then old(WithVenue(shows[j].attrs, shows[j].venue.attrs)) else old(shows[j].attrs))
        invariant forall j :: i <= j < |shows| ==> shows[j].attrs == old(shows[j].attrs)
        invariant past == old(PastOf(shows[..i], date))
      {
        var show := shows[i];
        assert shows[..i + 1][..i] == shows[..i];
        if StartOf(show) <= date {
          show.attrs := WithVenue(show.attrs, show.venue.attrs);
          past := past + [show];
        }
        i := i + 1;
      }
      assert shows[..i] == shows;
      forall j | 0 <= j < |shows|
        ensures Timed(shows[j]) && StartOf(shows[j]) == old(StartOf(shows[j]))
      {
        AnnotationKeepsTime(old(shows[j].attrs), shows[j].venue.attrs);
      }
    }

    /** The shows that start after `date`, in relationship order, each
        annotated with its venue's name and image link. */
    method GetUpcomingShows(date: int) returns (upcoming: seq<Show>)
      requires AllTimed(shows)
      requires forall i :: 0 <= i < |shows| ==> shows[i].venue != null
      requires forall i, j :: 0 <= i < j < |shows| ==> shows[i] != shows[j]
      modifies shows
      ensures upcoming == old(UpcomingOf(shows, date))
      ensures shows == old(shows)
      ensures AllTimed(shows) && Times(shows) == old(Times(shows))
      ensures forall j :: 0 <= j < |shows| ==> shows[j].attrs == (if old(StartOf(shows[j])) > date then old(WithVenue(shows[j].attrs, shows[j].venue.attrs)) else old(shows[j].attrs))
    {
      var shows := this.shows;
      upcoming := [];
      var i := 0;
      while i < |shows|
        invariant 0 <= i <= |shows|
        invariant forall j :: 0 <= j < i ==> shows[j].attrs == (if old(StartOf(shows[j])) > date then old(WithVenue(shows[j].attrs, shows[j].venue.attrs)) else old(shows[j].attrs))
        invariant forall j :: i <= j < |shows| ==> shows[j].attrs == old(shows[j].attrs)
        invariant upcoming == old(UpcomingOf(shows[..i], date))
      {
        var show := shows[i];
        assert shows[..i + 1][..i] == shows[..i];
        if StartOf(show) > date {
          show.attrs := WithVenue(show.attrs, show.venue.attrs);
          upcoming := upcoming + [show];
        }
        i := i + 1;
      }
      assert shows[..i] == shows;
      forall j | 0 <= j < |shows|
        ensures Timed(shows[j]) && StartOf(shows[j]) == old(StartOf(shows[j]))
      {
        AnnotationKeepsTime(old(shows[j].attrs), shows[j].venue.attrs);
      }
    }
  }
}
