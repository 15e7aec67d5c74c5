/** The request handlers of the booking directory: the venue listing, the
    two searches, the two detail pages and the venue and artist forms. Each
    handler works on objects loaded from the database for this request, and
    the ones that write end in a commit that either takes effect as a whole
    or is rolled back. The reference instant `today` stands in for
    `datetime.now()`. */
module App {
  import opened Models
  import opened Store
  import Genres

  /** One area of the venue listing: a city and state and the venues there,
      each with its `num_upcoming_shows`. */
  datatype Area = Area(city: Value, state: Value, venues: seq<Attrs>)

  /** The number of shows of venue `id` that start after `today`. */
  function UpcomingOfVenue(db: Database, id: int, today: int): nat
    reads db
  {
    CountAfter(StartTimes(db.shows, db.VenueShows(id)), today)
  }

  /** The number of shows of artist `id` that start after `today`. */
  function UpcomingOfArtist(db: Database, id: int, today: int): nat
    reads db
  {
    CountAfter(StartTimes(db.shows, db.ArtistShows(id)), today)
  }

  /** A venue as the listing and the search page show it. */
  function ListedVenue(db: Database, id: int, today: int): Attrs
    reads db
  {
    Materialised(Row(db.venues, id), id)["num_upcoming_shows" := Num(UpcomingOfVenue(db, id, today))]
  }

  /** An artist as the search page shows it. */
  function ListedArtist(db: Database, id: int, today: int): Attrs
    reads db
  {
    Materialised(Row(db.artists, id), id)["num_upcoming_shows" := Num(UpcomingOfArtist(db, id, today))]
  }

  /** Materialising a row keeps its start time. */
  lemma MaterialisedTime(row: Attrs, id: int)
    ensures TimeOf(Materialised(row, id)) == TimeOf(row)
    ensures Get(Materialised(row, id), "start_time") == Get(row, "start_time")
  {
    assert "id" != "start_time";
  }

  /** The show objects loaded for the shows `sids` of the database carry the
      start times of their rows, and every one is set. */
  lemma LoadedTimes(db: Database, sids: seq<int>, shows: seq<Show>)
    requires ShowTableOk(db.shows, db.showIds, db.venues, db.artists)
    requires forall k :: 0 <= k < |sids| ==> sids[k] in db.showIds
    requires |shows| == |sids|
    requires forall k :: 0 <= k < |shows| ==> shows[k].attrs == Materialised(Row(db.shows, sids[k]), sids[k])
    ensures AllTimed(shows)
    ensures Times(shows) == StartTimes(db.shows, sids)
  {
    forall k | 0 <= k < |shows|
      ensures Timed(shows[k]) && StartOf(shows[k]) == TimeOf(Row(db.shows, sids[k]))
    {
      assert sids[k] in db.shows;
      assert ShowRowOk(db.shows[sids[k]], db.venues, db.artists);
      MaterialisedTime(Row(db.shows, sids[k]), sids[k]);
    }
  }

  /** `len(venue.get_upcoming_shows(today))` for venue `id`. */
  method CountVenueUpcoming(db: Database, id: int, today: int) returns (n: nat)
    requires ShowTableOk(db.shows, db.showIds, db.venues, db.artists) && id in db.venues
    ensures n == UpcomingOfVenue(db, id, today)
  {
    var v := db.LoadVenue(id);
    VenueShowsLoaded(db, id, v);
    UpcomingCount(v.shows, today);
    var upcoming := v.GetUpcomingShows(today);
    n := |upcoming|;
  }

  /** `len(artist.get_upcoming_shows(today))` for artist `id`. */
  method CountArtistUpcoming(db: Database, id: int, today: int) returns (n: nat)
    requires ShowTableOk(db.shows, db.showIds, db.venues, db.artists) && id in db.artists
    ensures n == UpcomingOfArtist(db, id, today)
  {
    var a := db.LoadArtist(id);
    ArtistShowsLoaded(db, id, a);
    UpcomingCount(a.shows, today);
    var upcoming := a.GetUpcomingShows(today);
    n := |upcoming|;
  }

  /** The venues `ids`, each annotated with `num_upcoming_shows`. */
  method ListVenues(db: Database, ids: seq<int>, today: int) returns (listed: seq<Attrs>)
    requires ShowTableOk(db.shows, db.showIds, db.venues, db.artists)
    requires forall k :: 0 <= k < |ids| ==> ids[k] in db.venues
    ensures |listed| == |ids|
    ensures forall k :: 0 <= k < |ids| ==> listed[k] == ListedVenue(db, ids[k], today)
  {
    listed := [];
    for k := 0 to |ids|
      invariant |listed| == k
      invariant forall j :: 0 <= j < k ==> listed[j] == ListedVenue(db, ids[j], today)
    {
      var n := CountVenueUpcoming(db, ids[k], today);
      listed := listed + [Materialised(db.venues[ids[k]], ids[k])["num_upcoming_shows" := Num(n)]];
    }
  }

  /** The artists `ids`, each annotated with `num_upcoming_shows`. */
  method ListArtists(db: Database, ids: seq<int>, today: int) returns (listed: seq<Attrs>)
    requires ShowTableOk(db.shows, db.showIds, db.venues, db.artists)
    requires forall k :: 0 <= k < |ids| ==> ids[k] in db.artists
    ensures |listed| == |ids|
    ensures forall k :: 0 <= k < |ids| ==> listed[k] == ListedArtist(db, ids[k], today)
  {
    listed := [];
    for k := 0 to |ids|
      invariant |listed| == k
      invariant forall j :: 0 <= j < k ==> listed[j] == ListedArtist(db, ids[j], today)
    {
      var n := CountArtistUpcoming(db, ids[k], today);
      listed := listed + [Materialised(db.artists[ids[k]], ids[k])["num_upcoming_shows" := Num(n)]];
    }
  }

  /** The venue listing: one area per distinct city and state, holding the
      venues there in table order. */
  method Venues(db: Database, today: int) returns (areas: seq<Area>)
    requires db.Valid()
    ensures |areas| == |Places(db.venues, db.venueIds)|
    ensures forall k :: 0 <= k < |areas| ==> (areas[k].city, areas[k].state) == Places(db.venues, db.venueIds)[k]
    ensures forall k :: 0 <= k < |areas| ==>
              |areas[k].venues| == |VenuesAt(db.venues, db.venueIds, Places(db.venues, db.venueIds)[k])|
    ensures forall k, j :: 0 <= k < |areas| && 0 <= j < |areas[k].venues| ==>
              areas[k].venues[j] == ListedVenue(db, VenuesAt(db.venues, db.venueIds, Places(db.venues, db.venueIds)[k])[j], today)
  {
    var places := Places(db.venues, db.venueIds);
    areas := [];
    for k := 0 to |places|
      invariant |areas| == k
      invariant forall q :: 0 <= q < k ==> (areas[q].city, areas[q].state) == places[q]
      invariant forall q :: 0 <= q < k ==> |areas[q].venues| == |VenuesAt(db.venues, db.venueIds, places[q])|
      invariant forall q, j :: 0 <= q < k && 0 <= j < |areas[q].venues| ==>
                  areas[q].venues[j] == ListedVenue(db, VenuesAt(db.venues, db.venueIds, places[q])[j], today)
    {
      var ids := VenuesAt(db.venues, db.venueIds, places[k]);
      forall j | 0 <= j < |ids|
        ensures ids[j] in db.venues
      {
        var id := ids[j];
        assert id in ids;
      }
      var listed := ListVenues(db, ids, today);
      areas := areas + [Area(places[k].0, places[k].1, listed)];
    }
  }

  /** The venue search: the venues whose name contains the term, ignoring
      case, with their number. */
  method SearchVenues(db: Database, term: string, today: int) returns (count: nat, data: seq<Attrs>)
    requires db.Valid()
    ensures count == |data| == |Matching(db.venues, db.venueIds, term)|
    ensures forall k :: 0 <= k < |data| ==> data[k] == ListedVenue(db, Matching(db.venues, db.venueIds, term)[k], today)
  {
    var ids := Matching(db.venues, db.venueIds, term);
    forall j | 0 <= j < |ids|
      ensures ids[j] in db.venues
    {
      var id := ids[j];
      assert id in ids;
    }
    data := ListVenues(db, ids, today);
    count := |data|;
  }

  /** The artist search: the artists whose name contains the term, ignoring
      case, with their number. */
  method SearchArtists(db: Database, term: string, today: int) returns (count: nat, data: seq<Attrs>)
    requires db.Valid()
    ensures count == |data| == |Matching(db.artists, db.artistIds, term)|
    ensures forall k :: 0 <= k < |data| ==> data[k] == ListedArtist(db, Matching(db.artists, db.artistIds, term)[k], today)
  {
    var ids := Matching(db.artists, db.artistIds, term);
    forall j | 0 <= j < |ids|
      ensures ids[j] in db.artists
    {
      var id := ids[j];
      assert id in ids;
    }
    data := ListArtists(db, ids, today);
    count := |data|;
  }

  /** `genres.split(",")` on a stored genres string. */
  function SplitGenres(v: Value): Value
  {
    if v.Text? then Texts(Genres.Split(v.s)) else v
  }

  /** The attributes of venue `id` on its detail page: its row, its genres
      split into a list, and the numbers of its past and upcoming shows. */
  function VenueDetail(db: Database, id: int, today: int): Attrs
    reads db
  {
    var row := Row(db.venues, id);
    var times := StartTimes(db.shows, db.VenueShows(id));
    Materialised(row, id)["genres" := SplitGenres(Get(row, "genres"))]
      ["past_shows_count" := Num(CountAtMost(times, today))]["upcoming_shows_count" := Num(CountAfter(times, today))]
  }

  /** The attributes of artist `id` on its detail page. */
  function ArtistDetail(db: Database, id: int, today: int): Attrs
    reads db
  {
    var row := Row(db.artists, id);
    var times := StartTimes(db.shows, db.ArtistShows(id));
    Materialised(row, id)["genres" := SplitGenres(Get(row, "genres"))]
      ["past_shows_count" := Num(CountAtMost(times, today))]["upcoming_shows_count" := Num(CountAfter(times, today))]
  }

  /** A detail page's attributes, computed from the loaded object of row
      `id` whose shows start at `times`. */
  lemma DetailOfLoaded(rows: map<int, Attrs>, id: int, times: seq<int>, today: int)
    requires id in rows
    ensures var loaded := Materialised(rows[id], id);
            loaded["genres" := SplitGenres(Get(loaded, "genres"))]
              ["past_shows_count" := Num(CountAtMost(times, today))]["upcoming_shows_count" := Num(CountAfter(times, today))]
            == Materialised(Row(rows, id), id)["genres" := SplitGenres(Get(Row(rows, id), "genres"))]
              ["past_shows_count" := Num(CountAtMost(times, today))]["upcoming_shows_count" := Num(CountAfter(times, today))]
  {
    assert "id" != "genres";
  }

  /** The attributes of the show objects loaded for the show rows `sids`. */
  function LoadedRows(shows: map<int, Attrs>, sids: seq<int>): (r: seq<Attrs>)
    ensures |r| == |sids|
    ensures forall k :: 0 <= k < |sids| ==> r[k] == Materialised(Row(shows, sids[k]), sids[k])
  {
    seq(|sids|, k requires 0 <= k < |sids| => Materialised(Row(shows, sids[k]), sids[k]))
  }

  /** The attributes of the objects loaded for what column `fk` of the show
      rows `sids` refers to. */
  function RelatedRows(shows: map<int, Attrs>, rows: map<int, Attrs>, sids: seq<int>, fk: string): (r: seq<Attrs>)
    ensures |r| == |sids|
    ensures forall k :: 0 <= k < |sids| ==> r[k] == Related(shows, rows, sids[k], fk)
  {
    seq(|sids|, k requires 0 <= k < |sids| => Related(shows, rows, sids[k], fk))
  }

  /** `get_past_shows` and then `get_upcoming_shows` on a loaded venue
      whose shows start at `times`, hold `rows` and have artists holding
      `artists`: the annotations the first call makes move no start time,
      so the second call splits by the same times, and between them the
      two calls annotate every show once. */
  method SplitVenueShows(v: Venue, today: int, ghost times: seq<int>, ghost rows: seq<Attrs>, ghost artists: seq<Attrs>)
    returns (past: seq<Show>, upcoming: seq<Show>)
    requires AllTimed(v.shows) && Times(v.shows) == times
    requires |rows| == |v.shows| && |artists| == |v.shows|
    requires forall i :: 0 <= i < |v.shows| ==>
               v.shows[i].attrs == rows[i] && v.shows[i].artist != null && v.shows[i].artist.attrs == artists[i]
    requires forall i, j :: 0 <= i < j < |v.shows| ==> v.shows[i] != v.shows[j]
    modifies v.shows
    ensures v.shows == old(v.shows)
    ensures past == PastAmong(v.shows, times, today) && upcoming == UpcomingAmong(v.shows, times, today)
    ensures forall j :: 0 <= j < |v.shows| ==> v.shows[j].attrs == WithArtist(rows[j], artists[j])
  {
    past := PastVenueShows(v, today, times, rows, artists);
    upcoming := UpcomingVenueShows(v, today, times, rows, artists);
  }

  /** The first of the two calls of `SplitVenueShows`: the past shows are
      annotated, the others keep their rows, and no start time moves. */
  method PastVenueShows(v: Venue, today: int, ghost times: seq<int>, ghost rows: seq<Attrs>, ghost artists: seq<Attrs>)
    returns (past: seq<Show>)
    requires AllTimed(v.shows) && Times(v.shows) == times
    requires |rows| == |v.shows| && |artists| == |v.shows|
    requires forall i :: 0 <= i < |v.shows| ==>
               v.shows[i].attrs == rows[i] && v.shows[i].artist != null && v.shows[i].artist.attrs == artists[i]
    requires forall i, j :: 0 <= i < j < |v.shows| ==> v.shows[i] != v.shows[j]
    modifies v.shows
    ensures v.shows == old(v.shows)
    ensures past == PastAmong(v.shows, times, today)
    ensures AllTimed(v.shows) && Times(v.shows) == times
    ensures forall i :: 0 <= i < |v.shows| ==>
              v.shows[i].attrs == (if times[i] <= today then WithArtist(rows[i], artists[i]) else rows[i])
    ensures forall i :: 0 <= i < |v.shows| ==> v.shows[i].artist != null && v.shows[i].artist.attrs == artists[i]
  {
    SplitByTimes(v.shows, today);
    past := v.GetPastShows(today);
  }

  /** The second of the two calls of `SplitVenueShows`: the upcoming
      shows, which the first call left as their rows, are annotated too. */
  method UpcomingVenueShows(v: Venue, today: int, ghost times: seq<int>, ghost rows: seq<Attrs>, ghost artists: seq<Attrs>)
    returns (upcoming: seq<Show>)
    requires AllTimed(v.shows) && Times(v.shows) == times
    requires |rows| == |v.shows| && |artists| == |v.shows|
    requires forall i :: 0 <= i < |v.shows| ==>
               v.shows[i].attrs == (if times[i] <= today then WithArtist(rows[i], artists[i]) else rows[i])
    requires forall i :: 0 <= i < |v.shows| ==> v.shows[i].artist != null && v.shows[i].artist.attrs == artists[i]
    requires forall i, j :: 0 <= i < j < |v.shows| ==> v.shows[i] != v.shows[j]
    modifies v.shows
    ensures v.shows == old(v.shows)
    ensures upcoming == UpcomingAmong(v.shows, times, today)
    ensures forall i :: 0 <= i < |v.shows| ==> v.shows[i].attrs == WithArtist(rows[i], artists[i])
  {
    SplitByTimes(v.shows, today);
    upcoming := v.GetUpcomingShows(today);
  }

  /** `get_past_shows` and then `get_upcoming_shows` on a loaded artist
      whose shows start at `times`, hold `rows` and have venues holding
      `venues`. */
  method SplitArtistShows(a: Artist, today: int, ghost times: seq<int>, ghost rows: seq<Attrs>, ghost venues: seq<Attrs>)
    returns (past: seq<Show>, upcoming: seq<Show>)
    requires AllTimed(a.shows) && Times(a.shows) == times
    requires |rows| == |a.shows| && |venues| == |a.shows|
    requires forall i :: 0 <= i < |a.shows| ==>
               a.shows[i].attrs == rows[i] && a.shows[i].venue != null && a.shows[i].venue.attrs == venues[i]
    requires forall i, j :: 0 <= i < j < |a.shows| ==> a.shows[i] != a.shows[j]
    modifies a.shows
    ensures a.shows == old(a.shows)
    ensures past == PastAmong(a.shows, times, today) && upcoming == UpcomingAmong(a.shows, times, today)
    ensures forall j :: 0 <= j < |a.shows| ==> a.shows[j].attrs == WithVenue(rows[j], venues[j])
  {
    past := PastArtistShows(a, today, times, rows, venues);
    upcoming := UpcomingArtistShows(a, today, times, rows, venues);
  }

  /** The first of the two calls of `SplitArtistShows`: the past shows are
      annotated, the others keep their rows, and no start time moves. */
  method PastArtistShows(a: Artist, today: int, ghost times: seq<int>, ghost rows: seq<Attrs>, ghost venues: seq<Attrs>)
    returns (past: seq<Show>)
    requires AllTimed(a.shows) && Times(a.shows) == times
    requires |rows| == |a.shows| && |venues| == |a.shows|
    requires forall i :: 0 <= i < |a.shows| ==>
               a.shows[i].attrs == rows[i] && a.shows[i].venue != null && a.shows[i].venue.attrs == venues[i]
    requires forall i, j :: 0 <= i < j < |a.shows| ==> a.shows[i] != a.shows[j]
    modifies a.shows
    ensures a.shows == old(a.shows)
    ensures past == PastAmong(a.shows, times, today)
    ensures AllTimed(a.shows) && Times(a.shows) == times
    ensures forall i :: 0 <= i < |a.shows| ==>
              a.shows[i].attrs == (if times[i] <= today then WithVenue(rows[i], venues[i]) else rows[i])
    ensures forall i :: 0 <= i < |a.shows| ==> a.shows[i].venue != null && a.shows[i].venue.attrs == venues[i]
  {
    SplitByTimes(a.shows, today);
    past := a.GetPastShows(today);
  }

  /** The second of the two calls of `SplitArtistShows`: the upcoming
      shows, which the first call left as their rows, are annotated too. */
  method UpcomingArtistShows(a: Artist, today: int, ghost times: seq<int>, ghost rows: seq<Attrs>, ghost venues: seq<Attrs>)
    returns (upcoming: seq<Show>)
    requires AllTimed(a.shows) && Times(a.shows) == times
    requires |rows| == |a.shows| && |venues| == |a.shows|
    requires forall i :: 0 <= i < |a.shows| ==>
               a.shows[i].attrs == (if times[i] <= today then WithVenue(rows[i], venues[i]) else rows[i])
    requires forall i :: 0 <= i < |a.shows| ==> a.shows[i].venue != null && a.shows[i].venue.attrs == venues[i]
    requires forall i, j :: 0 <= i < j < |a.shows| ==> a.shows[i] != a.shows[j]
    modifies a.shows
    ensures a.shows == old(a.shows)
    ensures upcoming == UpcomingAmong(a.shows, times, today)
    ensures forall i :: 0 <= i < |a.shows| ==> a.shows[i].attrs == WithVenue(rows[i], venues[i])
  {
    SplitByTimes(a.shows, today);
    upcoming := a.GetUpcomingShows(today);
  }

  /** What `show_venue` does to a loaded venue: its genres split into a
      list, its shows split and annotated, and the two numbers set. */
  method FillVenueDetail(v: Venue, today: int, ghost times: seq<int>, ghost rows: seq<Attrs>, ghost artists: seq<Attrs>)
    returns (past: seq<Show>, upcoming: seq<Show>)
    requires AllTimed(v.shows) && Times(v.shows) == times
    requires |rows| == |v.shows| && |artists| == |v.shows|
    requires forall i :: 0 <= i < |v.shows| ==>
               v.shows[i].attrs == rows[i] && v.shows[i].artist != null && v.shows[i].artist.attrs == artists[i]
    requires forall i, j :: 0 <= i < j < |v.shows| ==> v.shows[i] != v.shows[j]
    modifies v, v.shows
    ensures v.shows == old(v.shows)
    ensures v.attrs == old(v.attrs)["genres" := SplitGenres(Get(old(v.attrs), "genres"))]
              ["past_shows_count" := Num(CountAtMost(times, today))]["upcoming_shows_count" := Num(CountAfter(times, today))]
    ensures past == PastAmong(v.shows, times, today) && upcoming == UpcomingAmong(v.shows, times, today)
    ensures forall j :: 0 <= j < |v.shows| ==> v.shows[j].attrs == WithArtist(rows[j], artists[j])
  {
    // The split writes only show objects, so setting the genres after it
    // rather than before changes nothing.
    past, upcoming := SplitVenueShows(v, today, times, rows, artists);
    v.attrs := v.attrs["genres" := SplitGenres(Get(v.attrs, "genres"))]
      ["past_shows_count" := Num(|past|)]["upcoming_shows_count" := Num(|upcoming|)];
  }

  /** What `show_artist` does to a loaded artist: its genres split into a
      list, its shows split and annotated, and the two numbers set. */
  method FillArtistDetail(a: Artist, today: int, ghost times: seq<int>, ghost rows: seq<Attrs>, ghost venues: seq<Attrs>)
    returns (past: seq<Show>, upcoming: seq<Show>)
    requires AllTimed(a.shows) && Times(a.shows) == times
    requires |rows| == |a.shows| && |venues| == |a.shows|
    requires forall i :: 0 <= i < |a.shows| ==>
               a.shows[i].attrs == rows[i] && a.shows[i].venue != null && a.shows[i].venue.attrs == venues[i]
    requires forall i, j :: 0 <= i < j < |a.shows| ==> a.shows[i] != a.shows[j]
    modifies a, a.shows
    ensures a.shows == old(a.shows)
    ensures a.attrs == old(a.attrs)["genres" := SplitGenres(Get(old(a.attrs), "genres"))]
              ["past_shows_count" := Num(CountAtMost(times, today))]["upcoming_shows_count" := Num(CountAfter(times, today))]
    ensures past == PastAmong(a.shows, times, today) && upcoming == UpcomingAmong(a.shows, times, today)
    ensures forall j :: 0 <= j < |a.shows| ==> a.shows[j].attrs == WithVenue(rows[j], venues[j])
  {
    // The split writes only show objects, so setting the genres after it
    // rather than before changes nothing.
    past, upcoming := SplitArtistShows(a, today, times, rows, venues);
    a.attrs := a.attrs["genres" := SplitGenres(Get(a.attrs, "genres"))]
      ["past_shows_count" := Num(|past|)]["upcoming_shows_count" := Num(|upcoming|)];
  }

  /** `Venue.query.get(id)` as the detail page loads it: every loaded
      show holds its row, whose start time is set. */
  method LoadVenueForDetail(db: Database, id: int) returns (v: Venue)
    requires ShowTableOk(db.shows, db.showIds, db.venues, db.artists) && id in db.venues
    ensures fresh(v) && v.attrs == Materialised(db.venues[id], id)
    ensures |v.shows| == |db.VenueShows(id)|
    ensures forall k :: 0 <= k < |v.shows| ==> fresh(v.shows[k])
    ensures forall k :: 0 <= k < |v.shows| ==> v.shows[k].venue == v
    ensures forall i, j :: 0 <= i < j < |v.shows| ==> v.shows[i] != v.shows[j]
    ensures AllTimed(v.shows) && Times(v.shows) == StartTimes(db.shows, db.VenueShows(id))
    ensures forall k :: 0 <= k < |v.shows| ==>
              v.shows[k].attrs == LoadedRows(db.shows, db.VenueShows(id))[k] && v.shows[k].artist != null &&
              v.shows[k].artist.attrs == RelatedRows(db.shows, db.artists, db.VenueShows(id), "artist_id")[k]
  {
    v := db.LoadVenue(id);
    VenueShowsLoaded(db, id, v);
  }

  /** What `LoadVenueForDetail` promises of the shows `LoadVenue` gives. */
  lemma VenueShowsLoaded(db: Database, id: int, v: Venue)
    requires ShowTableOk(db.shows, db.showIds, db.venues, db.artists)
    requires |v.shows| == |db.VenueShows(id)|
    requires forall k :: 0 <= k < |v.shows| ==> ShowOfVenue(v.shows[k], db.VenueShows(id)[k], v, db.shows, db.artists)
    ensures forall k :: 0 <= k < |v.shows| ==> v.shows[k].venue == v
    ensures AllTimed(v.shows) && Times(v.shows) == StartTimes(db.shows, db.VenueShows(id))
    ensures forall k :: 0 <= k < |v.shows| ==>
              v.shows[k].attrs == LoadedRows(db.shows, db.VenueShows(id))[k] && v.shows[k].artist != null &&
              v.shows[k].artist.attrs == RelatedRows(db.shows, db.artists, db.VenueShows(id), "artist_id")[k]
  {
    LoadedTimes(db, db.VenueShows(id), v.shows);
  }

  /** The venue detail page: the venue with its genres as a list, its shows
      (each the object of one of its show rows, in table order, linked to
      the venue and annotated with its artist's name and image link), the
      past and upcoming ones among them and their numbers. */
  method ShowVenue(db: Database, id: int, today: int) returns (v: Venue, past: seq<Show>, upcoming: seq<Show>)
    requires ShowTableOk(db.shows, db.showIds, db.venues, db.artists) && id in db.venues
    ensures fresh(v) && v.attrs == VenueDetail(db, id, today)
    ensures |v.shows| == |db.VenueShows(id)|
    ensures forall k :: 0 <= k < |v.shows| ==> v.shows[k].venue == v && v.shows[k].artist != null
    ensures forall k :: 0 <= k < |v.shows| ==> fresh(v.shows[k])
    ensures forall i, j :: 0 <= i < j < |v.shows| ==> v.shows[i] != v.shows[j]
    ensures forall k :: 0 <= k < |v.shows| ==>
              v.shows[k].attrs == WithArtist(LoadedRows(db.shows, db.VenueShows(id))[k],
                                             RelatedRows(db.shows, db.artists, db.VenueShows(id), "artist_id")[k])
    ensures past == PastAmong(v.shows, StartTimes(db.shows, db.VenueShows(id)), today)
    ensures upcoming == UpcomingAmong(v.shows, StartTimes(db.shows, db.VenueShows(id)), today)
  {
    v := LoadVenueForDetail(db, id);
    ghost var sids := db.VenueShows(id);
    DetailOfLoaded(db.venues, id, StartTimes(db.shows, sids), today);
    past, upcoming := FillVenueDetail(v, today, StartTimes(db.shows, sids),
                                      LoadedRows(db.shows, sids), RelatedRows(db.shows, db.artists, sids, "artist_id"));
  }

  /** `Artist.query.get(id)` as the detail page loads it: every loaded
      show holds its row, whose start time is set. */
  method LoadArtistForDetail(db: Database, id: int) returns (a: Artist)
    requires ShowTableOk(db.shows, db.showIds, db.venues, db.artists) && id in db.artists
    ensures fresh(a) && a.attrs == Materialised(db.artists[id], id)
    ensures |a.shows| == |db.ArtistShows(id)|
    ensures forall k :: 0 <= k < |a.shows| ==> fresh(a.shows[k])
    ensures forall k :: 0 <= k < |a.shows| ==> a.shows[k].artist == a
    ensures forall i, j :: 0 <= i < j < |a.shows| ==> a.shows[i] != a.shows[j]
    ensures AllTimed(a.shows) && Times(a.shows) == StartTimes(db.shows, db.ArtistShows(id))
    ensures forall k :: 0 <= k < |a.shows| ==>
              a.shows[k].attrs == LoadedRows(db.shows, db.ArtistShows(id))[k] && a.shows[k].venue != null &&
              a.shows[k].venue.attrs == RelatedRows(db.shows, db.venues, db.ArtistShows(id), "venue_id")[k]
  {
    a := db.LoadArtist(id);
    ArtistShowsLoaded(db, id, a);
  }

  /** What `LoadArtistForDetail` promises of the shows `LoadArtist` gives. */
  lemma ArtistShowsLoaded(db: Database, id: int, a: Artist)
    requires ShowTableOk(db.shows, db.showIds, db.venues, db.artists)
    requires |a.shows| == |db.ArtistShows(id)|
    requires forall k :: 0 <= k < |a.shows| ==> ShowOfArtist(a.shows[k], db.ArtistShows(id)[k], a, db.shows, db.venues)
    ensures forall k :: 0 <= k < |a.shows| ==> a.shows[k].artist == a
    ensures AllTimed(a.shows) && Times(a.shows) == StartTimes(db.shows, db.ArtistShows(id))
    ensures forall k :: 0 <= k < |a.shows| ==>
              a.shows[k].attrs == LoadedRows(db.shows, db.ArtistShows(id))[k] && a.shows[k].venue != null &&
              a.shows[k].venue.attrs == RelatedRows(db.shows, db.venues, db.ArtistShows(id), "venue_id")[k]
  {
    LoadedTimes(db, db.ArtistShows(id), a.shows);
  }

  /** The artist detail page: the artist with its genres as a list, its
      shows (each linked to the artist and annotated with its venue's name
      and image link), the past and upcoming ones and their numbers. */
  method ShowArtist(db: Database, id: int, today: int) returns (a: Artist, past: seq<Show>, upcoming: seq<Show>)
    requires ShowTableOk(db.shows, db.showIds, db.venues, db.artists) && id in db.artists
    ensures fresh(a) && a.attrs == ArtistDetail(db, id, today)
    ensures |a.shows| == |db.ArtistShows(id)|
    ensures forall k :: 0 <= k < |a.shows| ==> a.shows[k].artist == a && a.shows[k].venue != null
    ensures forall k :: 0 <= k < |a.shows| ==> fresh(a.shows[k])
    ensures forall i, j :: 0 <= i < j < |a.shows| ==> a.shows[i] != a.shows[j]
    ensures forall k :: 0 <= k < |a.shows| ==>
              a.shows[k].attrs == WithVenue(LoadedRows(db.shows, db.ArtistShows(id))[k],
                                            RelatedRows(db.shows, db.venues, db.ArtistShows(id), "venue_id")[k])
    ensures past == PastAmong(a.shows, StartTimes(db.shows, db.ArtistShows(id)), today)
    ensures upcoming == UpcomingAmong(a.shows, StartTimes(db.shows, db.ArtistShows(id)), today)
  {
    a := LoadArtistForDetail(db, id);
    ghost var sids := db.ArtistShows(id);
    DetailOfLoaded(db.artists, id, StartTimes(db.shows, sids), today);
    past, upcoming := FillArtistDetail(a, today, StartTimes(db.shows, sids),
                                       LoadedRows(db.shows, sids), RelatedRows(db.shows, db.venues, sids, "venue_id"));
  }

  /** `request.form.to_dict()` with `genres` replaced by the comma-join of
      the selected genres (`request.form.getlist('genres')`). */
  function Submitted(form: map<string, string>, genres: seq<string>): (r: Attrs)
    ensures r.Keys == form.Keys + {"genres"}
    ensures r["genres"] == Text(Genres.Join(genres))
    ensures forall k :: k in form && k != "genres" ==> r[k] == Text(form[k])
  {
    (map k | k in form :: Text(form[k]))["genres" := Text(Genres.Join(genres))]
  }

  /** The row `create_venue_submission` asks the database to insert. */
  function CreatedVenueRow(form: map<string, string>, genres: seq<string>): Attrs
  {
    Persisted(CoercedAll(Submitted(form, genres)), VenueColumns)
  }

  /** The row `edit_venue_submission` or `edit_artist_submission` asks the
      database to write for the stored `row` of record `id`. */
  function EditedRow(row: Attrs, id: int, form: map<string, string>, genres: seq<string>, columns: set<string>): Attrs
  {
    Persisted(Materialised(row, id) + CoercedAll(Submitted(form, genres)), columns)
  }

  /** A new venue: a `Venue()` updated from the form and committed, or the
      session rolled back and the tables left as they were. */
  method CreateVenueSubmission(db: Database, form: map<string, string>, genres: seq<string>, fault: bool) returns (ok: bool)
    requires db.Valid()
    modifies db
    ensures db.Valid()
    ensures ok == Accepts(old(db.venues), CreatedVenueRow(form, genres), VenueRequired, VenueLengths, VenueFlags,
                          db.unique, fault)
    ensures ok ==> db.venues == old(db.venues)[old(db.nextVenueId) := CreatedVenueRow(form, genres)]
    ensures ok ==> db.venueIds == old(db.venueIds) + [old(db.nextVenueId)] && db.nextVenueId == old(db.nextVenueId) + 1
    ensures ok ==> db.artists == old(db.artists) && db.artistIds == old(db.artistIds)
    ensures ok ==> db.shows == old(db.shows) && db.showIds == old(db.showIds)
    ensures !ok ==> unchanged(db)
  {
    var venue := new Venue();
    var updated := venue.Update(Submitted(form, genres));
    assert updated.attrs == CoercedAll(Submitted(form, genres));
    ok := db.InsertVenue(Persisted(updated.attrs, VenueColumns), fault);
  }

  /** An edited venue: the stored venue updated from the form and
      committed. A missing venue (`query.get` gives None, whose `update`
      raises) or a refused commit rolls back and leaves the tables as they
      were. */
  method EditVenueSubmission(db: Database, id: int, form: map<string, string>, genres: seq<string>, fault: bool)
    returns (ok: bool)
    requires db.Valid()
    modifies db
    ensures db.Valid()
    ensures ok == (id in old(db.venues) &&
                   Accepts(old(db.venues) - {id}, EditedRow(old(db.venues)[id], id, form, genres, VenueColumns),
                           VenueRequired, VenueLengths, VenueFlags, db.unique, fault))
    ensures ok ==> db.venues == old(db.venues)[id := EditedRow(old(db.venues)[id], id, form, genres, VenueColumns)]
    ensures ok ==> db.venueIds == old(db.venueIds) && db.nextVenueId == old(db.nextVenueId)
    ensures ok ==> db.artists == old(db.artists) && db.artistIds == old(db.artistIds)
    ensures ok ==> db.shows == old(db.shows) && db.showIds == old(db.showIds)
    ensures !ok ==> unchanged(db)
  {
    if id !in db.venues {
      return false;
    }
    var venue := new Venue.Loaded(Materialised(db.venues[id], id));
    var updated := venue.Update(Submitted(form, genres));
    ok := db.UpdateVenue(id, Persisted(updated.attrs, VenueColumns), fault);
  }

  /** An edited artist, committed or rolled back like a venue. */
  method EditArtistSubmission(db: Database, id: int, form: map<string, string>, genres: seq<string>, fault: bool)
    returns (ok: bool)
    requires db.Valid()
    modifies db
    ensures db.Valid()
    ensures ok == (id in old(db.artists) &&
                   Accepts(old(db.artists) - {id}, EditedRow(old(db.artists)[id], id, form, genres, ArtistColumns),
                           ArtistRequired, ArtistLengths, ArtistFlags, db.unique, fault))
    ensures ok ==> db.artists == old(db.artists)[id := EditedRow(old(db.artists)[id], id, form, genres, ArtistColumns)]
    ensures ok ==> db.artistIds == old(db.artistIds)
    ensures ok ==> db.venues == old(db.venues) && db.venueIds == old(db.venueIds) && db.nextVenueId == old(db.nextVenueId)
    ensures ok ==> db.shows == old(db.shows) && db.showIds == old(db.showIds)
    ensures !ok ==> unchanged(db)
  {
    if id !in db.artists {
      return false;
    }
    var artist := new Artist.Loaded(Materialised(db.artists[id], id));
    var updated := artist.Update(Submitted(form, genres));
    ok := db.UpdateArtist(id, Persisted(updated.attrs, ArtistColumns), fault);
  }

  /** Deleting a venue: all or nothing. A missing venue (`session.delete`
      of None raises), a venue that still has shows, or a failed commit
      rolls back. */
  method DeleteVenue(db: Database, id: int, fault: bool) returns (ok: bool)
    requires db.Valid()
    modifies db
    ensures db.Valid()
    ensures ok == (id in old(db.venues) && !fault && old(db.VenueShows(id)) == [])
    ensures ok ==> db.venues == old(db.venues) - {id} && db.venueIds == Without(old(db.venueIds), id)
    ensures ok ==> db.nextVenueId == old(db.nextVenueId)
    ensures ok ==> db.artists == old(db.artists) && db.artistIds == old(db.artistIds)
    ensures ok ==> db.shows == old(db.shows) && db.showIds == old(db.showIds)
    ensures !ok ==> unchanged(db)
  {
    if id !in db.venues {
      return false;
    }
    ok := db.DeleteVenue(id, fault);
  }

  /** A created venue's row holds the form's column fields as submitted,
      the genres joined with commas and `seeking_talent` as a boolean; it
      has no other columns. */
  lemma CreatedRowHoldsForm(form: map<string, string>, genres: seq<string>)
    ensures forall k :: k in CreatedVenueRow(form, genres) <==> k in VenueColumns && (k in form || k == "genres")
    ensures CreatedVenueRow(form, genres)["genres"] == Text(Genres.Join(genres))
    ensures forall k :: k in form && k in VenueColumns && k != "genres" && k != "seeking_talent" ==>
              CreatedVenueRow(form, genres)[k] == Text(form[k])
    ensures "seeking_talent" in form ==> CreatedVenueRow(form, genres)["seeking_talent"] == Flag(form["seeking_talent"] == "y")
  {
    var data := Submitted(form, genres);
    assert "genres" in data && "genres" in VenueColumns;
    if "seeking_talent" in form {
      assert data["seeking_talent"] == Text(form["seeking_talent"]);
    }
  }

  /** The NOT NULL check of a create refuses exactly the forms that lack
      one of name, city, state and address (the genres are always set). */
  lemma CreateNeedsRequiredFields(form: map<string, string>, genres: seq<string>)
    ensures Filled(CreatedVenueRow(form, genres), VenueRequired) <==>
              "name" in form && "city" in form && "state" in form && "address" in form
  {
    CreatedRowHoldsForm(form, genres);
    var row := CreatedVenueRow(form, genres);
    if Filled(row, VenueRequired) {
      assert Get(row, "name") != Null && Get(row, "city") != Null;
      assert Get(row, "state") != Null && Get(row, "address") != Null;
    }
  }

  /** Genres submitted on a form come back as the same list on the detail
      page when at least one is selected and none contains a comma. */
  lemma GenresShownAsSubmitted(form: map<string, string>, genres: seq<string>)
    requires genres != [] && Genres.NoCommas(genres)
    ensures SplitGenres(Get(CreatedVenueRow(form, genres), "genres")) == Texts(genres)
  {
    CreatedRowHoldsForm(form, genres);
    Genres.SplitJoin(genres);
  }

  /** An edit writes the submitted value of every column on the form and
      keeps the stored value of every column the form leaves out (the
      genres are always written). */
  lemma EditKeepsUnsubmitted(row: Attrs, id: int, form: map<string, string>, genres: seq<string>, columns: set<string>)
    ensures forall k :: k in row && k in columns && k !in form && k != "genres" && k != "id" ==>
              EditedRow(row, id, form, genres, columns)[k] == row[k]
    ensures forall k :: k in form && k in columns && k != "genres" && k != "seeking_talent" ==>
              EditedRow(row, id, form, genres, columns)[k] == Text(form[k])
    ensures "genres" in columns ==> EditedRow(row, id, form, genres, columns)["genres"] == Text(Genres.Join(genres))
  {
    var data := Submitted(form, genres);
    forall k | k in row && k in columns && k !in form && k != "genres" && k != "id"
      ensures EditedRow(row, id, form, genres, columns)[k] == row[k]
    {
      assert k !in CoercedAll(data);
    }
  }

  /** An artist's `seeking_venue` reaches the commit as the submitted
      string: the coercion in `update` looks at `seeking_talent`, which is
      not an artist column and so is never written. */
  lemma ArtistSeekingVenueLeftRaw(row: Attrs, id: int, form: map<string, string>, genres: seq<string>)
    ensures "seeking_venue" in form ==>
              EditedRow(row, id, form, genres, ArtistColumns)["seeking_venue"] == Text(form["seeking_venue"])
    ensures "seeking_talent" !in EditedRow(row, id, form, genres, ArtistColumns)
  {
    assert "seeking_talent" !in ArtistColumns;
    if "seeking_venue" in form {
      assert "seeking_venue" in ArtistColumns;
      EditKeepsUnsubmitted(row, id, form, genres, ArtistColumns);
    }
  }

  /** So an artist edit whose form carries `seeking_venue` (a ticked box
      sends "y") always rolls back: the `Boolean` column refuses the string. */
  lemma ArtistEditWithSeekingVenueFails(others: map<int, Attrs>, row: Attrs, id: int, form: map<string, string>,
                                        genres: seq<string>, unique: bool, fault: bool)
    requires "seeking_venue" in form
    ensures !Accepts(others, EditedRow(row, id, form, genres, ArtistColumns), ArtistRequired, ArtistLengths,
                     ArtistFlags, unique, fault)
  {
    ArtistSeekingVenueLeftRaw(row, id, form, genres);
    assert "seeking_venue" in ArtistFlags;
  }

  /** A venue's `seeking_talent`, coerced by `update`, never makes its
      `Boolean` column refuse a created row, nor an edited row whose form
      carries the field; a form without it leaves the stored boolean. */
  lemma VenueSeekingTalentIsBoolean(row: Attrs, id: int, form: map<string, string>, genres: seq<string>)
    ensures Booleans(CreatedVenueRow(form, genres), VenueFlags)
    ensures "seeking_talent" in form || Booleans(row, VenueFlags) ==>
              Booleans(EditedRow(row, id, form, genres, VenueColumns), VenueFlags)
  {
    var data := Submitted(form, genres);
    if "seeking_talent" in form {
      assert "seeking_talent" in data;
    } else if Booleans(row, VenueFlags) {
      EditKeepsUnsubmitted(row, id, form, genres, VenueColumns);
    }
  }

  /** Starting from a stored artist row, whose `seeking_venue` is a boolean,
      an edit passes the `Boolean` check exactly when the form does not
      carry `seeking_venue`. */
  lemma ArtistEditBooleanCheck(row: Attrs, id: int, form: map<string, string>, genres: seq<string>)
    ensures Booleans(row, ArtistFlags) ==>
              (Booleans(EditedRow(row, id, form, genres, ArtistColumns), ArtistFlags) <==> "seeking_venue" !in form)
  {
    ArtistSeekingVenueLeftRaw(row, id, form, genres);
    if "seeking_venue" !in form && Booleans(row, ArtistFlags) {
      EditKeepsUnsubmitted(row, id, form, genres, ArtistColumns);
    }
  }

  /** Starting from a stored row that fits its columns, an edit fits them
      too when every submitted string and the joined genres do: the columns
      the form leaves out keep their stored values. */
  lemma EditKeepsLengths(row: Attrs, id: int, form: map<string, string>, genres: seq<string>, columns: set<string>,
                         lengths: map<string, nat>)
    ensures Fits(row, lengths) &&
            (forall c :: c in form && c in lengths && c != "genres" ==> |form[c]| <= lengths[c]) &&
            ("genres" in lengths ==> |Genres.Join(genres)| <= lengths["genres"]) ==>
              Fits(EditedRow(row, id, form, genres, columns), lengths)
  {
    var edited := EditedRow(row, id, form, genres, columns);
    var data := Submitted(form, genres);
    if Fits(row, lengths) &&
       (forall c :: c in form && c in lengths && c != "genres" ==> |form[c]| <= lengths[c]) &&
       ("genres" in lengths ==> |Genres.Join(genres)| <= lengths["genres"]) {
      forall c | c in lengths && c in edited && edited[c].Text?
        ensures |edited[c].s| <= lengths[c]
      {
        if c !in data {
          assert edited[c] == Materialised(row, id)[c];
        }
      }
    }
  }

  /** Every stored venue and artist row fits its columns and holds
      booleans in its `Boolean` columns. */
  lemma StoredRowsTyped(db: Database)
    requires db.Valid()
    ensures forall id :: id in db.venues ==> Fits(db.venues[id], VenueLengths) && Booleans(db.venues[id], VenueFlags)
    ensures forall id :: id in db.artists ==> Fits(db.artists[id], ArtistLengths) && Booleans(db.artists[id], ArtistFlags)
  {
  }

  /** On either detail page the two numbers add up to all the shows. */
  lemma DetailCountsAddUp(db: Database, id: int, today: int)
    ensures VenueDetail(db, id, today)["past_shows_count"].n + VenueDetail(db, id, today)["upcoming_shows_count"].n
              == |db.VenueShows(id)|
    ensures ArtistDetail(db, id, today)["past_shows_count"].n + ArtistDetail(db, id, today)["upcoming_shows_count"].n
              == |db.ArtistShows(id)|
  {
    CountSplit(StartTimes(db.shows, db.VenueShows(id)), today);
    CountSplit(StartTimes(db.shows, db.ArtistShows(id)), today);
  }

  /** A listed venue's `num_upcoming_shows` is the number of its shows that
      start after `today`. */
  lemma ListedVenueCountsUpcoming(db: Database, id: int, today: int)
    ensures ListedVenue(db, id, today)["num_upcoming_shows"] == Num(|Select(db.shows, db.VenueShows(id), StartsAfter(today))|)
    ensures forall sid :: sid in Select(db.shows, db.VenueShows(id), StartsAfter(today)) <==>
              sid in db.VenueShows(id) && TimeOf(Row(db.shows, sid)) > today
  {
    CountAfterSelects(db.shows, db.VenueShows(id), today);
  }

  /** A listed artist's `num_upcoming_shows` is the number of its shows
      that start after `today`. */
  lemma ListedArtistCountsUpcoming(db: Database, id: int, today: int)
    ensures ListedArtist(db, id, today)["num_upcoming_shows"] == Num(|Select(db.shows, db.ArtistShows(id), StartsAfter(today))|)
    ensures forall sid :: sid in Select(db.shows, db.ArtistShows(id), StartsAfter(today)) <==>
              sid in db.ArtistShows(id) && TimeOf(Row(db.shows, sid)) > today
  {
    CountAfterSelects(db.shows, db.ArtistShows(id), today);
  }
}
