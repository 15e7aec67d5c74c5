/** The database behind the booking directory: three tables of rows, kept
    in insertion order, and the queries and commits the controllers issue.
    A row holds the column values the ORM persisted; the objects of the
    Models module are materialised from rows for each request, so
    attributes set on them that are not columns never reach a table, and a
    rolled-back commit leaves the tables as they were. */
module Store {
  import opened Models
  import Search

  /** The persisted columns of each table, apart from the key `id`. */
  const VenueColumns: set<string> :=
    {"name", "city", "state", "address", "phone", "image_link", "facebook_link",
     "genres", "website", "seeking_talent", "seeking_description"}
  const ArtistColumns: set<string> :=
    {"name", "city", "state", "phone", "genres", "image_link", "facebook_link",
     "website", "seeking_venue", "seeking_description"}

  /** The columns declared `nullable=False`. */
  const VenueRequired: set<string> := {"name", "city", "state", "address", "genres"}
  const ArtistRequired: set<string> := {"name", "city", "state", "genres"}

  /** The row stored under `id`, or no columns at all. */
  function Row(rows: map<int, Attrs>, id: int): Attrs
  {
    if id in rows then rows[id] else map[]
  }

  /** What a commit writes for an object: its column attributes. */
  function Persisted(attrs: Attrs, columns: set<string>): (r: Attrs)
    ensures r.Keys == attrs.Keys * columns
    ensures forall k :: k in r ==> r[k] == attrs[k]
  {
    map k | k in attrs && k in columns :: attrs[k]
  }

  /** The attributes of the object the ORM builds from a row. */
  function Materialised(row: Attrs, id: int): Attrs
  {
    row["id" := Num(id)]
  }

  /** Every NOT NULL column holds a value. */
  predicate Filled(row: Attrs, required: set<string>)
  {
    forall c :: c in required ==> Get(row, c) != Null
  }

  /** The columns of the unique constraint. */
  function Key(row: Attrs): (Value, Value, Value)
  {
    (Get(row, "name"), Get(row, "city"), Get(row, "state"))
  }

  /** No row of `rows` has the key of `row`. */
  predicate KeyFree(rows: map<int, Attrs>, row: Attrs)
  {
    forall id :: id in rows ==> Key(rows[id]) != Key(row)
  }

  predicate UniqueKeys(rows: map<int, Attrs>)
  {
    forall a, b :: a in rows && b in rows && a != b ==> Key(rows[a]) != Key(rows[b])
  }

  /** No id occurs twice. */
  predicate Distinct<T(==)>(items: seq<T>)
  {
    forall i, j :: 0 <= i < j < |items| ==> items[i] != items[j]
  }

  /** `ids` lists every key of `rows` exactly once: the table's scan order. */
  predicate Ordered(rows: map<int, Attrs>, ids: seq<int>)
  {
    && Distinct(ids)
    && (forall id :: id in rows ==> id in ids)
    && (forall id :: id in ids ==> id in rows)
  }

  /** A show row with a start time and foreign keys into both tables. */
  predicate ShowRowOk(row: Attrs, venues: map<int, Attrs>, artists: map<int, Attrs>)
  {
    && Get(row, "start_time").Num?
    && Get(row, "venue_id").Num? && Get(row, "venue_id").n in venues
    && Get(row, "artist_id").Num? && Get(row, "artist_id").n in artists
  }

  /** The ids of `ids` whose row satisfies `keep`, in order: a `WHERE`
      clause over a table scanned in order. */
  function Select(rows: map<int, Attrs>, ids: seq<int>, keep: Attrs -> bool): (r: seq<int>)
    ensures forall x :: x in r <==> x in ids && keep(Row(rows, x))
  {
    if ids == [] then []
    else
      var last := ids[|ids| - 1];
      Select(rows, ids[..|ids| - 1], keep) + (if keep(Row(rows, last)) then [last] else [])
  }

  /** A selection keeps the distinctness of the ids it selects from. */
  lemma {:induction false} SelectDistinct(rows: map<int, Attrs>, ids: seq<int>, keep: Attrs -> bool)
    requires Distinct(ids)
    ensures Distinct(Select(rows, ids, keep))
  {
    if ids != [] {
      var init := ids[..|ids| - 1];
      var last := ids[|ids| - 1];
      SelectDistinct(rows, init, keep);
      var before := Select(rows, init, keep);
      assert last !in init;
      if keep(Row(rows, last)) {
        var r := before + [last];
        assert Select(rows, ids, keep) == r;
        forall i, j | 0 <= i < j < |r|
          ensures r[i] != r[j]
        {
          assert r[i] == before[i] && before[i] in before;
          if j < |before| {
            assert r[j] == before[j];
          } else {
            assert r[j] == last && before[i] in init;
          }
        }
      }
    }
  }

  /** The ids of `ids` whose row has `Num(id)` in column `fk`, in order:
      the `shows` relationship of the venue or artist `id`. */
  function Referencing(rows: map<int, Attrs>, ids: seq<int>, fk: string, id: int): (r: seq<int>)
    ensures forall x :: x in r <==> x in ids && Get(Row(rows, x), fk) == Num(id)
  {
    Select(rows, ids, row => Get(row, fk) == Num(id))
  }

  /** The start times of the rows `ids`, in order. */
  function StartTimes(rows: map<int, Attrs>, ids: seq<int>): (r: seq<int>)
    ensures |r| == |ids|
    ensures forall k :: 0 <= k < |ids| ==> r[k] == TimeOf(Row(rows, ids[k]))
  {
    if ids == [] then [] else StartTimes(rows, ids[..|ids| - 1]) + [TimeOf(Row(rows, ids[|ids| - 1]))]
  }

  /** The filter of `get_upcoming_shows` on rows: a start after `date`. */
  function StartsAfter(date: int): Attrs -> bool
  {
    row => TimeOf(row) > date
  }

  /** Counting the start times after `date` counts the rows that start
      after `date`. */
  lemma {:induction false} CountAfterSelects(rows: map<int, Attrs>, ids: seq<int>, date: int)
    ensures CountAfter(StartTimes(rows, ids), date) == |Select(rows, ids, StartsAfter(date))|
  {
    if ids != [] {
      var n := |ids| - 1;
      CountAfterSelects(rows, ids[..n], date);
      assert StartTimes(rows, ids)[..n] == StartTimes(rows, ids[..n]);
    }
  }

  /** The id held by the foreign-key column `fk` of a row. */
  function Fk(row: Attrs, fk: string): int
  {
    if Get(row, fk).Num? then Get(row, fk).n else 0
  }

  /** A city and a state: the key of one area of the venue listing. */
  type Place = (Value, Value)

  function PlaceOf(row: Attrs): Place
  {
    (Get(row, "city"), Get(row, "state"))
  }

  /** `SELECT DISTINCT ON (city, state)`: each place of a venue once, in the
      order the places first occur in the table. */
  function Places(rows: map<int, Attrs>, ids: seq<int>): (r: seq<Place>)
    ensures forall p :: p in r <==> exists i :: 0 <= i < |ids| && PlaceOf(Row(rows, ids[i])) == p
  {
    if ids == [] then []
    else
      var init := Places(rows, ids[..|ids| - 1]);
      var p := PlaceOf(Row(rows, ids[|ids| - 1]));
      assert forall i :: 0 <= i < |ids| - 1 ==> ids[..|ids| - 1][i] == ids[i];
      init + (if p in init then [] else [p])
  }

  /** No place is listed twice. */
  lemma {:induction false} PlacesDistinct(rows: map<int, Attrs>, ids: seq<int>)
    ensures Distinct(Places(rows, ids))
  {
    if ids != [] {
      var init := Places(rows, ids[..|ids| - 1]);
      PlacesDistinct(rows, ids[..|ids| - 1]);
      var p := PlaceOf(Row(rows, ids[|ids| - 1]));
      if p !in init {
        var r := init + [p];
        assert Places(rows, ids) == r;
        forall i, j | 0 <= i < j < |r|
          ensures r[i] != r[j]
        {
          assert r[i] == init[i] && init[i] in init;
          if j < |init| {
            assert r[j] == init[j];
          } else {
            assert r[j] == p;
          }
        }
      }
    }
  }

  /** `filter_by(city=..., state=...)`: the venues at `place`, in table order. */
  function VenuesAt(rows: map<int, Attrs>, ids: seq<int>, place: Place): (r: seq<int>)
    ensures forall x :: x in r <==> x in ids && PlaceOf(Row(rows, x)) == place
  {
    Select(rows, ids, row => PlaceOf(row) == place)
  }

  /** Every venue of the table belongs to exactly one area of the listing:
      the one of its own city and state. */
  lemma EveryVenueInOneArea(rows: map<int, Attrs>, ids: seq<int>, id: int)
    requires Ordered(rows, ids) && id in rows
    ensures exists k :: 0 <= k < |Places(rows, ids)| && id in VenuesAt(rows, ids, Places(rows, ids)[k])
    ensures forall k, m ::
              (0 <= k < |Places(rows, ids)| && 0 <= m < |Places(rows, ids)| &&
               id in VenuesAt(rows, ids, Places(rows, ids)[k]) && id in VenuesAt(rows, ids, Places(rows, ids)[m])) ==> k == m
  {
    var places := Places(rows, ids);
    PlacesDistinct(rows, ids);
    var i :| 0 <= i < |ids| && ids[i] == id;
    assert PlaceOf(Row(rows, ids[i])) in places;
    var k :| 0 <= k < |places| && places[k] == PlaceOf(Row(rows, id));
    assert id in VenuesAt(rows, ids, places[k]);
  }

  /** No venue is listed twice within one area. */
  lemma AreaHasNoDuplicates(rows: map<int, Attrs>, ids: seq<int>, place: Place)
    requires Ordered(rows, ids)
    ensures Distinct(VenuesAt(rows, ids, place))
  {
    SelectDistinct(rows, ids, row => PlaceOf(row) == place);
  }

  /** Whether a row's name matches `name ILIKE '%term%'`; a missing name
      (NULL) matches nothing. */
  predicate NameMatches(row: Attrs, term: string)
  {
    Get(row, "name").Text? && Search.Matches(Get(row, "name").s, term)
  }

  /** The rows of `ids` whose name matches the term, in table order. */
  function Matching(rows: map<int, Attrs>, ids: seq<int>, term: string): (r: seq<int>)
    ensures forall x :: x in r <==> x in ids && NameMatches(Row(rows, x), term)
  {
    Select(rows, ids, row => NameMatches(row, term))
  }

  /** `ids` without `id`, order kept. */
  function Without(ids: seq<int>, id: int): (r: seq<int>)
    ensures forall x :: x in r <==> x in ids && x != id
    ensures Distinct(ids) ==> Distinct(r)
  {
    if ids == [] then []
    else
      var last := ids[|ids| - 1];
      assert forall i :: 0 <= i < |ids| - 1 ==> ids[..|ids| - 1][i] == ids[i];
      assert Distinct(ids) ==> last !in ids[..|ids| - 1];
      Without(ids[..|ids| - 1], id) + (if last == id then [] else [last])
  }

  /** The declared lengths of the `String(n)` columns, which PostgreSQL
      enforces for `VARCHAR(n)`. */
  const VenueLengths: map<string, nat> :=
    map["city" := 120, "state" := 120, "address" := 120, "phone" := 120,
        "image_link" := 500, "facebook_link" := 120, "genres" := 120]
  const ArtistLengths: map<string, nat> :=
    map["city" := 120, "state" := 120, "phone" := 120, "genres" := 120,
        "image_link" := 500, "facebook_link" := 120]

  /** Every string fits the length declared for its column. */
  predicate Fits(row: Attrs, lengths: map<string, nat>)
  {
    forall c :: c in lengths && c in row && row[c].Text? ==> |row[c].s| <= lengths[c]
  }

  /** The `Boolean` columns. */
  const VenueFlags: set<string> := {"seeking_talent"}
  const ArtistFlags: set<string> := {"seeking_venue"}

  /** Every `Boolean` column holds None, a boolean, 0 or 1: SQLAlchemy's
      `Boolean` type refuses any other value, a string included, when the
      row is flushed. */
  predicate Booleans(row: Attrs, flags: set<string>)
  {
    forall c :: c in flags && c in row ==> row[c] == Null || row[c].Flag? || row[c] == Num(0) || row[c] == Num(1)
  }

  /** Whether a commit writing `row` next to the rows `others` of its table
      succeeds: no other failure (`fault`), every NOT NULL column set, every
      string within its declared length, every `Boolean` column given a
      boolean, and, when the schema has it, the unique (name, city, state)
      constraint kept. */
  predicate Accepts(others: map<int, Attrs>, row: Attrs, required: set<string>, lengths: map<string, nat>,
                    flags: set<string>, unique: bool, fault: bool)
  {
    && !fault
    && Filled(row, required)
    && Fits(row, lengths)
    && Booleans(row, flags)
    && (unique ==> KeyFree(others, row))
  }

  /** A venue or artist table in a committed state: its scan order, its
      NOT NULL columns set, its strings within their declared lengths, its
      `Boolean` columns holding booleans and its genres stored as one
      string. */
  predicate TableOk(rows: map<int, Attrs>, ids: seq<int>, required: set<string>, lengths: map<string, nat>,
                    flags: set<string>)
  {
    && Ordered(rows, ids)
    && (forall id :: id in rows ==> Filled(rows[id], required) && Get(rows[id], "genres").Text?)
    && (forall id :: id in rows ==> Typed(rows[id], lengths, flags))
  }

  /** A row whose strings fit their columns and whose `Boolean` columns hold
      booleans. */
  predicate Typed(row: Attrs, lengths: map<string, nat>, flags: set<string>)
  {
    Fits(row, lengths) && Booleans(row, flags)
  }

  /** An accepted insert under a fresh id keeps the table consistent. */
  lemma InsertKeepsTable(rows: map<int, Attrs>, ids: seq<int>, next: int, row: Attrs, required: set<string>,
                         lengths: map<string, nat>, flags: set<string>, unique: bool)
    requires TableOk(rows, ids, required, lengths, flags) && (unique ==> UniqueKeys(rows))
    requires forall id :: id in rows ==> id < next
    requires Filled(row, required) && Get(row, "genres").Text? && Fits(row, lengths) && Booleans(row, flags)
    requires unique ==> KeyFree(rows, row)
    ensures TableOk(rows[next := row], ids + [next], required, lengths, flags)
    ensures unique ==> UniqueKeys(rows[next := row])
  {
    assert next !in ids;
    var ids' := ids + [next];
    forall i, j | 0 <= i < j < |ids'|
      ensures ids'[i] != ids'[j]
    {
      if j == |ids| {
        assert ids'[i] == ids[i] && ids[i] in rows;
      } else {
        assert ids'[i] == ids[i] && ids'[j] == ids[j];
      }
    }
  }

  /** An accepted update of a stored row keeps the table consistent. */
  lemma UpdateKeepsTable(rows: map<int, Attrs>, ids: seq<int>, id: int, row: Attrs, required: set<string>,
                         lengths: map<string, nat>, flags: set<string>, unique: bool)
    requires TableOk(rows, ids, required, lengths, flags) && (unique ==> UniqueKeys(rows))
    requires id in rows
    requires Filled(row, required) && Get(row, "genres").Text? && Fits(row, lengths) && Booleans(row, flags)
    requires unique ==> KeyFree(rows - {id}, row)
    ensures TableOk(rows[id := row], ids, required, lengths, flags)
    ensures unique ==> UniqueKeys(rows[id := row])
  {
    if unique {
      var updated := rows[id := row];
      forall a, b | a in updated && b in updated && a != b
        ensures Key(updated[a]) != Key(updated[b])
      {
        if a == id {
          assert b in rows - {id};
        } else if b == id {
          assert a in rows - {id};
        }
      }
    }
  }

  /** Removing a row and its id keeps the table consistent. */
  lemma DeleteKeepsTable(rows: map<int, Attrs>, ids: seq<int>, id: int, required: set<string>,
                         lengths: map<string, nat>, flags: set<string>, unique: bool)
    requires TableOk(rows, ids, required, lengths, flags) && (unique ==> UniqueKeys(rows))
    ensures TableOk(rows - {id}, Without(ids, id), required, lengths, flags)
    ensures unique ==> UniqueKeys(rows - {id})
  {
    var r := Without(ids, id);
    forall i | 0 <= i < |r|
      ensures r[i] in rows - {id}
    {
      assert r[i] in r;
    }
  }

  /** A venue that no show refers to can go without breaking a foreign key. */
  lemma DeleteKeepsShows(shows: map<int, Attrs>, showIds: seq<int>, venues: map<int, Attrs>, artists: map<int, Attrs>, id: int)
    requires Ordered(shows, showIds) && forall sid :: sid in shows ==> ShowRowOk(shows[sid], venues, artists)
    requires Referencing(shows, showIds, "venue_id", id) == []
    ensures forall sid :: sid in shows ==> ShowRowOk(shows[sid], venues - {id}, artists)
  {
    forall sid | sid in shows
      ensures Get(shows[sid], "venue_id") != Num(id)
    {
      assert sid in showIds;
      assert sid !in Referencing(shows, showIds, "venue_id", id);
    }
  }

  /** The show table in a committed state: its scan order, and every show
      with a start time and foreign keys naming a stored venue and artist. */
  predicate ShowTableOk(shows: map<int, Attrs>, showIds: seq<int>, venues: map<int, Attrs>, artists: map<int, Attrs>)
  {
    Ordered(shows, showIds) && forall id :: id in shows ==> ShowRowOk(shows[id], venues, artists)
  }

  /** The constraints of the schema the database enforces (NOT NULL, the
      `String(n)` lengths, the `Boolean` columns, the unique keys when
      declared, the show foreign keys) and the scan order of every table. */
  predicate Consistent(unique: bool, venues: map<int, Attrs>, venueIds: seq<int>, nextVenueId: int,
                       artists: map<int, Attrs>, artistIds: seq<int>, shows: map<int, Attrs>, showIds: seq<int>)
  {
    && TableOk(venues, venueIds, VenueRequired, VenueLengths, VenueFlags) && (forall id :: id in venues ==> id < nextVenueId)
    && TableOk(artists, artistIds, ArtistRequired, ArtistLengths, ArtistFlags)
    && (unique ==> UniqueKeys(venues) && UniqueKeys(artists))
    && ShowTableOk(shows, showIds, venues, artists)
  }

  /** Committing an accepted new venue keeps the database consistent. */
  lemma InsertVenueKeeps(unique: bool, venues: map<int, Attrs>, venueIds: seq<int>, nextVenueId: int,
                         artists: map<int, Attrs>, artistIds: seq<int>, shows: map<int, Attrs>, showIds: seq<int>,
                         row: Attrs)
    requires Consistent(unique, venues, venueIds, nextVenueId, artists, artistIds, shows, showIds)
    requires Filled(row, VenueRequired) && Get(row, "genres").Text? && (unique ==> KeyFree(venues, row))
    requires Fits(row, VenueLengths) && Booleans(row, VenueFlags)
    ensures Consistent(unique, venues[nextVenueId := row], venueIds + [nextVenueId], nextVenueId + 1,
                       artists, artistIds, shows, showIds)
  {
    InsertKeepsTable(venues, venueIds, nextVenueId, row, VenueRequired, VenueLengths, VenueFlags, unique);
  }

  /** Committing an accepted change of venue `id` keeps the database consistent. */
  lemma UpdateVenueKeeps(unique: bool, venues: map<int, Attrs>, venueIds: seq<int>, nextVenueId: int,
                         artists: map<int, Attrs>, artistIds: seq<int>, shows: map<int, Attrs>, showIds: seq<int>,
                         id: int, row: Attrs)
    requires Consistent(unique, venues, venueIds, nextVenueId, artists, artistIds, shows, showIds)
    requires id in venues
    requires Filled(row, VenueRequired) && Get(row, "genres").Text? && (unique ==> KeyFree(venues - {id}, row))
    requires Fits(row, VenueLengths) && Booleans(row, VenueFlags)
    ensures Consistent(unique, venues[id := row], venueIds, nextVenueId, artists, artistIds, shows, showIds)
  {
    UpdateKeepsTable(venues, venueIds, id, row, VenueRequired, VenueLengths, VenueFlags, unique);
  }

  /** Committing an accepted change of artist `id` keeps the database consistent. */
  lemma UpdateArtistKeeps(unique: bool, venues: map<int, Attrs>, venueIds: seq<int>, nextVenueId: int,
                          artists: map<int, Attrs>, artistIds: seq<int>, shows: map<int, Attrs>, showIds: seq<int>,
                          id: int, row: Attrs)
    requires Consistent(unique, venues, venueIds, nextVenueId, artists, artistIds, shows, showIds)
    requires id in artists
    requires Filled(row, ArtistRequired) && Get(row, "genres").Text? && (unique ==> KeyFree(artists - {id}, row))
    requires Fits(row, ArtistLengths) && Booleans(row, ArtistFlags)
    ensures Consistent(unique, venues, venueIds, nextVenueId, artists[id := row], artistIds, shows, showIds)
  {
    UpdateKeepsTable(artists, artistIds, id, row, ArtistRequired, ArtistLengths, ArtistFlags, unique);
  }

  /** Deleting a venue no show refers to keeps the database consistent. */
  lemma DeleteVenueKeeps(unique: bool, venues: map<int, Attrs>, venueIds: seq<int>, nextVenueId: int,
                         artists: map<int, Attrs>, artistIds: seq<int>, shows: map<int, Attrs>, showIds: seq<int>,
                         id: int)
    requires Consistent(unique, venues, venueIds, nextVenueId, artists, artistIds, shows, showIds)
    requires Referencing(shows, showIds, "venue_id", id) == []
    ensures Consistent(unique, venues - {id}, Without(venueIds, id), nextVenueId, artists, artistIds, shows, showIds)
  {
    DeleteKeepsTable(venues, venueIds, id, VenueRequired, VenueLengths, VenueFlags, unique);
    DeleteKeepsShows(shows, showIds, venues, artists, id);
  }

  class Database {
    /** Whether the schema carries the (name, city, state) unique
        constraints: models.py declares them, the copies in app.py do not. */
    const unique: bool
    var venues: map<int, Attrs>
    var venueIds: seq<int>
    var nextVenueId: int
    var artists: map<int, Attrs>
    var artistIds: seq<int>
    var shows: map<int, Attrs>
    var showIds: seq<int>

    /** What every committed state satisfies: `Consistent`, the constraints
        of the schema and the scan order of each table. */
    ghost predicate Valid()
      reads this
    {
      Consistent(unique, venues, venueIds, nextVenueId, artists, artistIds, shows, showIds)
    }

    /** An empty database with or without the unique constraints. */
    constructor (unique: bool)
      ensures Valid()
      ensures this.unique == unique
      ensures venues == map[] && artists == map[] && shows == map[]
    {
      this.unique := unique;
      venues := map[];
      venueIds := [];
      nextVenueId := 1;
      artists := map[];
      artistIds := [];
      shows := map[];
      showIds := [];
    }

    /** The shows of venue `id`, in table order. */
    function VenueShows(id: int): seq<int>
      reads this
    {
      Referencing(shows, showIds, "venue_id", id)
    }

    /** The shows of artist `id`, in table order. */
    function ArtistShows(id: int): seq<int>
      reads this
    {
      Referencing(shows, showIds, "artist_id", id)
    }

    /** `Venue.query.get(id)` with its `shows` relationship: a fresh venue
        object, and for each of its shows in table order a fresh show
        object linked to it and to an object of the show's artist. */
    method LoadVenue(id: int) returns (v: Venue)
      requires id in venues
      ensures fresh(v) && v.attrs == Materialised(venues[id], id)
      ensures |v.shows| == |VenueShows(id)|
      ensures forall k :: 0 <= k < |v.shows| ==> fresh(v.shows[k])
      ensures forall k :: 0 <= k < |v.shows| ==> ShowOfVenue(v.shows[k], VenueShows(id)[k], v, shows, artists)
      ensures forall i, j :: 0 <= i < j < |v.shows| ==> v.shows[i] != v.shows[j]
    {
      v := new Venue.Loaded(Materialised(venues[id], id));
      var loaded := LoadShowsOfVenue(VenueShows(id), v, shows, artists);
      v.shows := loaded;
    }

    /** `Artist.query.get(id)` with its `shows` relationship. */
    method LoadArtist(id: int) returns (a: Artist)
      requires id in artists
      ensures fresh(a) && a.attrs == Materialised(artists[id], id)
      ensures |a.shows| == |ArtistShows(id)|
      ensures forall k :: 0 <= k < |a.shows| ==> fresh(a.shows[k])
      ensures forall k :: 0 <= k < |a.shows| ==> ShowOfArtist(a.shows[k], ArtistShows(id)[k], a, shows, venues)
      ensures forall i, j :: 0 <= i < j < |a.shows| ==> a.shows[i] != a.shows[j]
    {
      a := new Artist.Loaded(Materialised(artists[id], id));
      var loaded := LoadShowsOfArtist(ArtistShows(id), a, shows, venues);
      a.shows := loaded;
    }

    /** Commits a new venue row under the next id, or rolls back. */
    method InsertVenue(row: Attrs, fault: bool) returns (ok: bool)
      requires Valid()
      requires Get(row, "genres").Text?
      modifies this
      ensures Valid()
      ensures ok == Accepts(old(venues), row, VenueRequired, VenueLengths, VenueFlags, unique, fault)
      ensures ok ==> venues == old(venues)[old(nextVenueId) := row]
      ensures ok ==> venueIds == old(venueIds) + [old(nextVenueId)] && nextVenueId == old(nextVenueId) + 1
      ensures !ok ==> venues == old(venues) && venueIds == old(venueIds) && nextVenueId == old(nextVenueId)
      ensures artists == old(artists) && artistIds == old(artistIds)
      ensures shows == old(shows) && showIds == old(showIds)
      ensures !ok ==> unchanged(this)
    {
      ok := Accepts(venues, row, VenueRequired, VenueLengths, VenueFlags, unique, fault);
      if ok {
        var id := nextVenueId;
        InsertVenueKeeps(unique, venues, venueIds, id, artists, artistIds, shows, showIds, row);
        venues := venues[id := row];
        venueIds := venueIds + [id];
        nextVenueId := id + 1;
      }
    }

    /** Commits the new row of venue `id`, or rolls back. */
    method UpdateVenue(id: int, row: Attrs, fault: bool) returns (ok: bool)
      requires Valid()
      requires id in venues
      requires Get(row, "genres").Text?
      modifies this
      ensures Valid()
      ensures ok == Accepts(old(venues) - {id}, row, VenueRequired, VenueLengths, VenueFlags, unique, fault)
      ensures venues == (if ok then old(venues)[id := row] else old(venues))
      ensures venueIds == old(venueIds) && nextVenueId == old(nextVenueId)
      ensures artists == old(artists) && artistIds == old(artistIds)
      ensures shows == old(shows) && showIds == old(showIds)
      ensures !ok ==> unchanged(this)
    {
      ok := Accepts(venues - {id}, row, VenueRequired, VenueLengths, VenueFlags, unique, fault);
      if ok {
        UpdateVenueKeeps(unique, venues, venueIds, nextVenueId, artists, artistIds, shows, showIds, id, row);
        venues := venues[id := row];
      }
    }

    /** Commits the new row of artist `id`, or rolls back. */
    method UpdateArtist(id: int, row: Attrs, fault: bool) returns (ok: bool)
      requires Valid()
      requires id in artists
      requires Get(row, "genres").Text?
      modifies this
      ensures Valid()
      ensures ok == Accepts(old(artists) - {id}, row, ArtistRequired, ArtistLengths, ArtistFlags, unique, fault)
      ensures artists == (if ok then old(artists)[id := row] else old(artists))
      ensures artistIds == old(artistIds)
      ensures venues == old(venues) && venueIds == old(venueIds) && nextVenueId == old(nextVenueId)
      ensures shows == old(shows) && showIds == old(showIds)
      ensures !ok ==> unchanged(this)
    {
      ok := Accepts(artists - {id}, row, ArtistRequired, ArtistLengths, ArtistFlags, unique, fault);
      if ok {
        UpdateArtistKeeps(unique, venues, venueIds, nextVenueId, artists, artistIds, shows, showIds, id, row);
        artists := artists[id := row];
      }
    }

    /** Commits the deletion of venue `id`, or rolls back. The ORM would set
        `venue_id` of the venue's shows to NULL, which their NOT NULL column
        refuses, so a venue that still has shows cannot be deleted. */
    method DeleteVenue(id: int, fault: bool) returns (ok: bool)
      requires Valid()
      requires id in venues
      modifies this
      ensures Valid()
      ensures ok == (!fault && old(VenueShows(id)) == [])
      ensures ok ==> venues == old(venues) - {id} && venueIds == Without(old(venueIds), id)
      ensures !ok ==> venues == old(venues) && venueIds == old(venueIds)
      ensures nextVenueId == old(nextVenueId)
      ensures artists == old(artists) && artistIds == old(artistIds)
      ensures shows == old(shows) && showIds == old(showIds)
      ensures !ok ==> unchanged(this)
    {
      ok := !fault && VenueShows(id) == [];
      if ok {
        DeleteVenueKeeps(unique, venues, venueIds, nextVenueId, artists, artistIds, shows, showIds, id);
        venues := venues - {id};
        venueIds := Without(venueIds, id);
      }
    }
  }

  /** The show objects of rows `sids`, in order, each linked to `venue`. */
  method LoadShowsOfVenue(sids: seq<int>, venue: Venue, shows: map<int, Attrs>, artists: map<int, Attrs>)
    returns (loaded: seq<Show>)
    ensures |loaded| == |sids|
    ensures forall k :: 0 <= k < |loaded| ==> fresh(loaded[k])
    ensures forall k :: 0 <= k < |loaded| ==> ShowOfVenue(loaded[k], sids[k], venue, shows, artists)
    ensures forall a, b :: 0 <= a < b < |loaded| ==> loaded[a] != loaded[b]
  {
    loaded := [];
    for i := 0 to |sids|
      invariant |loaded| == i
      invariant forall k :: 0 <= k < i ==> fresh(loaded[k])
      invariant forall k :: 0 <= k < i ==> ShowOfVenue(loaded[k], sids[k], venue, shows, artists)
      invariant forall a, b :: 0 <= a < b < i ==> loaded[a] != loaded[b]
    {
      var show := LoadShowOfVenue(sids[i], venue, shows, artists);
      loaded := loaded + [show];
    }
  }

  /** The show objects of rows `sids`, in order, each linked to `artist`. */
  method LoadShowsOfArtist(sids: seq<int>, artist: Artist, shows: map<int, Attrs>, venues: map<int, Attrs>)
    returns (loaded: seq<Show>)
    ensures |loaded| == |sids|
    ensures forall k :: 0 <= k < |loaded| ==> fresh(loaded[k])
    ensures forall k :: 0 <= k < |loaded| ==> ShowOfArtist(loaded[k], sids[k], artist, shows, venues)
    ensures forall a, b :: 0 <= a < b < |loaded| ==> loaded[a] != loaded[b]
  {
    loaded := [];
    for i := 0 to |sids|
      invariant |loaded| == i
      invariant forall k :: 0 <= k < i ==> fresh(loaded[k])
      invariant forall k :: 0 <= k < i ==> ShowOfArtist(loaded[k], sids[k], artist, shows, venues)
      invariant forall a, b :: 0 <= a < b < i ==> loaded[a] != loaded[b]
    {
      var show := LoadShowOfArtist(sids[i], artist, shows, venues);
      loaded := loaded + [show];
    }
  }

  /** One show of a venue being loaded, with an object of its artist. */
  method LoadShowOfVenue(sid: int, venue: Venue, shows: map<int, Attrs>, artists: map<int, Attrs>) returns (s: Show)
    ensures fresh(s) && ShowOfVenue(s, sid, venue, shows, artists)
  {
    var row := Row(shows, sid);
    var aid := Fk(row, "artist_id");
    var artist := new Artist.Loaded(Materialised(Row(artists, aid), aid));
    s := new Show.Loaded(Materialised(row, sid), venue, artist);
  }

  /** One show of an artist being loaded, with an object of its venue. */
  method LoadShowOfArtist(sid: int, artist: Artist, shows: map<int, Attrs>, venues: map<int, Attrs>) returns (s: Show)
    ensures fresh(s) && ShowOfArtist(s, sid, artist, shows, venues)
  {
    var row := Row(shows, sid);
    var vid := Fk(row, "venue_id");
    var venue := new Venue.Loaded(Materialised(Row(venues, vid), vid));
    s := new Show.Loaded(Materialised(row, sid), venue, artist);
  }

  /** The attributes of the object materialised from the row that column
      `fk` of show `sid` refers to. */
  function Related(shows: map<int, Attrs>, rows: map<int, Attrs>, sid: int, fk: string): Attrs
  {
    var id := Fk(Row(shows, sid), fk);
    Materialised(Row(rows, id), id)
  }

  /** A show object materialised from row `sid`, linked to `venue` and to
      an object materialised from its artist's row. */
  ghost predicate ShowOfVenue(s: Show, sid: int, venue: Venue, shows: map<int, Attrs>, artists: map<int, Attrs>)
    reads s, s.artist
  {
    && s.attrs == Materialised(Row(shows, sid), sid)
    && s.venue == venue
    && s.artist != null && s.artist.attrs == Related(shows, artists, sid, "artist_id")
  }

  /** A show object materialised from row `sid`, linked to `artist` and to
      an object materialised from its venue's row. */
  ghost predicate ShowOfArtist(s: Show, sid: int, artist: Artist, shows: map<int, Attrs>, venues: map<int, Attrs>)
    reads s, s.venue
  {
    && s.attrs == Materialised(Row(shows, sid), sid)
    && s.artist == artist
    && s.venue != null && s.venue.attrs == Related(shows, venues, sid, "venue_id")
  }
}
