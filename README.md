# Booking directory: a Dafny model

This is a model of the record logic and request handlers of a small venue/artist/show
booking directory. The original is a Flask web backend over SQLAlchemy: the record
classes in `models.py`, which `app.py` duplicates, and the controllers in `app.py`.
All of it is proved with Dafny.

- **Models** (`models.dfy`): the three record classes `Venue`, `Artist` and `Show`.
  - Each object keeps its attribute dictionary in `attrs` and is updated in place.
  - `Update` loops over a submission and assigns each key. Venue and Artist coerce the
    key `seeking_talent` to a boolean that is true only for `"y"`. Show assigns every
    value raw. For an artist this means `update` leaves a submitted `seeking_venue` as the raw
    string, as the source does; the artist's `Boolean` column then refuses it at commit.
  - `GetPastShows` and `GetUpcomingShows` loop over the relationship list. They pick the
    shows with `start_time <= date`, or `> date`. Each picked show is annotated in place
    with the other side's name and image link.
- **Store** (`store.dfy`): the database.
  - It holds three tables of row values in insertion order, with the queries the controllers
    issue: the `shows` relationship, `DISTINCT ON (city, state)`, `filter_by` and
    `ILIKE`.
  - Commits take effect as a whole or roll back. A commit fails when any of these hold:
    - a `NOT NULL` column is unset;
    - a `String(n)` value is too long;
    - a `Boolean` column is given something other than a boolean, 0 or 1 (a string, say);
    - the unique `(name, city, state)` constraint is broken;
    - a venue that is still referenced by a show is deleted;
    - some other fault happens, given as a parameter.
  - Every committed state satisfies `Valid()`.
- **Genres** (`genres.dfy`): `','.join` on write and `split(",")` on read, with their
  round trips.
- **Search** (`search.dfy`): `name ILIKE '%term%'` as a substring test, with ASCII case
  folding.
- **App** (`app.dfy`): the handlers.
  - `venues`, `search_venues`, `search_artists`, `show_venue` and `show_artist`.
  - The three form submissions: `create_venue_submission`, `edit_venue_submission` and
    `edit_artist_submission`.
  - `delete_venue`.
  - Each handler loads fresh objects from the database. It runs the model methods on them
    and either commits or rolls back.
  - `datetime.now()` is the parameter `today`. Instants are integers.

`app.py` repeats the three classes (app.py:33-148) with the same `update`, `get_past_shows`
and `get_upcoming_shows` bodies. The members of `Models` model both copies, and the table cites
the `models.py` copy.

`models.py` declares the unique `(name, city, state)` constraints. The copies of the classes
in `app.py` do not, and `app.py` is the module the application runs. The database therefore
carries a flag, `Store.Database.unique`, and every commit contract holds with the constraint
and without it.

Two behaviours of the code worth noting:
- Venue's `update` leaves `seeking_talent` untouched when the submission lacks the key. It is
  not set to false.
- Artist's `update` tests the key `seeking_talent`, not `seeking_venue`.

## Model

| member | source | states |
|---|---|---|
| Models.CoercedAll | models.py:25-31 | the assigned values have the submission's keys; every value but `seeking_talent` is the submitted one; `seeking_talent` becomes true exactly when the submitted value is "y" and false for any other value |
| Models.Venue.Update | models.py:24-32 | returns the same object; afterwards every submitted key holds its value, coerced for `seeking_talent`; every attribute not in the submission is unchanged; no other keys appear; the show list is untouched |
| Models.Artist.Update | models.py:73-81 | the same contract as Venue's: only the key `seeking_talent` is coerced, so a submitted `seeking_venue` is assigned as the submitted string; returns the same object |
| Models.Show.Update | models.py:119-122 | returns the same object; every submitted value is assigned as it is, with no coercion; other attributes are unchanged |
| Models.Venue.GetPastShows | models.py:35-43 | the result is exactly the shows with start time at or before `date`, in relationship order; each of those shows gets its artist's name and image link and no other change; the other shows are untouched; the list and the start times are unchanged |
| Models.Venue.GetUpcomingShows | models.py:46-54 | the result is exactly the shows with start time after `date`, in order; those shows get their artist's name and image link; the others are untouched |
| Models.Artist.GetPastShows | models.py:84-92 | the shows at or before `date`, in order; each gets its venue's name and image link; the other shows are untouched |
| Models.Artist.GetUpcomingShows | models.py:95-103 | the shows after `date`, in order; each gets its venue's name and image link; the others are untouched |
| Models.PastMembers | models.py:37-43 | a show is in the past list exactly when it is one of the shows and starts at or before `date` |
| Models.UpcomingMembers | models.py:48-54 | a show is in the upcoming list exactly when it is one of the shows and starts after `date` |
| Models.PartitionCovers | models.py:35-54 | past and upcoming together are a permutation of the shows (as multisets), so their lengths add up to the number of shows |
| Models.PartitionDisjoint | models.py:39 | no show is both past and upcoming; a show starting exactly at `date` is past and not upcoming |
| Models.CountSplit | models.py:39-50 | every start time is counted on exactly one side of `date` |
| Models.PastCount | models.py:35-43 | the number of past shows is the number of start times at or before `date` |
| Models.UpcomingCount | models.py:46-54 | the number of upcoming shows is the number of start times after `date` |
| Models.AnnotationKeepsTime | models.py:40-41 | annotating a show with the other side's name and image link leaves its start time as it was |
| Models.SplitByTimes | app.py:218-220 | splitting the shows by their start times once gives the same two lists as the split by the heap's current times; after the first call only the annotations have changed, so the second split sees the same times |
| Models.PastAmong | app.py:218-219 | the past shows taken by the recorded start times number as many as the start times at or before `date` |
| Models.UpcomingAmong | app.py:220-221 | the upcoming shows taken by the recorded start times number as many as the start times after `date` |
| Models.PastAmongMembers | app.py:218-219 | a show is among the past ones exactly when some position holding it has a start time at or before `date` |
| Models.UpcomingAmongMembers | app.py:220-221 | a show is among the upcoming ones exactly when some position holding it has a start time after `date` |
| Models.AmongCovers | app.py:218-221 | the past and upcoming lists of a detail page together are a permutation of the record's shows |
| Models.Venue.constructor | app.py:250 | `Venue()` has no attributes and no shows |
| Store.Referencing | models.py:115-116 | the `shows` relationship: exactly the show ids whose foreign key names the record |
| Store.Database.LoadVenue | app.py:215 | `Venue.query.get` on an existing id: a fresh venue holding the row and its id; one fresh, distinct show object per show of the venue in insertion order; each linked to the venue and to an object holding its artist's row |
| Store.Database.LoadArtist | app.py:313 | the same for an artist: its shows, each linked to the artist and to an object holding its venue's row |
| Store.LoadShowsOfVenue | models.py:115-116 | one distinct, fresh show object per show id, in order, each linked back to the venue |
| Store.LoadShowsOfArtist | models.py:115-116 | one distinct, fresh show object per show id, in order, each linked back to the artist |
| Store.Places | app.py:179 | `DISTINCT ON (city, state)`: a place is listed exactly when some venue is there |
| Store.PlacesDistinct | app.py:179 | no place is listed twice |
| Store.VenuesAt | app.py:183 | `filter_by(city, state)`: exactly the venues whose city and state are the area's |
| Store.EveryVenueInOneArea | app.py:179-191 | every venue lies in exactly one area of the listing |
| Store.AreaHasNoDuplicates | app.py:183 | no venue appears twice within an area |
| Store.Matching | app.py:201 | `ILIKE '%term%'`: exactly the records whose name contains the term ignoring case |
| Store.CountAfterSelects | models.py:50 | counting the start times after `date` counts exactly the rows that start after `date` |
| Store.Without | app.py:273 | the scan order without the deleted id: the other ids, still distinct |
| Store.InsertKeepsTable | app.py:253-254 | inserting an accepted row under a fresh id keeps the scan order, the `NOT NULL` columns, the `String(n)` lengths, the `Boolean` column types and, with the constraint, the unique keys |
| Store.UpdateKeepsTable | app.py:386-387 | an accepted update of a stored row keeps the same facts, the key checked against the other rows only |
| Store.DeleteKeepsTable | app.py:273-274 | removing a row and its id keeps the same facts |
| Store.DeleteKeepsShows | models.py:110 | deleting a venue that no show refers to leaves every show's foreign keys valid |
| Store.InsertVenueKeeps | models.py:21 | an accepted new venue keeps the whole database consistent, the unique constraint included |
| Store.UpdateVenueKeeps | models.py:21 | an accepted change of a venue keeps the database consistent |
| Store.UpdateArtistKeeps | models.py:70 | an accepted change of an artist keeps the database consistent |
| Store.DeleteVenueKeeps | models.py:110 | deleting an unreferenced venue keeps the database consistent |
| Store.Database.constructor | models.py:5-116 | an empty database satisfies `Valid()`: the `NOT NULL` columns, the `String(n)` lengths, the `Boolean` column types, the unique keys, the show foreign keys and the scan order of each table |
| Store.Database.InsertVenue | app.py:253-258 | the commit succeeds exactly when the row is accepted: no fault, `NOT NULL` columns set, lengths kept, `Boolean` columns given booleans, and the key free if the constraint exists; on success the row is stored under the next id at the end of the table; on failure nothing changes; other tables are unchanged |
| Store.Database.UpdateVenue | app.py:386-391 | succeeds exactly when the new row is accepted next to the other venues; then it replaces the row; otherwise nothing changes |
| Store.Database.UpdateArtist | app.py:353-358 | the same for an artist's row |
| Store.Database.DeleteVenue | app.py:273-277 | succeeds exactly when there is no fault and no show refers to the venue; then exactly that venue is removed; otherwise nothing changes |
| Genres.Join | app.py:245 | `','.join`: the empty list gives "", one item gives itself |
| Genres.Split | app.py:216 | `split(",")`: at least one piece, and no piece contains a comma |
| Genres.SplitJoin | app.py:216 | splitting the join gives back any non-empty list of comma-free genres |
| Genres.JoinSplit | app.py:216 | joining the pieces of a stored string rebuilds it |
| Genres.NoGenresShowOneBlank | app.py:244-246 | a form with no genre selected stores "" and shows one empty genre |
| Genres.CommaInGenreSplits | app.py:216 | a genre containing a comma comes back as two genres |
| Search.Lower | app.py:201 | the name and term with ASCII capitals lowered, same length |
| Search.ContainsMeansOccurs | app.py:201 | the left-to-right substring test holds exactly when the term occurs at some position |
| Search.EmptyTermMatchesAll | app.py:199-201 | the default empty term matches every name |
| Search.MatchIgnoresTermCase | app.py:201 | whether a name matches does not depend on the case the term is typed in |
| Search.MatchInsideName | app.py:201 | "art" matches "Smart Bar" |
| Search.MatchOtherCase | app.py:201 | "art" matches "ARTDECO" |
| Search.NoMatchWithoutTerm | app.py:201 | "art" does not match "Cafe" |
| App.CountVenueUpcoming | app.py:186 | `len(venue.get_upcoming_shows(today))` is the number of the venue's start times after `today` |
| App.CountArtistUpcoming | app.py:302 | the same for an artist |
| App.ListedVenueCountsUpcoming | app.py:186 | a listed venue's `num_upcoming_shows` is the number of its shows that start after `today` |
| App.ListedArtistCountsUpcoming | app.py:302 | a listed artist's `num_upcoming_shows` is the number of its shows that start after `today` |
| App.ListVenues | app.py:185-186 | each given venue, in order, with its `num_upcoming_shows` |
| App.ListArtists | app.py:301-302 | each given artist, in order, with its `num_upcoming_shows` |
| App.Venues | app.py:176-193 | one area per distinct place, in first-occurrence order; each area holds exactly the venues of its city and state, in insertion order, each with its upcoming count |
| App.SearchVenues | app.py:196-207 | `data` is exactly the matching venues in insertion order, each with its upcoming count; `count` is their number |
| App.SearchArtists | app.py:294-305 | `data` is exactly the matching artists, each with its upcoming count; `count` is their number |
| App.SplitVenueShows | app.py:218-220 | the two calls on a loaded venue give the past and the upcoming shows by the recorded start times; the show list is the same afterwards, and every show object then holds its row plus its artist's name and image link |
| App.SplitArtistShows | app.py:316-318 | the same for a loaded artist: the past and upcoming split, and every show object then holds its row plus its venue's name and image link |
| App.PastVenueShows | app.py:218 | `get_past_shows` on a loaded venue: the past shows by the recorded start times; exactly those shows gain their artist's name and image link, the others keep their rows, and no start time moves |
| App.UpcomingVenueShows | app.py:220 | `get_upcoming_shows` after it: the upcoming shows by the same start times, and afterwards every show holds its row plus its artist's name and image link |
| App.PastArtistShows | app.py:316 | `get_past_shows` on a loaded artist: the past shows; exactly those gain their venue's name and image link, and no start time moves |
| App.UpcomingArtistShows | app.py:318 | `get_upcoming_shows` after it: the upcoming shows, and afterwards every show holds its row plus its venue's name and image link |
| App.FillVenueDetail | app.py:216-221 | the venue's genres become the split list; `past_shows_count` and `upcoming_shows_count` are the numbers of start times at or before and after `today`; the two lists are the split; every show object holds its row plus its artist's name and image link |
| App.FillArtistDetail | app.py:314-319 | the same for an artist, each show annotated with its venue's name and image link |
| App.LoadVenueForDetail | app.py:215 | the loaded venue holds its row; its show objects are fresh, distinct, those of its show rows in order, and carry the rows' start times |
| App.LoadArtistForDetail | app.py:313 | the same for an artist |
| App.VenueShowsLoaded | app.py:215 | the shows a loaded venue holds are linked to it, hold their rows and their artists' rows, and carry the rows' start times |
| App.ArtistShowsLoaded | app.py:313 | the same for the shows of a loaded artist and their venues |
| App.ShowVenue | app.py:212-221 | for an existing venue: a fresh object holding the venue's detail attributes; its show objects are fresh and distinct; its k-th show object is the object of the venue's k-th show row in insertion order, linked to the venue and holding that row plus its artist's name and image link; past and upcoming are the split of those shows by their start times |
| App.ShowArtist | app.py:310-319 | the same for an existing artist: its show objects are fresh and distinct, are those of its show rows, linked to the artist and annotated with their venue's name and image link |
| App.DetailCountsAddUp | app.py:218-221 | `past_shows_count + upcoming_shows_count` is the record's number of shows |
| App.Submitted | app.py:242-246 | the form's fields as strings, with `genres` replaced by the comma-join of the selected genres |
| App.CreatedRowHoldsForm | app.py:242-254 | the inserted row has exactly the venue columns present on the form, plus the genres; it holds the form's strings, the joined genres, and `seeking_talent` true exactly for "y" |
| App.CreateNeedsRequiredFields | models.py:9-16 | a create fails the `NOT NULL` check exactly when the form lacks a name, city, state or address |
| App.GenresShownAsSubmitted | app.py:244-246 | genres submitted on a form come back as the same list on the detail page when at least one is selected and none contains a comma |
| App.CreateVenueSubmission | app.py:241-258 | succeeds exactly when the commit accepts the row built from the form; then that row is stored under the next id at the end of the table and every other table and id list is unchanged; on failure, rollback leaves the whole database unchanged |
| App.EditVenueSubmission | app.py:374-391 | succeeds exactly when the venue exists and the commit accepts its row updated from the form; then only that row is replaced and every other table, id list and the id counter are unchanged; otherwise the whole database is unchanged |
| App.EditArtistSubmission | app.py:341-358 | the same for an artist: only that artist's row is replaced, or the whole database is unchanged |
| App.EditKeepsUnsubmitted | app.py:377-387 | an edit writes every submitted column's value; it keeps the stored value of each column the form leaves out; it always writes the genres |
| App.ArtistSeekingVenueLeftRaw | models.py:75-80 | the row an artist edit hands to the commit holds the submitted `seeking_venue` string; the coerced `seeking_talent` is no artist column and is never written |
| App.ArtistEditWithSeekingVenueFails | app.py:350-358 | an artist edit whose form carries `seeking_venue` is always refused by the commit, because the `Boolean` column gets a string, and so it rolls back |
| App.VenueSeekingTalentIsBoolean | app.py:250-254 | the coerced `seeking_talent` never makes the venue's `Boolean` column refuse a created row; an edited row passes the check when the form carries the field or the stored row holds a boolean |
| App.ArtistEditBooleanCheck | app.py:350-354 | starting from a stored artist row whose `seeking_venue` is a boolean, an edit passes the `Boolean` check exactly when the form does not carry `seeking_venue` |
| App.EditKeepsLengths | app.py:383-387 | starting from a stored row that fits its `String(n)` columns, an edited row fits them whenever the submitted strings and the joined genres do; the columns left off the form keep their stored values |
| App.StoredRowsTyped | models.py:10-18 | every stored venue and artist row of a valid database fits its `String(n)` lengths and holds booleans in its `Boolean` columns |
| App.DeleteVenue | app.py:269-277 | succeeds exactly when the venue exists, no show refers to it and the commit has no fault; then exactly that venue is removed and every other table, id list and the id counter are unchanged; otherwise the whole database is unchanged |

## Left out

- Web I/O: Flask routing, templates, `flash` messages, `redirect`, `abort` and the HTTP
  status codes. Each writing handler returns only success or failure.
- The session mechanics: `add`, `close`, the identity map and lazy loading. Each handler
  loads fresh objects, and a rollback leaves the tables as they were.
  - PostgreSQL also uses up a sequence value on a rolled-back insert. That is not modelled:
    the next id advances only on success.
- Commit faults other than `NOT NULL`, string length, the unique key and the show foreign
  keys, such as a lost connection. They are the parameter `fault`.
- Column type conversion at commit is not modelled for integers and `DateTime`: strings are
  not converted and are stored as assigned. Only the `Boolean` columns' refusal of a
  non-boolean value is modelled (`Store.Booleans`), as SQLAlchemy 1.2 and later do it. Older
  SQLAlchemy versions would pass `"y"` to PostgreSQL, which reads it as true; that is not modelled.
- PostgreSQL accepts an over-long `VARCHAR(n)` value when the excess is all spaces and cuts it
  to `n` characters. The model refuses every over-long string (`Store.Fits`) and never truncates.
- `datetime.now()`: the reference instant is the parameter `today`, and instants are integers.
- `format_datetime` (app.py:154-160): a wrapper over date libraries.
- The `str(show.start_time)` conversion on the detail pages (app.py:224-228): display only.
- The error branch of `create_venue_submission`: `data.name` on a dict (app.py:260) raises a
  second exception inside the handler. The model returns a failure with the tables rolled back.
- `show_venue` and `show_artist` on a missing id: `query.get` gives None (app.py:215, app.py:313)
  and the handler crashes. `App.ShowVenue` and `App.ShowArtist` require the id to exist.
- Shows without a start time: Python cannot compare None with the reference instant. A valid
  database holds only shows with a start time (`Store.ShowRowOk`).
- `DISTINCT ON` without `ORDER BY` picks an unspecified row per place. The model lists the
  places in the order they first occur in the table.
- `ILIKE` wildcards and escapes: `%` and `_` inside a term, the default escape character `\`
  (so `a\b` matches names containing `ab`), and case folding beyond ASCII letters. Terms are
  matched as literal text.
- The other handlers: `index`, `artists`, `create_artist_submission`, `create_show_submission`,
  `shows` and the GET form pages. The form classes, logging, `app.run` and migrations are also
  out. `create_show_submission`'s use of `Show.update` is out too; only `Models.Show.Update`
  itself is modelled.
- A form field named `id`: in the source `setattr` assigns it to the primary key, so a create
  or an edit could choose or change a record's id. In the model `Submitted` keeps it as a string,
  but a row never stores the key as a column: the id is the key of the row map and never changes.
- A form field named `shows`: in the source `setattr` onto the relationship raises, and the
  handler rolls back. In the model it becomes a plain attribute that the stored row drops, so
  the commit can succeed.
- Concurrent requests: the model runs one request at a time, with no interleaving. The source's
  UPDATE writes only the changed columns, so two concurrent edits of different columns of one
  record both survive; the model's `EditedRow` writes the whole row, which is the same only
  when requests run one after another.
- Query order: `filter_by`, `ILIKE` and the `shows` relationship carry no `ORDER BY`, so the
  database may return rows in any order. The model returns them in insertion order.
- App.ShowVenue: `past_shows` and `upcoming_shows` are returned as out-parameters, not as
  attributes of the venue object; the same holds for `App.ShowArtist`.
