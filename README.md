# Foursquare venue retriever: a Dafny model of its data shaping

The program is a command-line tool. It asks the Foursquare places-search API
for venues near an address (`-a`) or a `lat,long` pair (`-ll`), flattens each
returned venue into one row, and adds the rows to a SQLite table `Venue`.
This project models the deterministic part of `foursquare_cli/cli.py`:

- **Query parameters** (`Query.BuildParams`): `{near, limit}` when the
  address is truthy, otherwise `{ll, radius, limit}`. Values are passed through
  untouched. A Python `None` left in the dict is `None` in `Params`.
- **Results extraction** (`Query.ResultsOf`, `Query.GetFoursquareData`):
  `resp.get("results", [])` on the decoded reply. The HTTP call and
  `response.json()` are one parameter, `api: Params -> Option<Json>`. It
  returns `None` where either of them raises.
- **Venue normaliser** (`Venues.ExtractOne`, `Venues.ExtractAll`,
  `Venues.ExtractVenueInfo`): the method keeps the source's loop, which
  appends one record per item. It is proved equal to `ExtractAll`. That
  function is proved to map the items one to one, and to fail exactly at the
  first item that raises. Each record's fields are proved equal to the values
  at their paths (`Field.Path`), read through a generic path walker
  (`Json.At`).
- **The run** (`Cli.Run`, `Cli.ExitCode`): argparse rejection (status 2),
  the empty-results stop (message, status 1), an uncaught exception
  (status 1), or handing the records to the database session (`Stored`,
  status 0 as far as the model goes: the commit is not modelled).

Decoded JSON is the datatype `Json.Json`, and `JNull` is Python's `None`.
Record fields are the decoded values, copied as they are: the source checks
no types, so a record may hold, say, a number as its name. The region read
by `.get("region", None)` is `JNull` when the key is missing, exactly as
when the key holds JSON `null`; Python cannot tell these apart either.
Truthiness (`if not results`) follows Python: `None`, `False`, zero, `""`,
`[]` and `{}` are falsy. A number counts as zero only when its decimal
mantissa is zero; float rounding is not modelled.

An error names the record field whose lookup raised first, in the order the
dict literal evaluates its values (name, category, address, region, country,
latitude, longitude, distance), together with the item's index. Python raises
a `KeyError`, `IndexError` or `TypeError` there. The model does not tell
these apart.

Two consequences of the code that the model makes explicit:

- `-a ""` passes argparse, because the flag is given. But the empty string is
  falsy, so the coordinate branch runs and the parameter dict holds
  `ll = None` (`Cli.EmptyAddressSendsNoLocation`).
- A truthy `results` that is not a list (a string, an object, a non-zero
  number, `true`) makes the loop raise, either when iterating it or on the
  first item's `["name"]`. This is `Crashed(ResultsNotAList)`.

## Model

| member | source | states |
|---|---|---|
| Json.Truthy | foursquare_cli/cli.py:59 | the falsy decoded values are exactly None, False, a zero number, the empty string, the empty list and the empty object |
| Query.AddressGiven | foursquare_cli/cli.py:12 | the address test is Python truthiness of the argument: None and the empty string are falsy, any other string is truthy |
| Query.BuildParams | foursquare_cli/cli.py:12-15 | on every input exactly one of near and ll is a key, near exactly when the address is truthy, and limit is always the given limit |
| Query.AddressParams | foursquare_cli/cli.py:12-13 | with a truthy address the parameters have exactly the keys near and limit, holding the given address and limit |
| Query.CoordinateParams | foursquare_cli/cli.py:14-15 | with an absent or empty address they have exactly ll, radius and limit, each passed through unchanged |
| Query.ResultsOf | foursquare_cli/cli.py:22 | the reply's results member when present, an empty list when absent; a reply that is not an object raises |
| Query.GetFoursquareData | foursquare_cli/cli.py:9-22 | the API is asked with the built parameters; the result is a transport error exactly when there is no decoded reply, a not-an-object error exactly when the reply is not an object, and otherwise the reply's results member or an empty list |
| Venues.ExtractOne | foursquare_cli/cli.py:29-38 | the dict literal evaluated in order gives one record or the first field whose subscript raised; only the region is optional, so a failure never names it |
| Venues.ExtractOneValues | foursquare_cli/cli.py:29-38 | an item converts exactly when every required path exists; each required field then equals the value at its path, the category coming from the first category only, and the region is the value at location.region or None |
| Venues.ExtractOneFails | foursquare_cli/cli.py:29-38 | a failing item is reported with the first required field, in evaluation order, whose path is missing, every earlier required path being present |
| Venues.ExtractAll | foursquare_cli/cli.py:26-41 | extraction succeeds exactly when every item converts, and then has one record per item, in order, record i built from item i alone; a failure names the first failing item and its field and carries no records |
| Venues.ExtractAllFirstFailure | foursquare_cli/cli.py:28-39 | extraction fails with (k, f) exactly when item k fails in field f and every earlier item converts |
| Venues.ExtractVenueInfo | foursquare_cli/cli.py:25-41 | the loop that appends one record per item returns exactly ExtractAll of the results: the records of all items in order, or the first failure with no records |
| Cli.Accepted | foursquare_cli/cli.py:45-53 | argparse's rules: at least one and at most one of -a and -ll is given, and -l is given |
| Cli.ExitCode | foursquare_cli/cli.py:59-61 | status 0 exactly for storing, 2 exactly for rejected flags, 1 for the no-results stop and for every uncaught exception |
| Cli.Run | foursquare_cli/cli.py:44-75 | rejected flags exactly give the usage error, whatever the API answers; falsy fetched results exactly give the no-results stop, with no extraction; a fetch failure, a truthy non-list results value and a failed extraction of a truthy list are exactly the crashes, each iff its condition, the extraction crash carrying ExtractAll's first failure |
| Cli.StoredRecords | foursquare_cli/cli.py:58-75 | records are stored exactly when the flags are accepted, the results are a non-empty list and every item converts; they are then the items' records in order, never empty, and the status is 0 |
| Cli.EmptyAddressSendsNoLocation | foursquare_cli/cli.py:12-15 | an accepted empty address takes the coordinate branch, so the parameter dict holds ll as None and no near |
| Cli.LocationSent | foursquare_cli/cli.py:12-15 | with accepted flags and a non-empty address, the location that was given is sent under its own key, together with the limit |
| Cli.BothLocationsRejected | foursquare_cli/cli.py:47-49 | giving both -a and -ll is rejected with status 2 before any request |
| Cli.CoordinatesWithNoResults | foursquare_cli/cli.py:59-61 | coordinates with radius 1000, limit 10 and an empty results list give the no-results outcome with status 1 |
| Cli.RegionMissingStillStored | foursquare_cli/cli.py:33 | an item whose location lacks region is stored as exactly one record with region None and every other field equal to the item's values |

## Left out

- The HTTP request, the URL, the `accept` and `Authorization` headers, and `response.json()` (cli.py:10, 17-20) are network I/O. They are the `api` parameter.
- How `requests` encodes the parameter dict (for instance, it drops `None` values) is library behaviour and is not modelled.
- argparse's parsing of the command line (cli.py:45-53) is library behaviour. Only its acceptance rule is modelled (`Cli.Accepted`). Repeated flags and help output are not.
- `load_dotenv`, `os.getenv("API_KEY")` and both `print` calls (cli.py:54-56, 60, 65) are environment and console I/O.
- `Venue(**data)`, the session `add_all` and `commit` (cli.py:71-75), and all of `foursquare_cli/database.py` are ORM and SQLite plumbing. `Stored` marks the point where the records reach the session. An insert or commit failure is not modelled. `VenueRecord` only borrows the column list of `Venue` (database.py:5-14).
- Cli.ExitCode: gives status 0 for `Stored`, but `create_db_and_tables()` is commented out (cli.py:68). On a database without the `Venue` table, `session.commit()` (cli.py:75) raises and the real run exits with 1. The model does not capture this, because the database is not modelled.
- JSON decoding is left out, and with it duplicate object keys: a `map` holds each key once. Numeric precision is also left out, since latitude, longitude and distance are opaque copied values.
- Json.Truthy: ignores float rounding. Python decodes `1e-400` to `0.0`, which is falsy, so `{"results": 1e-400}` takes the no-results stop. The model treats it as truthy and gives `Crashed(ResultsNotAList)`. Both exit with 1.
- Python's different exception classes (`KeyError`, `IndexError`, `TypeError`, `AttributeError`) are merged into the model's error values. All of them end the run with status 1.
