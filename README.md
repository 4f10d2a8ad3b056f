# saisie-stock: a verified model of the stock-entry backend

The backend lets a bookstore clerk record a book (its EAN barcode, shelf
category "rayon", optional sub-category "sous rayon" and condition "état")
as one row of a remote Airtable table. This project models, in Dafny, the
three pieces of logic of `main.py` that are more than web plumbing:

- **Option lookup** (`SelectOptions`): the drop-down lists. `ETAT` gives the
  five condition codes `EC, BE, TB, CN, NE` in that order; `RAYON` gives the
  186 category names, copied into an array and sorted in place by their
  lower-case form; any other field gives the empty list.
- **Request validation and record building** (`StockEntry.Validate`,
  `StockEntry.BuildRecord`): the fail-fast chain (store client initialised →
  500; body absent or empty → 400; `ean`/`rayon`/`etat` absent or empty →
  400; EAN not 13 digits → 400, naming the value), then the record with the
  columns `EAN`, `RAYON`, `ETAT` and, only for a non-empty sub-category,
  `sous rayon`.
- **Store-error translation** (`StockEntry.ClassifyInsertError`,
  `StockEntry.ExtractUnknownField`): the error text of a failed insert is
  searched for `NOT_FOUND`, then `AUTHENTICATION_REQUIRED`/`INVALID_API_KEY`,
  then `INVALID_REQUEST_UNKNOWN_FIELD_NAME`, then `INVALID_VALUE_FOR_COLUMN`;
  only the last gives 400, everything else 500. For an unknown field the
  name is cut out of the text as `split("name ")[-1].split("'")[0]`.

`StockEntry.AddStockEntry` puts these together. The store is not modelled:
the handler receives the outcome of its insert call (`Inserted` or
`Failed` with the error text) as a parameter and returns the response and
the record it sent, if any, so "no insert on a rejected request" is a
postcondition.

Python built-ins are modelled in `Strings`: `sub in s` (`Contains`),
`s.split(sep)[-1]` (`SplitLast`), `s.split(c)[0]` (`SplitFirst`),
`str.lower` (`Lower`, ASCII letters only) and `<=` on `str` (`LexLe`,
code-point lexicographic order). Model choices:

- A request body is `Option<map<string, Option<string>>>`: `None` when no
  JSON body was decoded, JSON `null` values as `None`. A value is "falsy"
  when it is absent, null or the empty string; the body is falsy when
  absent or an empty object.
- A digit is `'0'..'9'`. Python's `str.isdigit` also accepts other Unicode
  digits; the model is stricter there.
- `Lower` lowers `A`–`Z` only. Every upper-case letter in the category list
  is ASCII (its only non-ASCII letter is the lower-case `é`), so on that
  list it agrees with `str.lower`.
- Messages are a datatype (`Message`) carrying the values the French text
  embeds (the EAN, the extracted field name, the raw error text); the
  wording itself is not modelled.
- The unknown-field extraction is modelled as written. It reads what follows
  the last `name ` up to the first quote, so when that `name ` is the one
  followed by a quote (`... name 'X'`) the result is the empty string, not
  `X` (`ExtractIsEmptyWhenLastNameIsQuoted`).

The handler never checks that `rayon` is a known category or that `etat`
is one of the five codes: any non-empty value is sent to the store, and
whatever error text comes back is classified by `ClassifyInsertError`
(400 only for `INVALID_VALUE_FOR_COLUMN`).

## Model

| member | source | states |
|---|---|---|
| `SelectOptions.GetSelectOptions` | main.py:31-83 | `ETAT` gives exactly `["EC","BE","TB","CN","NE"]`; `RAYON` gives a list of the same length and multiset as the literal category list, sorted non-decreasingly by lower-case key; any other field gives `[]` |
| `SelectOptions.SortByKey` | main.py:80 | after the in-place sort the array is sorted by lower-case key and is a permutation of its old contents |
| `SelectOptions.AdjacentSortedIsSorted` | main.py:80 | a list whose neighbours are in key order is sorted pairwise (the order the sort establishes is transitive) |
| `Strings.LexLeTotal` | main.py:80 | any two keys are comparable under Python's string order |
| `Strings.LexLeTransitive` | main.py:80 | Python's string order is transitive |
| `StockEntry.Validate` | main.py:118-134 | accepts exactly when the store is ready, the body is non-empty, `ean`/`rayon`/`etat` are non-empty and the EAN is 13 digits; an accepted entry carries the request's values unchanged; each rejection (500 store, 400 no data, 400 missing fields, 400 bad EAN naming the value) fires iff every earlier check passed and its own failed; 500 only for the missing store |
| `StockEntry.ValidRequestAccepted` | main.py:125-140 | the request `ean=1234567890123, rayon=cinema, etat=BE` is accepted with those values |
| `StockEntry.ShortEanRejected` | main.py:133-134 | the EAN `12345` is refused with 400 and the message carries `12345` |
| `StockEntry.BuildRecord` | main.py:136-142 | the record has exactly the keys `EAN`, `RAYON`, `ETAT`, plus `sous rayon` iff the sub-category is non-empty, each holding the entry's value |
| `StockEntry.ClassifyInsertError` | main.py:153-166 | status is 400 iff the text contains `INVALID_VALUE_FOR_COLUMN` and none of the earlier codes, and then the message is the rejected-value one; else 500; `NOT_FOUND` wins over everything; API-key error iff no `NOT_FOUND` and an auth code; unknown-field error iff only the unknown-field code among the earlier ones, whose field name is `ExtractUnknownField` of the text; text with none of the codes gives 500 with the raw text |
| `StockEntry.ExtractUnknownField` | main.py:161 | the result never contains a quote; without `name '` in the text it is `inconnu`; otherwise it is the text that starts right after the last `name ` and runs to the next quote or the end |
| `StockEntry.ExtractIsEmptyWhenLastNameIsQuoted` | main.py:161 | when the last `name ` is followed by a quote the extraction yields the empty string |
| `Strings.SplitLast` | main.py:161 | for a non-empty separator without self-overlap (such as `name `), `s.split(sep)[-1]` is the suffix after the last occurrence of `sep` (all of `s` when there is none) and contains no `sep` |
| `StockEntry.NameSpaceNoSelfOverlap` | main.py:161 | the separator `name ` has no proper prefix that is also its suffix, so `split("name ")[-1]` is the text after its last occurrence |
| `Strings.SplitFirst` | main.py:161 | `s.split(c)[0]` is the longest prefix of `s` without `c`, followed in `s` by `c` or the end |
| `StockEntry.AddStockEntry` | main.py:116-166 | a record is sent iff validation accepts, and then it is the record of the entry; a rejection is returned unchanged with nothing sent; a successful insert gives 201 naming the EAN, a failed one the classified error; 201 iff a record was sent and inserted |

## Left out

- Flask routing, page and static-file serving, `jsonify`, `app.run` and the `PORT` setting (main.py:88-98, 170-172): web plumbing.
- `get_stock_options` (main.py:100-112): it only calls the lookup twice; its exception fallback returns an empty `rayons` and the same five codes as `ETAT`, for an exception the lookup cannot raise.
- The Airtable client and its `insert` call (main.py:18-24, 148): a foreign network library. The client's initialisation is the `storeReady` flag, the insert is the `InsertOutcome` parameter; a successful insert is assumed to return a row id.
- Environment configuration and `print` logging (main.py:7-10, 21, 36, 39, 145, 150, 155): side effects without a behavioural contract.
- JSON decoding by `request.get_json()`: non-object bodies and non-string values (numbers, booleans) are not modelled, so the `isinstance(ean, str)` test always holds in the model.
- SelectOptions.GetSelectOptions: states sortedness and permutation but not the stability of Python's sort, which decides only between names with equal lower-case forms.
- SelectOptions.GetSelectOptions: `str.lower` is restricted to ASCII letters as described above.
- StockEntry.Validate: `str.isdigit` is restricted to the ASCII digits `0`-`9` as described above.
