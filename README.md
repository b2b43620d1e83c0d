# WOTA spotter: locator, nearest-summit and display logic in Dafny

The WOTA spotter is a web application for spotting amateur-radio activations
of Lake District summits ("Wainwrights on the Air"). Apart from database and
HTTP plumbing, it holds three small pieces of self-contained logic. This
project models them and proves their properties:

- **Maidenhead locator encoder** (`src/utils/maidenhead.ts`, module
  `Maidenhead`). It turns a latitude/longitude into a 2-, 4-, 6- or
  8-character locator of the Maidenhead Locator System. The model works on
  exact reals. JavaScript's truncating `%` is written out (`JsRem`), and so are
  `Math.floor` (`.Floor`) and `String.fromCharCode`. Each of the eight indices
  keeps the formula the source uses, including the level-4 formula, which
  takes a remainder of the raw shifted coordinate. The proofs cover:
  - the range errors, with the latitude checked first;
  - the output length for every `precision`;
  - prefix stability across precisions;
  - the alphabet of every pair, including the `S` field letter that
    lon = 180 or lat = 90 produces;
  - cell containment: reading the locator back gives a cell of the right
    size that holds the point;
  - that the level-4 formula agrees, in exact arithmetic, with subdividing
    what is left of the coordinate inside its subsquare.
- **Nearest-summit scan** (`findClosestSummit` in `src/utils/geolocation.ts`,
  module `Geolocation`). This is a method with the source's `for` loop,
  `continue` and strict-`<` update. `minDistance` starts at `Infinity`, which
  is modelled by the `Extended` datatype. The library distance
  `LatLon.distanceTo` is a function-valued parameter `dist`, so the
  properties hold for every distance function. The method promises:
  - the result is null exactly when no summit has both coordinates;
  - otherwise it is an element of the input with both coordinates;
  - no located summit is nearer than it;
  - every located summit before it in the input is strictly farther (the
    earliest summit wins a tie).
  
  The input is an immutable sequence, so the scan cannot modify it.
- **Display formatters** (`src/utils/formatters.ts`, module `Formatters`, on
  top of module `Decimal`). These are `formatSotaId`, `formatWotaId` and
  `formatHeight`, plus the null branches of `formatDate` and
  `formatDateTime`. `Decimal` models JavaScript's `String(n)` for a
  non-negative integer (`Show`) and `padStart` with a one-character pad
  (`PadStart`). It also has a reader, `Value`, that turns a digit string back
  into its number. The proofs cover:
  - every rendered number reads back as the number it renders;
  - padding never truncates, and pads to exactly three digits below 1000;
  - `formatWotaId` splits at 214, between the `LDW-` and `LDO-` prefixes;
  - `formatWotaId` is one-to-one;
  - each display that `src/utils/formatters.test.ts` fixes for `formatSotaId`,
    `formatWotaId` and `formatHeight` comes out exactly, one lemma per value.

Module `Wrappers` holds `Option` (JavaScript `null`/`undefined`) and `Result`
(a thrown `Error` becomes `Err`).

Points where the code and its own comments or types leave room, read from the code:
- `src/utils/maidenhead.ts:6` documents `precision` as 1 to 4, but the code
  accepts any integer. Below 2 it gives 2 characters, and from 4 up it
  gives 8.
- `src/utils/maidenhead.ts:4-5` give the ranges -90 to 90 and -180 to 180, and
  the checks at lines 10 and 13 include both ends. So lon = 180 and lat = 90
  are accepted, and lines 24-25 encode them with field letter `S`, one past
  the `R` that ends the usual field alphabet.
- `src/utils/geolocation.ts:41` and `:47` return the summit record itself, or
  null; the model returns the element of the input sequence.
- The model assumes nothing about the distance, neither symmetry nor
  non-negativity: `src/utils/geolocation.ts:65` only compares its values.

## Model

| member | source | states |
|---|---|---|
| `Decimal.Show` | src/utils/formatters.ts:8 | `String(n)` for n ≥ 0 is a non-empty digit string that reads back as n, with no leading zero, and its length is the number of decimal digits of n |
| `Decimal.PadStart` | src/utils/formatters.ts:8 | `padStart(k, c)` gives length max(\|s\|, k), ends with s unchanged (never truncates), and fills the front with c |
| `Decimal.PaddedValue` | src/utils/formatters.ts:8 | zero-padding a rendered number keeps a digit string that reads back as the same number |
| `Formatters.PadId` | src/utils/formatters.ts:8 | `String(n).padStart(3, '0')` reads back as n, has 3 characters below 1000 and is the plain rendering from 100 up |
| `Formatters.FormatSotaId` | src/utils/formatters.ts:6-10 | null maps to null, and only null does; otherwise the result is `G/LD-` followed by exactly PaddedWidth(id) digits (three below 1000, the plain digits from 1000 up) that read back as the id |
| `Formatters.FormatSotaIdOf1` | src/utils/formatters.test.ts:6-10 | 1 is shown as `G/LD-001` |
| `Formatters.FormatSotaIdOf5` | src/utils/formatters.test.ts:6-10 | 5 is shown as `G/LD-005` |
| `Formatters.FormatSotaIdOf9` | src/utils/formatters.test.ts:6-10 | 9 is shown as `G/LD-009` |
| `Formatters.FormatSotaIdOf10` | src/utils/formatters.test.ts:12-16 | 10 is shown as `G/LD-010` |
| `Formatters.FormatSotaIdOf42` | src/utils/formatters.test.ts:12-16 | 42 is shown as `G/LD-042` |
| `Formatters.FormatSotaIdOf99` | src/utils/formatters.test.ts:12-16 | 99 is shown as `G/LD-099` |
| `Formatters.FormatSotaIdOf100` | src/utils/formatters.test.ts:18-22 | 100 is shown as `G/LD-100` |
| `Formatters.FormatSotaIdOf123` | src/utils/formatters.test.ts:18-22 | 123 is shown as `G/LD-123` |
| `Formatters.FormatSotaIdOf999` | src/utils/formatters.test.ts:18-22 | 999 is shown as `G/LD-999` |
| `Formatters.FormatSotaIdOf1000` | src/utils/formatters.test.ts:24-27 | 1000 is shown as `G/LD-1000` |
| `Formatters.FormatSotaIdOf1234` | src/utils/formatters.test.ts:24-27 | 1234 is shown as `G/LD-1234` |
| `Formatters.FormatSotaIdOfNull` | src/utils/formatters.test.ts:29-31 | null stays null |
| `Formatters.FormatWotaId` | src/utils/formatters.ts:17-26 | ids ≤ 214 give `LDW-` and exactly PaddedWidth(id) digits reading back as the id; ids > 214 give `LDO-` and exactly PaddedWidth(id − 214) digits reading back as id − 214 |
| `Formatters.FormatWotaIdInjective` | src/utils/formatters.ts:17-26 | distinct WOTA ids always give distinct displays |
| `Formatters.FormatWotaIdOf0` | src/utils/formatters.test.ts:35-41 | 0 is shown as `LDW-000` |
| `Formatters.FormatWotaIdOf1` | src/utils/formatters.test.ts:35-41 | 1 is shown as `LDW-001` |
| `Formatters.FormatWotaIdOf42` | src/utils/formatters.test.ts:35-41 | 42 is shown as `LDW-042` |
| `Formatters.FormatWotaIdOf123` | src/utils/formatters.test.ts:35-41 | 123 is shown as `LDW-123` |
| `Formatters.FormatWotaIdOf214` | src/utils/formatters.test.ts:35-41 | 214 is shown as `LDW-214`, the last Wainwright |
| `Formatters.FormatWotaIdOf215` | src/utils/formatters.test.ts:43-49 | 215 is shown as `LDO-001`, the first Outlying Fell |
| `Formatters.FormatWotaIdOf216` | src/utils/formatters.test.ts:43-49 | 216 is shown as `LDO-002` |
| `Formatters.FormatWotaIdOf300` | src/utils/formatters.test.ts:43-49 | 300 is shown as `LDO-086` |
| `Formatters.FormatWotaIdOf428` | src/utils/formatters.test.ts:43-49 | 428 is shown as `LDO-214`, the Outlying Fell number that equals the last Wainwright id |
| `Formatters.FormatWotaIdOf999` | src/utils/formatters.test.ts:43-49 | 999 is shown as `LDO-785` |
| `Formatters.FormatWotaIdOf1000` | src/utils/formatters.test.ts:51-54 | 1000 is shown as `LDO-786` |
| `Formatters.FormatWotaIdOf1234` | src/utils/formatters.test.ts:51-54 | 1234 is shown as `LDO-1020` |
| `Formatters.FormatHeight` | src/utils/formatters.ts:33-35 | a positive height gives its digits, with no leading zero, followed by `m`, reading back as the height; zero or negative gives `Unknown` |
| `Formatters.FormatHeightInjective` | src/utils/formatters.ts:34 | a known height never shares its display with another height or with an unknown one |
| `Formatters.FormatHeightExamples` | src/utils/formatters.test.ts:57-71 | 100 gives `100m`, 978 gives `978m` and 1000 gives `1000m`; 0 and −1 give `Unknown` |
| `Formatters.FormatDate` | src/utils/formatters.ts:42-45 | null gives `Never`; a date gives the locale rendering |
| `Formatters.FormatDateTime` | src/utils/formatters.ts:52-62 | null gives `Unknown`; a date gives the en-GB locale rendering |
| `Maidenhead.JsRem` | src/utils/maidenhead.ts:31-32 | JavaScript's truncating `%`: for x ≥ 0 it is the floored remainder and lies in [0, m) |
| `Maidenhead.FromCharCode` | src/utils/maidenhead.ts:26 | `String.fromCharCode` yields the character with the given code |
| `Maidenhead.FieldLonIndex` | src/utils/maidenhead.ts:24 | the longitude field index is 0..18, is 18 exactly at lon = 180, and names the 20° band holding the shifted longitude |
| `Maidenhead.FieldLatIndex` | src/utils/maidenhead.ts:25 | the latitude field index is 0..18, is 18 exactly at lat = 90, and names the 10° band holding the shifted latitude |
| `Maidenhead.SquareLonIndex` | src/utils/maidenhead.ts:31 | a single digit 0..9 naming the 2° band holding the remainder inside the field |
| `Maidenhead.SquareLatIndex` | src/utils/maidenhead.ts:32 | a single digit 0..9 naming the 1° band holding the remainder inside the field |
| `Maidenhead.SubsquareLonIndex` | src/utils/maidenhead.ts:38 | 0..23, naming the 1/12° band holding the remainder inside the 2° square |
| `Maidenhead.SubsquareLatIndex` | src/utils/maidenhead.ts:39 | 0..23, naming the 1/24° band holding the fractional degree |
| `Maidenhead.ExtendedLonIndex` | src/utils/maidenhead.ts:45 | a digit 0..9 naming the 1/120° band holding the remainder modulo 1/12° |
| `Maidenhead.ExtendedLatIndex` | src/utils/maidenhead.ts:46 | a digit 0..9 naming the 1/240° band holding the remainder modulo 1/24° |
| `Maidenhead.FieldPair` | src/utils/maidenhead.ts:24-26 | the field pair is two letters in A..S whose codes are 65 plus the longitude and latitude field indices |
| `Maidenhead.SquarePair` | src/utils/maidenhead.ts:31-33 | the square pair is two digit characters that read back as the two square indices |
| `Maidenhead.SubsquarePair` | src/utils/maidenhead.ts:38-40 | the subsquare pair is two letters in a..x whose codes are 97 plus the longitude and latitude subsquare indices |
| `Maidenhead.ExtendedPair` | src/utils/maidenhead.ts:45-47 | the extended-square pair is two digit characters that read back as the two extended indices |
| `Maidenhead.ToMaidenhead` | src/utils/maidenhead.ts:9-50 | an error exactly when lat ∉ [−90, 90] or lon ∉ [−180, 180], and the latitude error exactly when the latitude is off; otherwise 2·Levels(precision) characters of the locator alphabet; `precision` defaults to 3 |
| `Maidenhead.LonCells` | src/utils/maidenhead.ts:24-46 | the west edges given by the four longitude indices nest, and each enclosing cell (20°, 2°, 1/12°, 1/120°) holds the shifted longitude |
| `Maidenhead.LatCells` | src/utils/maidenhead.ts:25-47 | the south edges given by the four latitude indices nest, and each enclosing cell (10°, 1°, 1/24°, 1/240°) holds the shifted latitude |
| `Maidenhead.ExtendedSquareFromSubsquareRemainder` | src/utils/maidenhead.ts:45-46 | the level-4 indices as written equal a tenfold subdivision of the remainder left inside the subsquare |
| `Maidenhead.EncodedCellContainsPoint` | src/utils/maidenhead.ts:9-50 | decoding the emitted locator gives a cell of the width and height its length implies that contains the encoded point |
| `Maidenhead.LocatorLength` | src/utils/maidenhead.ts:28-49 | a successful locator has 2 characters for precision < 2, 4 for precision 2, 6 for precision 3 and 8 from precision 4 up |
| `Maidenhead.PrefixStable` | src/utils/maidenhead.ts:21-49 | for p ≤ q both calls fail or both succeed, and the locator at p is a prefix of the one at q |
| `Maidenhead.FieldLetterS` | src/utils/maidenhead.ts:10-26 | a field letter is in A..R exactly when its coordinate is below the upper bound; it is `S` exactly at lon = 180 (lat = 90) |
| `Maidenhead.DefaultPrecision` | src/utils/maidenhead.ts:9 | leaving out `precision` is the same as passing 3, so a successful locator then has 6 characters |
| `Maidenhead.LakeDistrictExample` | src/utils/maidenhead.ts:9-42 | (54.454, −3.212) with the precision left out gives `IO84jk` |
| `Maidenhead.LondonExample` | src/utils/maidenhead.ts:9-50 | (51.5, −0.1) at precision 4 gives `IO91wm80` |
| `Maidenhead.NorthEastCornerExample` | src/utils/maidenhead.ts:10-50 | (90, 180) passes the range check and gives `SS00aa00` |
| `Geolocation.FindClosestSummit` | src/utils/geolocation.ts:43-72 | null for an empty list, and null exactly when no summit is located; otherwise an element of the input with both coordinates that no located summit beats, and that every earlier located summit is strictly farther than |
| `Geolocation.FirstNearestUnique` | src/utils/geolocation.ts:63-68 | at most one index is the earliest nearest located summit, so the scan's result is determined by its specification |
| `Geolocation.NearerOfTwo` | src/utils/geolocation.ts:56-71 | with two located summits, the search returns the first unless the second is strictly nearer |

## Left out

- `src/utils/gridReference.ts` (`gridRefToLatLon`, `latLonToGridRef`) is not part of this model. It wraps an Ordnance Survey grid library that is not part of this model either and does floating-point projection and datum work.
- `LatLon.distanceTo` is a parameter (`dist`), because the spherical-geometry library behind it is not part of this model.
- `getCurrentPosition` is left out: it is browser geolocation with asynchronous callbacks.
- `formatDistance` is left out, because it relies on floating-point `toFixed(1)` and `Math.round`.
- The locale renderings inside `formatDate` and `formatDateTime` (`toLocaleDateString`, `toLocaleString('en-GB', …)`) are parameters, because they depend on the runtime's locale data.
- Geolocation.FindClosestSummit: distances are exact reals. A NaN or infinite JavaScript distance never compares below `minDistance`, but it cannot arise in the model. So the model's first located summit always replaces the initial Infinity.
- Maidenhead.ToMaidenhead: the model uses exact reals, not IEEE doubles. Floating-point remainder drift near cell edges is not reproduced, and `precision` is an integer. The level-4 formula is kept as written.
- Formatters.FormatSotaId and Formatters.FormatWotaId take non-negative integers. For negative ids, JavaScript's `String(-5).padStart(3, '0')` gives `0-5`, and stored ids are never negative. The model also ignores JavaScript's exponent notation for numbers of 10^21 and more.
- Formatters.FormatHeight takes an integer height. The stored heights are whole metres, and a fractional JavaScript height would print with decimals.
- `Summit` carries only the record fields the search and the displays use; the other fields of `src/services/api.ts` are left out.
- Persistence, HTTP routing and the UI (`src/services/database.ts`, `server/api.ts`, `src/services/api.ts`, `server/prisma.ts`, `src/main.ts`) are left out. They are input/output around a database and a browser.
