# spacecoords: frame-name handling in front of the Astropy transform

This project models the frame-name logic of `spacecoords.astropy` (the
`spacecoords` package converts states between Earth-fixed, celestial and local
reference frames) and proves properties about it in Dafny. It covers:

- **The alias table** `ASTROPY_FRAMES`. It maps the frame names a caller may use,
  in upper case, to Astropy class names: `ITRF` to `ITRS`, `ICRF` and `SPICEJ2000`
  to `ICRS`, `GCRF` to `GCRS`, `HCRF` to `HCRS`, and each upper-cased ecliptic
  frame name to its mixed-case class.
- **The no-obstime list** `ASTROPY_NOT_OBSTIME`: the classes that take no
  observation time.
- **The classification** `not_geocentric` / `is_geocentric`. It works on the raw
  name in any letter case.
- **`convert`**. It upper-cases both names. If they are equal it returns a copy of
  the states. Otherwise it checks the input frame, then the output frame, and
  raises `ValueError` for the first unknown name. It builds a fresh keyword
  dictionary per frame, adding `obstime` only for time-dependent classes. It
  writes the transformed position rows (0-2) and velocity rows (3-5) into a copy
  of the `(6, n)` state array.

Files:

- `text.dfy` (module `Text`) holds ASCII stand-ins for Python's `str.upper` and
  `str.startswith`. It also holds character-by-character "ignoring case"
  reference definitions, with lemmas linking the two.
- `astropy.dfy` (module `Astropy`) holds the tables, the classification, the
  specification function `Dispatch` and the imperative `Convert` over
  `array2<real>`.

The Astropy step (`_convert_to_astropy` followed by `transform_to`) is foreign
floating-point code. `Convert` therefore takes it as a function parameter of type
`AstropyTransform`. Given the input states, the source and target frame
specifications (class name plus keyword dictionary) and a column index, it
returns the transformed position and velocity of that column.

Behaviour reproduced as written: classification looks at the name, not at the
class it resolves to. So `SPICEJ2000`, an alias of ICRS, is geocentric while
`ICRS` is not. The barycentric ecliptic frames are geocentric too
(`SpiceJ2000IsGeocentric`, `GeocentricFrameNames`).

## Model

| member | source | states |
|---|---|---|
| `Text.Upper` | src/spacecoords/astropy.py:51-52 | `name.upper()` has no lower-case letter and agrees with the name character by character up to letter case |
| `Text.StartsWith` | src/spacecoords/astropy.py:52 | `s.startswith(prefix)` holds exactly when `s` is `prefix` followed by some remainder |
| `Text.SameUpperIffEqualsIgnoringCase` | src/spacecoords/astropy.py:51 | comparing `.upper()` forms, as the membership test and the `in_frame == out_frame` test do, is exactly character-level comparison ignoring letter case, in both directions |
| `Text.UpperPrefixIffStartsWithIgnoringCase` | src/spacecoords/astropy.py:52 | `name.upper().startswith("Heliocentric".upper())` is exactly a character-level case-insensitive prefix test, in both directions |
| `Astropy.NotGeocentric` | src/spacecoords/astropy.py:49-52 | true exactly when the name equals ICRS, ICRF, HCRS or HCRF ignoring letter case, or starts with "Heliocentric" ignoring letter case (character-level reference definitions) |
| `Astropy.IsGeocentric` | src/spacecoords/astropy.py:55-57 | true exactly when none of the `not_geocentric` conditions holds, stated on the characters of the name |
| `Astropy.ClassificationIgnoresCase` | src/spacecoords/astropy.py:51-52 | two names with the same upper-case form are classified alike by both predicates, and classifying the upper-cased name gives the same answer |
| `Astropy.GeocentricFrameNames` | src/spacecoords/astropy.py:21-52 | over the table's names, exactly ICRS, ICRF, HCRS, HCRF and the two heliocentric ecliptics are non-geocentric |
| `Astropy.FrameNameClassification` | src/spacecoords/astropy.py:49-52 | the same classification for one accepted name |
| `Astropy.SpiceJ2000IsGeocentric` | src/spacecoords/astropy.py:37-57 | SPICEJ2000 and ICRS resolve to the same class ICRS, yet SPICEJ2000 is geocentric and ICRS is not |
| `Astropy.HeliocentricNamesUpperCased` | src/spacecoords/astropy.py:31-33 | the heliocentric ecliptic keys computed with `.upper()` are HELIOCENTRICMEANECLIPTIC and HELIOCENTRICTRUEECLIPTIC |
| `Astropy.GeocentricNamesUpperCased` | src/spacecoords/astropy.py:32-34 | the geocentric ecliptic keys computed with `.upper()` are GEOCENTRICMEANECLIPTIC and GEOCENTRICTRUEECLIPTIC |
| `Astropy.BarycentricNamesUpperCased` | src/spacecoords/astropy.py:35-36 | the barycentric ecliptic keys computed with `.upper()` are BARYCENTRICMEANECLIPTIC and BARYCENTRICTRUEECLIPTIC |
| `Astropy.ShortNamesUpperCased` | src/spacecoords/astropy.py:22-37 | the literal keys and short class names are already upper case |
| `Astropy.FrameClasses` | src/spacecoords/astropy.py:21-38 | every entry maps to one of the eleven Astropy classes TEME, ITRS, ICRS, GCRS, HCRS and the six ecliptic frames |
| `Astropy.ClassNameUpperCasedIsAccepted` | src/spacecoords/astropy.py:21-38 | each of those class names, upper-cased, is an accepted name that maps back to the class |
| `Astropy.FrameNameUpperCase` | src/spacecoords/astropy.py:21-38 | an accepted name is its own upper-case form |
| `Astropy.FrameNamesAreUpperCase` | src/spacecoords/astropy.py:21-38 | every key of the table is upper case, so the lookup of `name.upper()` can reach every entry |
| `Astropy.ClassNameResolvesToItself` | src/spacecoords/astropy.py:21-38 | a class named by the table is, upper-cased, an accepted name mapping to that class |
| `Astropy.AliasResolutionStable` | src/spacecoords/astropy.py:21-38 | for every key k, upper(table[k]) is a key and maps to table[k] again |
| `Astropy.Resolve` | src/spacecoords/astropy.py:98-99 | a name resolves exactly when its upper-case form is a key; the class it resolves to is a table value whose upper-case form resolves back to it |
| `Astropy.ResolveByKey` | src/spacecoords/astropy.py:98-99 | a name equal to a key of the table up to letter case resolves to that key's class |
| `Astropy.ResolveFindsKey` | src/spacecoords/astropy.py:98-101 | a name that resolves equals some key up to letter case and resolves to its class; a name equal to no key does not resolve |
| `Astropy.ObstimeFreeFrameNames` | src/spacecoords/astropy.py:42-46 | among accepted names, exactly ICRS, ICRF, SPICEJ2000 and the two barycentric ecliptics resolve to a class without observation time; every class of the list is a table value |
| `Astropy.ObstimeByName` | src/spacecoords/astropy.py:110 | for any accepted name, its class gets `obstime` unless the upper-cased name is ICRS, ICRF, SPICEJ2000, BARYCENTRICMEANECLIPTIC or BARYCENTRICTRUEECLIPTIC |
| `Astropy.Keywords` | src/spacecoords/astropy.py:108-111 | the keyword dictionary has the caller's keys plus `obstime` exactly when the class is time dependent; `obstime` is `t` then, overriding the caller's value; every other key keeps the caller's value |
| `Astropy.FrameKeywords` | src/spacecoords/astropy.py:125-128 | building the dictionary by `{}`, `update` and assignment yields exactly `Keywords` |
| `Astropy.SpecFor` | src/spacecoords/astropy.py:98-111 | the class of an accepted name's frame specification is the class the name resolves to, a table value that resolves to itself, and its keywords are `Keywords` for that class |
| `Astropy.Dispatch` | src/spacecoords/astropy.py:92-128 | unchanged exactly when the upper-cased names are equal; an unknown input name is reported exactly when the names differ and the input does not resolve, whatever the output name is; an unknown output name exactly when the names differ, the input resolved and the output does not; a transform exactly when the names differ and both resolve, between the two resolved classes with their keyword dictionaries |
| `Astropy.SameFrameIsUnchanged` | src/spacecoords/astropy.py:92-96 | names equal up to letter case give an unchanged copy, whether or not the name is in the table |
| `Astropy.TransformBetweenAcceptedNames` | src/spacecoords/astropy.py:98-128 | two different accepted names always give a transform, and swapping them swaps the source and target specifications |
| `Astropy.PositionRows` | src/spacecoords/astropy.py:133 | the transformed positions form three rows of n values |
| `Astropy.VelocityRows` | src/spacecoords/astropy.py:134 | the transformed velocities form three rows of n values |
| `Astropy.CopyStates` | src/spacecoords/astropy.py:132 | `states.copy()` is a fresh array of the same shape and contents |
| `Astropy.AssignRows` | src/spacecoords/astropy.py:133-134 | a row-slice assignment overwrites exactly the rows of the block and leaves every other entry unchanged |
| `Astropy.StoreState` | src/spacecoords/astropy.py:132-134 | after both slice assignments the array holds the three position rows followed by the three velocity rows |
| `Astropy.Unrecognized` | src/spacecoords/astropy.py:102-106 | the `ValueError` text starts with the side ("In" or "Out"), carries the name after ` frame '`, and has exactly the length of the two fixed fragments plus side and name |
| `Astropy.Convert` | src/spacecoords/astropy.py:60-136 | follows `Dispatch`: a fresh copy of `states` for equal names; `ValueError` with the source's message for the first unknown name; otherwise a fresh `(6, n)` array whose rows 0-2 are transformed positions and rows 3-5 transformed velocities; the caller's array is never written (no modifies clause) |

## Left out

- The Astropy transform itself (`_convert_to_astropy`, `transform_to`, the unit conversions to m and m/s) is foreign floating-point code. It is the function parameter `astropy` of `Convert`. Exceptions Astropy may raise, for example for keyword arguments a frame class does not accept, are not modelled.
- `getattr(coord, name)` is modelled by the class name itself.
- Convert: requires a `(6, n)` array as the docstring demands. Numpy broadcasting errors for other shapes are not modelled. The transform is assumed to return one state per input column.
- Convert: the caller's `frame_kwargs` is a map value, so "never modified" holds by construction. The model does not capture that the Python copy is shallow, so mutable values are shared.
- Text.Upper: ASCII only. Python's full Unicode `str.upper` (including length-changing mappings such as `ß` to `SS`) is not modelled.
- `geodetic_to_ITRS` and `ITRS_to_geodetic` raise `NotImplementedError` on their first line, so everything after is unreachable. They are not modelled.
- src/spacecoords/frames.py (rotation matrices over floats), src/spacecoords/cli.py (argument parsing and a download) and src/spacecoords/__init__.py (optional-dependency detection) are not part of this model.
- spacecoords.linalg (the triangulation and trilateration builders called by docs/examples/triangulation.py and docs/examples/trilateration.py) is not part of this model.
